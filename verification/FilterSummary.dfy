/**
  What a pile of contributions amounts to: per folded key, the first value seen and the first of the
  longest labels. The summary of a concatenation is determined by the summaries of its parts, which is
  why per-target dictionaries can be merged.
 */
module FilterSummary {
  import opened Common
  import opened FilterCatalog

  /** The contributions with a given folded key, in order. */
  function Group(os: seq<FilterOption>, lower: string -> string, key: string): (r: seq<FilterOption>)
    ensures forall o | o in r :: o in os && lower(o.value) == key
  {
    if os == [] then [] else (if lower(os[0].value) == key then [os[0]] else []) + Group(os[1..], lower, key)
  }

  lemma {:induction false} GroupConcat(a: seq<FilterOption>, b: seq<FilterOption>, lower: string -> string, key: string)
    ensures Group(a + b, lower, key) == Group(a, lower, key) + Group(b, lower, key)
  {
    if a == [] {
      assert a + b == b;
    } else {
      assert (a + b)[1..] == a[1..] + b;
      GroupConcat(a[1..], b, lower, key);
    }
  }

  /** The earlier of two labels unless the later one is longer. */
  function Longer(a: string, b: string): string {
    if ByteLength(b) > ByteLength(a) then b else a
  }

  /** The first of the longest labels. */
  function Best(g: seq<FilterOption>): string
    requires g != []
  {
    if |g| == 1 then g[0].caption else Longer(Best(g[..|g| - 1]), g[|g| - 1].caption)
  }

  function Lengths(g: seq<FilterOption>): (r: seq<nat>)
    ensures |r| == |g|
  {
    seq(|g|, i requires 0 <= i < |g| => ByteLength(g[i].caption))
  }

  /** The first position of the largest number. */
  function FirstMax(ns: seq<nat>): (i: nat)
    requires ns != []
    ensures i < |ns| && (forall j | 0 <= j < |ns| :: ns[j] <= ns[i]) && (forall j | 0 <= j < i :: ns[j] < ns[i])
  {
    var n := |ns| - 1;
    if n == 0 then 0
    else
      var k := FirstMax(ns[..n]);
      assert forall j | 0 <= j < n :: ns[..n][j] == ns[j];
      if ns[n] > ns[k] then n else k
  }

  /** The best label is the first of the longest. */
  lemma {:induction false} BestIsFirstLongest(g: seq<FilterOption>)
    requires g != []
    ensures Best(g) == g[FirstMax(Lengths(g))].caption
  {
    var n := |g| - 1;
    if n > 0 {
      BestIsFirstLongest(g[..n]);
      assert Lengths(g)[..n] == Lengths(g[..n]);
    }
  }

  lemma {:induction false} BestConcat(a: seq<FilterOption>, b: seq<FilterOption>)
    requires a != [] && b != []
    ensures Best(a + b) == Longer(Best(a), Best(b))
  {
    var n := |b| - 1;
    assert (a + b)[..|a + b| - 1] == a + b[..n];
    if n == 0 {
      assert a + b[..n] == a;
    } else {
      BestConcat(a, b[..n]);
    }
  }

  /** What a group amounts to. */
  function Gist(g: seq<FilterOption>): Option<FilterOption> {
    if g == [] then None else Some(FilterOption(g[0].value, Best(g)))
  }

  lemma GistConcat(a: seq<FilterOption>, b: seq<FilterOption>, a': seq<FilterOption>, b': seq<FilterOption>)
    requires Gist(a) == Gist(a') && Gist(b) == Gist(b')
    ensures Gist(a + b) == Gist(a' + b')
  {
    if a == [] {
      assert a + b == b && a' + b' == b';
    } else if b == [] {
      assert a + b == a && a' + b' == a';
    } else {
      BestConcat(a, b);
      BestConcat(a', b');
    }
  }

  /** Two piles amount to the same options. */
  ghost predicate SameGist(a: seq<FilterOption>, b: seq<FilterOption>, lower: string -> string) {
    forall key :: Gist(Group(a, lower, key)) == Gist(Group(b, lower, key))
  }

  lemma SameGistConcat(a: seq<FilterOption>, b: seq<FilterOption>, a': seq<FilterOption>, b': seq<FilterOption>,
                       lower: string -> string)
    requires SameGist(a, a', lower) && SameGist(b, b', lower)
    ensures SameGist(a + b, a' + b', lower)
  {
    forall key ensures Gist(Group(a + b, lower, key)) == Gist(Group(a' + b', lower, key)) {
      GroupConcat(a, b, lower, key);
      GroupConcat(a', b', lower, key);
      GistConcat(Group(a, lower, key), Group(b, lower, key), Group(a', lower, key), Group(b', lower, key));
    }
  }

  // ----- The option map -----

  type OptionMap = map<string, FilterOption>

  function InsertOption(m: OptionMap, o: FilterOption, lower: string -> string): OptionMap {
    var key := lower(o.value);
    m[key := if key in m then m[key].(caption := Longer(m[key].caption, o.caption)) else o]
  }

  function At(m: OptionMap, key: string): Option<FilterOption> {
    if key in m then Some(m[key]) else None
  }

  /** The map holds exactly what the pile amounts to. */
  ghost predicate Summarises(m: OptionMap, os: seq<FilterOption>, lower: string -> string) {
    forall key :: At(m, key) == Gist(Group(os, lower, key))
  }

  lemma InsertSummarises(m: OptionMap, os: seq<FilterOption>, o: FilterOption, lower: string -> string)
    requires Summarises(m, os, lower)
    ensures Summarises(InsertOption(m, o, lower), os + [o], lower)
  {
    var m' := InsertOption(m, o, lower);
    forall key ensures At(m', key) == Gist(Group(os + [o], lower, key)) {
      GroupConcat(os, [o], lower, key);
      var g := Group(os, lower, key);
      assert [o][1..] == [];
      assert At(m, key) == Gist(g);
      if key == lower(o.value) {
        assert Group([o], lower, key) == [o];
        if g != [] {
          BestConcat(g, [o]);
        } else {
          assert g + [o] == [o];
        }
      } else {
        assert Group([o], lower, key) == [];
        assert g + [] == g;
      }
    }
  }

  lemma SameMaps(m: OptionMap, n: OptionMap)
    requires forall key :: At(m, key) == At(n, key)
    ensures m == n
  {
    assert forall key | key in m :: At(m, key) == Some(m[key]) && At(n, key) == Some(m[key]);
    assert forall key | key in n :: At(m, key) == Some(n[key]);
  }

  /** Piles that amount to the same are summarised by the same map, and by no other. */
  lemma SummaryUnique(m: OptionMap, n: OptionMap, a: seq<FilterOption>, b: seq<FilterOption>, lower: string -> string)
    requires Summarises(m, a, lower) && Summarises(n, b, lower) && SameGist(a, b, lower)
    ensures m == n
  {
    forall key ensures At(m, key) == At(n, key) {
      assert At(m, key) == Gist(Group(a, lower, key)) == Gist(Group(b, lower, key));
    }
    SameMaps(m, n);
  }

  lemma SummaryKeys(m: OptionMap, os: seq<FilterOption>, lower: string -> string)
    requires Summarises(m, os, lower)
    ensures forall key | key in m :: lower(m[key].value) == key
    ensures forall key :: key in m <==> exists o | o in os :: lower(o.value) == key
  {
    forall key | key in m ensures lower(m[key].value) == key {
      var g := Group(os, lower, key);
      assert At(m, key) == Gist(g);
      assert g[0] in g;
    }
    forall key ensures key in m <==> exists o | o in os :: lower(o.value) == key {
      assert At(m, key) == Gist(Group(os, lower, key));
      GroupPresent(os, lower, key);
    }
  }

  lemma {:induction false} GroupPresent(os: seq<FilterOption>, lower: string -> string, key: string)
    ensures Group(os, lower, key) != [] <==> exists o | o in os :: lower(o.value) == key
  {
    if os != [] {
      GroupPresent(os[1..], lower, key);
      if lower(os[0].value) == key {
        assert os[0] in os;
      } else if o :| o in os && lower(o.value) == key {
        assert o in os[1..];
      }
    }
  }
}
