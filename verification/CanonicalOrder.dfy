/**
  Trimming and sorting as the canonicalizer uses them: trimming twice changes nothing, and sorting by
  serialized text forgets the order of the items and nothing else.
 */
module CanonicalOrder {
  import opened Json
  import opened JsonReader
  import opened Canonical

  // ----- Trimming -----

  ghost predicate White(s: string) {
    forall i | 0 <= i < |s| :: WhiteSpace(s[i])
  }

  /** `s` is `core` with whitespace around it. */
  ghost predicate Padded(core: string, s: string) {
    exists a, b | White(a) && White(b) :: s == a + core + b
  }

  /** `s` and `t` differ only in the whitespace around them. */
  ghost predicate SameCore(s: string, t: string) {
    exists core :: Padded(core, s) && Padded(core, t)
  }

  lemma {:induction false} TrimStartCuts(s: string) returns (a: string)
    ensures White(a) && s == a + TrimStart(s)
    ensures TrimStart(s) == "" || !WhiteSpace(TrimStart(s)[0])
  {
    a := "";
    if s != "" && WhiteSpace(s[0]) {
      a := TrimStartCuts(s[1..]);
      a := [s[0]] + a;
    }
  }

  lemma {:induction false} TrimEndCuts(s: string) returns (b: string)
    ensures White(b) && s == TrimEnd(s) + b
    ensures TrimEnd(s) == "" || !WhiteSpace(TrimEnd(s)[|TrimEnd(s)| - 1])
  {
    b := "";
    if s != "" && WhiteSpace(s[|s| - 1]) {
      b := TrimEndCuts(s[..|s| - 1]);
      b := b + [s[|s| - 1]];
    }
  }

  /** Trimming takes whitespace off both ends, nothing else, and leaves none there. */
  lemma TrimCuts(s: string) returns (a: string, b: string)
    ensures White(a) && White(b) && s == a + Trim(s) + b
    ensures var t := Trim(s); t == "" || (!WhiteSpace(t[0]) && !WhiteSpace(t[|t| - 1]))
  {
    a := TrimStartCuts(s);
    b := TrimEndCuts(TrimStart(s));
    assert s == a + (Trim(s) + b);
    assert Trim(s) != "" ==> Trim(s)[0] == TrimStart(s)[0];
  }

  lemma {:induction false} TrimStartSkips(a: string, s: string)
    requires White(a)
    ensures TrimStart(a + s) == TrimStart(s)
  {
    if a == "" {
      assert a + s == s;
    } else {
      assert (a + s)[1..] == a[1..] + s;
      TrimStartSkips(a[1..], s);
    }
  }

  lemma {:induction false} TrimEndSkips(s: string, b: string)
    requires White(b)
    ensures TrimEnd(s + b) == TrimEnd(s)
  {
    if b == "" {
      assert s + b == s;
    } else {
      assert (s + b)[..|s + b| - 1] == s + b[..|b| - 1];
      TrimEndSkips(s, b[..|b| - 1]);
    }
  }

  /** A text that begins with no whitespace keeps its beginning. */
  lemma {:induction false} TrimEndKeeps(s: string, b: string)
    requires s != "" && !WhiteSpace(s[0])
    ensures TrimStart(s + b) == s + b
  {
    assert (s + b)[0] == s[0];
  }

  lemma {:induction false} WhiteVanishes(s: string)
    requires White(s)
    ensures TrimStart(s) == ""
  {
    if s != "" {
      WhiteVanishes(s[1..]);
    }
  }

  /** Whitespace put around a text does not survive. */
  lemma TrimIgnores(a: string, s: string, b: string)
    requires White(a) && White(b)
    ensures Trim(a + s + b) == Trim(s)
  {
    assert a + s + b == a + (s + b);
    TrimStartSkips(a, s + b);
    var c := TrimStartCuts(s);
    var t := TrimStart(s);
    assert s + b == c + (t + b);
    TrimStartSkips(c, t + b);
    if t == "" {
      assert t + b == b;
      WhiteVanishes(b);
    } else {
      TrimEndKeeps(t, b);
      TrimEndSkips(t, b);
    }
  }

  /** Two texts trim to the same if and only if they differ only in the whitespace around them. */
  lemma TrimCharacterized(s: string, t: string)
    ensures Trim(s) == Trim(t) <==> SameCore(s, t)
  {
    var a, b := TrimCuts(s);
    var c, d := TrimCuts(t);
    assert Padded(Trim(s), s) && Padded(Trim(t), t);
    if SameCore(s, t) {
      var core :| Padded(core, s) && Padded(core, t);
      PaddedTrims(core, s);
      PaddedTrims(core, t);
    }
  }

  lemma PaddedTrims(core: string, s: string)
    requires Padded(core, s)
    ensures Trim(s) == Trim(core)
  {
    var a, b :| White(a) && White(b) && s == a + core + b;
    TrimIgnores(a, core, b);
  }

  lemma BlankIsWhite(s: string)
    ensures Blank(s) <==> White(s)
  {
    var a, b := TrimCuts(s);
    if White(s) {
      WhiteVanishes(s);
    }
  }

  lemma TrimTwice(s: string)
    ensures Trim(Trim(s)) == Trim(s)
  {
    var a, b := TrimCuts(s);
    TrimIgnores(a, Trim(s), b);
  }

  // ----- The order of texts -----

  /** `a` is a beginning of `b`, or smaller where they first differ. */
  lemma {:induction false} LexMeans(a: string, b: string)
    ensures LexLeq(a, b) <==> a <= b || exists k | 0 <= k < |a| && k < |b| :: a[..k] == b[..k] && a[k] < b[k]
  {
    if a != "" && b != "" && a[0] == b[0] {
      LexMeans(a[1..], b[1..]);
      forall k | 0 < k < |a| && k < |b|
        ensures a[..k] == b[..k] <==> a[1..][..k - 1] == b[1..][..k - 1]
      {
        assert a[..k] == [a[0]] + a[1..][..k - 1] && b[..k] == [b[0]] + b[1..][..k - 1];
      }
      if k :| 0 <= k < |a| - 1 && k < |b| - 1 && a[1..][..k] == b[1..][..k] && a[1..][k] < b[1..][k] {
        assert a[..k + 1] == b[..k + 1] && a[k + 1] < b[k + 1];
      }
      if k :| 0 <= k < |a| && k < |b| && a[..k] == b[..k] && a[k] < b[k] {
        assert a[1..][..k - 1] == b[1..][..k - 1] && a[1..][k - 1] < b[1..][k - 1];
      }
      assert a <= b <==> a[1..] <= b[1..];
    } else if a != "" && b != "" {
      assert a[..0] == b[..0];
    }
  }

  lemma {:induction false} LexTotal(a: string, b: string)
    ensures LexLeq(a, b) || LexLeq(b, a)
  {
    if a != "" && b != "" && a[0] == b[0] {
      LexTotal(a[1..], b[1..]);
    }
  }

  lemma {:induction false} LexTransitive(a: string, b: string, c: string)
    requires LexLeq(a, b) && LexLeq(b, c)
    ensures LexLeq(a, c)
  {
    if a != "" && a[0] == b[0] == c[0] {
      LexTransitive(a[1..], b[1..], c[1..]);
    }
  }

  lemma {:induction false} LexAntisymmetric(a: string, b: string)
    requires LexLeq(a, b) && LexLeq(b, a)
    ensures a == b
  {
    if a != "" {
      LexAntisymmetric(a[1..], b[1..]);
      assert a == [a[0]] + a[1..] && b == [b[0]] + b[1..];
    }
  }

  // ----- Sorting -----

  predicate AllPrintable(vs: seq<Value>) {
    forall v | v in vs :: Printable(v)
  }

  predicate BelowAll(v: Value, vs: seq<Value>) {
    forall w | w in vs :: Leq(v, w)
  }

  predicate Sorted(vs: seq<Value>) {
    vs != [] ==> BelowAll(vs[0], vs[1..]) && Sorted(vs[1..])
  }

  lemma {:induction false} InsertItems(v: Value, sorted: seq<Value>)
    ensures multiset(Insert(v, sorted)) == multiset(sorted) + multiset{v}
  {
    if sorted != [] {
      assert sorted == [sorted[0]] + sorted[1..];
      if !Leq(v, sorted[0]) {
        InsertItems(v, sorted[1..]);
      }
    }
  }

  lemma SameItems(a: seq<Value>, b: seq<Value>, v: Value)
    requires multiset(a) == multiset(b)
    ensures v in a <==> v in b
  {
    assert v in a <==> v in multiset(a);
    assert v in b <==> v in multiset(b);
  }

  lemma {:induction false} InsertSorted(v: Value, sorted: seq<Value>)
    requires Sorted(sorted)
    ensures Sorted(Insert(v, sorted))
  {
    if sorted != [] {
      if Leq(v, sorted[0]) {
        assert ([v] + sorted)[1..] == sorted;
        forall w | w in sorted ensures Leq(v, w) {
          if w != sorted[0] {
            assert w in sorted[1..];
            LexTransitive(Text(v), Text(sorted[0]), Text(w));
          }
        }
      } else {
        LexTotal(Text(v), Text(sorted[0]));
        InsertSorted(v, sorted[1..]);
        InsertItems(v, sorted[1..]);
        var rest := Insert(v, sorted[1..]);
        assert ([sorted[0]] + rest)[1..] == rest;
        forall w | w in rest ensures Leq(sorted[0], w) {
          SameItems(rest, sorted[1..] + [v], w);
        }
      }
    }
  }

  /** Sorting keeps every item and puts them in order. */
  lemma {:induction false} SortIsSorted(vs: seq<Value>)
    ensures Sorted(Sort(vs)) && multiset(Sort(vs)) == multiset(vs)
  {
    if vs != [] {
      assert vs == [vs[0]] + vs[1..];
      SortIsSorted(vs[1..]);
      InsertSorted(vs[0], Sort(vs[1..]));
      InsertItems(vs[0], Sort(vs[1..]));
    }
  }

  lemma SortedHead(vs: seq<Value>, v: Value)
    requires Sorted(vs) && v in vs
    ensures Leq(vs[0], v)
  {
    if v != vs[0] {
      assert v in vs[1..];
    } else {
      LexTotal(Text(v), Text(v));
    }
  }

  lemma SameHead(a: seq<Value>, b: seq<Value>)
    requires Sorted(a) && Sorted(b) && a != [] && b != [] && multiset(a) == multiset(b) && AllPrintable(a)
    ensures a[0] == b[0]
  {
    SameItems(a, b, a[0]);
    SameItems(a, b, b[0]);
    SortedHead(a, b[0]);
    SortedHead(b, a[0]);
    LexAntisymmetric(Text(a[0]), Text(b[0]));
    TextInjective(a[0], b[0]);
  }

  lemma SameTail(a: seq<Value>, b: seq<Value>)
    requires a != [] && b != [] && a[0] == b[0] && multiset(a) == multiset(b)
    ensures multiset(a[1..]) == multiset(b[1..])
  {
    assert a == [a[0]] + a[1..] && b == [b[0]] + b[1..];
    assert multiset(a[1..]) == multiset(a) - multiset{a[0]};
    assert multiset(b[1..]) == multiset(b) - multiset{b[0]};
  }

  /** Items in order are determined by which items they are: the text of a value determines it. */
  lemma {:induction false} SortedUnique(a: seq<Value>, b: seq<Value>)
    requires Sorted(a) && Sorted(b) && multiset(a) == multiset(b) && AllPrintable(a)
    ensures a == b
  {
    assert |multiset(a)| == |a| && |multiset(b)| == |b|;
    if a != [] {
      SameHead(a, b);
      SameTail(a, b);
      SortedUnique(a[1..], b[1..]);
      assert a == [a[0]] + a[1..] && b == [b[0]] + b[1..];
    }
  }

  lemma SortOfSorted(vs: seq<Value>)
    requires Sorted(vs) && AllPrintable(vs)
    ensures Sort(vs) == vs
  {
    SortIsSorted(vs);
    SortedUnique(vs, Sort(vs));
  }

  /** Sorting forgets order and nothing else. */
  lemma SortForgetsOrder(a: seq<Value>, b: seq<Value>)
    requires AllPrintable(a) && AllPrintable(b)
    ensures Sort(a) == Sort(b) <==> multiset(a) == multiset(b)
  {
    SortIsSorted(a);
    SortIsSorted(b);
    if multiset(a) == multiset(b) {
      forall v | v in Sort(a) ensures Printable(v) {
        SameItems(Sort(a), a, v);
      }
      SortedUnique(Sort(a), Sort(b));
    }
  }
}
