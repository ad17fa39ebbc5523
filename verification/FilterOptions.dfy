/**
  Filter option listing, twice: the reference path walks every selected Catalog in one pass; the
  prepared path merges per-target dictionaries built in advance. They are proved to answer alike.
 */
module FilterOptions {
  import opened Common
  import opened Canonical
  import opened CanonicalOrder
  import opened FilterCatalog
  import opened FilterSummary

  /** What either path can refuse a request with; only the reference path looks into the store. */
  datatype QueryError =
    | EmptyTargetSet
    | DuplicateTarget(target: TermCampusKey)
    | FilterCampusSetMismatch
    | TargetNotPublished(target: TermCampusKey)
    | PublicationChanged(target: TermCampusKey, expected: nat, current: Option<nat>)
    | TargetNotPrepared(target: TermCampusKey)

  // ----- Piles of contributions -----

  function Filter(os: seq<FilterOption>, pass: FilterOption -> bool): (r: seq<FilterOption>)
    ensures forall o | o in r :: o in os && pass(o)
  {
    if os == [] then [] else (if pass(os[0]) then [os[0]] else []) + Filter(os[1..], pass)
  }

  lemma {:induction false} FilterAppend(os: seq<FilterOption>, o: FilterOption, pass: FilterOption -> bool)
    ensures Filter(os + [o], pass) == Filter(os, pass) + if pass(o) then [o] else []
  {
    if os == [] {
      assert os + [o] == [o] && [o][1..] == [];
    } else {
      assert (os + [o])[1..] == os[1..] + [o];
      FilterAppend(os[1..], o, pass);
    }
  }

  /** Only instructors are searched: a query keeps the names whose folded form contains it. */
  predicate Matches(field: OptionField, query: Option<string>, lower: string -> string, o: FilterOption) {
    field == Instructor && query.Some? ==> Contains(lower(o.value), lower(query.value))
  }

  /** The prepared path also looks into the label. */
  predicate PreparedMatches(field: OptionField, query: Option<string>, lower: string -> string, o: FilterOption) {
    field == Instructor && query.Some? ==>
        Contains(lower(o.value), lower(query.value)) || Contains(lower(o.caption), lower(query.value))
  }

  /** What one pass over the Catalogs inserts. */
  function ReferencePile(catalogs: seq<Catalog>, field: OptionField, query: Option<string>,
                         lower: string -> string): seq<FilterOption> {
    if catalogs == [] then []
    else ReferencePile(catalogs[..|catalogs| - 1], field, query, lower)
         + Filter(Contributions(catalogs[|catalogs| - 1], field), o => Matches(field, query, lower, o))
  }

  /** What merging the targets' listed options inserts. */
  function PreparedPile(lists: seq<seq<FilterOption>>, field: OptionField, query: Option<string>,
                        lower: string -> string): seq<FilterOption> {
    if lists == [] then []
    else PreparedPile(lists[..|lists| - 1], field, query, lower)
         + Filter(lists[|lists| - 1], o => PreparedMatches(field, query, lower, o))
  }

  /** The map left by inserting a pile, option by option. */
  function Summary(os: seq<FilterOption>, lower: string -> string): OptionMap {
    if os == [] then map[] else InsertOption(Summary(os[..|os| - 1], lower), os[|os| - 1], lower)
  }

  lemma {:induction false} SummarySummarises(os: seq<FilterOption>, lower: string -> string)
    ensures Summarises(Summary(os, lower), os, lower)
  {
    if os != [] {
      var n := |os| - 1;
      SummarySummarises(os[..n], lower);
      InsertSummarises(Summary(os[..n], lower), os[..n], os[n], lower);
      assert os == os[..n] + [os[n]];
    }
  }

  lemma SummaryAppend(os: seq<FilterOption>, o: FilterOption, lower: string -> string)
    ensures Summary(os + [o], lower) == InsertOption(Summary(os, lower), o, lower)
  {
    assert (os + [o])[..|os|] == os;
  }

  // ----- Listing a map -----

  /** Bands by number, everything else by folded label and then value. */
  predicate OptionLeq(field: OptionField, lower: string -> string, a: FilterOption, b: FilterOption) {
    if field == CourseNumberBand then BandKey(a.value) <= BandKey(b.value)
    else if lower(a.caption) == lower(b.caption) then LexLeq(a.value, b.value)
    else LexLeq(lower(a.caption), lower(b.caption))
  }

  function BandKey(s: string): nat {
    if s != "" && (forall c | c in s :: '0' <= c <= '9') && ParseDigits(s) <= U32_MAX then ParseDigits(s) else U32_MAX
  }

  function Place(o: FilterOption, sorted: seq<FilterOption>, field: OptionField,
                 lower: string -> string): seq<FilterOption> {
    if sorted == [] then [o]
    else if OptionLeq(field, lower, o, sorted[0]) then [o] + sorted
    else [sorted[0]] + Place(o, sorted[1..], field, lower)
  }

  function SortOptions(os: seq<FilterOption>, field: OptionField, lower: string -> string): seq<FilterOption> {
    if os == [] then [] else Place(os[0], SortOptions(os[1..], field, lower), field, lower)
  }

  lemma OptionTotal(field: OptionField, lower: string -> string, a: FilterOption, b: FilterOption)
    ensures OptionLeq(field, lower, a, b) || OptionLeq(field, lower, b, a)
  {
    LexTotal(a.value, b.value);
    LexTotal(lower(a.caption), lower(b.caption));
  }

  lemma OptionTransitive(field: OptionField, lower: string -> string, a: FilterOption, b: FilterOption, c: FilterOption)
    requires OptionLeq(field, lower, a, b) && OptionLeq(field, lower, b, c)
    ensures OptionLeq(field, lower, a, c)
  {
    if field != CourseNumberBand {
      var la, lb, lc := lower(a.caption), lower(b.caption), lower(c.caption);
      if la == lb == lc {
        LexTransitive(a.value, b.value, c.value);
      } else if la != lb && lb != lc {
        LexTransitive(la, lb, lc);
        if la == lc {
          LexAntisymmetric(la, lb);
        }
      }
    }
  }

  /** In label order, ties broken by value; bands in the order of their numbers. */
  predicate InOrder(list: seq<FilterOption>, field: OptionField, lower: string -> string) {
    forall i, j | 0 <= i < j < |list| :: OptionLeq(field, lower, list[i], list[j])
  }

  /** The options an order cannot tell from `x`. */
  predicate Ties(field: OptionField, lower: string -> string, x: FilterOption, o: FilterOption) {
    OptionLeq(field, lower, x, o) && OptionLeq(field, lower, o, x)
  }

  lemma {:induction false} PlaceInOrder(o: FilterOption, sorted: seq<FilterOption>, field: OptionField,
                                        lower: string -> string)
    requires InOrder(sorted, field, lower)
    ensures InOrder(Place(o, sorted, field, lower), field, lower)
  {
    if sorted != [] {
      var r, rest := Place(o, sorted, field, lower), sorted[1..];
      if OptionLeq(field, lower, o, sorted[0]) {
        forall j | 0 < j < |r| ensures OptionLeq(field, lower, o, r[j]) {
          if j > 1 {
            OptionTransitive(field, lower, o, sorted[0], sorted[j - 1]);
          }
        }
      } else {
        OptionTotal(field, lower, o, sorted[0]);
        PlaceInOrder(o, rest, field, lower);
        PlaceKeeps(o, rest, field, lower);
        forall j | 0 < j < |r| ensures OptionLeq(field, lower, sorted[0], r[j]) {
          assert r[j] in multiset(Place(o, rest, field, lower));
        }
      }
    }
  }

  lemma FilterCons(o: FilterOption, os: seq<FilterOption>, pass: FilterOption -> bool)
    ensures Filter([o] + os, pass) == (if pass(o) then [o] else []) + Filter(os, pass)
  {
    assert ([o] + os)[1..] == os;
  }

  /** Placing an option changes the order of no tied ones, and goes in front of those it ties with. */
  lemma {:induction false} PlaceIsStable(o: FilterOption, sorted: seq<FilterOption>, field: OptionField,
                                         lower: string -> string, tied: FilterOption -> bool)
    requires forall a, b | tied(a) && tied(b) :: OptionLeq(field, lower, a, b)
    ensures Filter(Place(o, sorted, field, lower), tied) == (if tied(o) then [o] else []) + Filter(sorted, tied)
  {
    if sorted == [] || OptionLeq(field, lower, o, sorted[0]) {
      FilterCons(o, sorted, tied);
      assert [o] + sorted == if sorted == [] then [o] else [o] + sorted;
    } else {
      PlaceIsStable(o, sorted[1..], field, lower, tied);
      FilterCons(sorted[0], Place(o, sorted[1..], field, lower), tied);
    }
  }

  lemma TiesTie(field: OptionField, lower: string -> string, x: FilterOption, a: FilterOption, b: FilterOption)
    requires Ties(field, lower, x, a) && Ties(field, lower, x, b)
    ensures OptionLeq(field, lower, a, b)
  {
    OptionTransitive(field, lower, a, x, b);
  }

  lemma {:induction false} SortKeepsTied(os: seq<FilterOption>, field: OptionField, lower: string -> string,
                                         tied: FilterOption -> bool)
    requires forall a, b | tied(a) && tied(b) :: OptionLeq(field, lower, a, b)
    ensures Filter(SortOptions(os, field, lower), tied) == Filter(os, tied)
  {
    if os != [] {
      SortKeepsTied(os[1..], field, lower, tied);
      PlaceIsStable(os[0], SortOptions(os[1..], field, lower), field, lower, tied);
    }
  }

  lemma {:induction false} SortInOrder(os: seq<FilterOption>, field: OptionField, lower: string -> string)
    ensures InOrder(SortOptions(os, field, lower), field, lower)
  {
    if os != [] {
      SortInOrder(os[1..], field, lower);
      PlaceInOrder(os[0], SortOptions(os[1..], field, lower), field, lower);
    }
  }

  /** The listing is ordered, and a stable rearrangement of what was listed. */
  lemma SortIsStable(os: seq<FilterOption>, field: OptionField, lower: string -> string, x: FilterOption)
    ensures InOrder(SortOptions(os, field, lower), field, lower)
    ensures multiset(SortOptions(os, field, lower)) == multiset(os)
    ensures Filter(SortOptions(os, field, lower), y => Ties(field, lower, x, y))
            == Filter(os, y => Ties(field, lower, x, y))
  {
    SortKeeps(os, field, lower);
    SortInOrder(os, field, lower);
    forall a, b | Ties(field, lower, x, a) && Ties(field, lower, x, b) ensures OptionLeq(field, lower, a, b) {
      TiesTie(field, lower, x, a, b);
    }
    SortKeepsTied(os, field, lower, y => Ties(field, lower, x, y));
  }

  ghost predicate IsLeast(k: string, keys: set<string>) {
    k in keys && forall j | j in keys :: LexLeq(k, j)
  }

  lemma {:induction false} LeastExists(keys: set<string>)
    requires keys != {}
    ensures exists k :: IsLeast(k, keys)
  {
    var j :| j in keys;
    LexTotal(j, j);
    if keys == {j} {
      assert IsLeast(j, keys);
    } else {
      LeastExists(keys - {j});
      var k :| IsLeast(k, keys - {j});
      LexTotal(j, k);
      if LexLeq(k, j) {
        assert IsLeast(k, keys);
      } else {
        forall i | i in keys ensures LexLeq(j, i) {
          if i != j {
            LexTransitive(j, k, i);
          }
        }
        assert IsLeast(j, keys);
      }
    }
  }

  /** The values of a map in key order. */
  ghost function InKeyOrder(m: OptionMap, keys: set<string>): seq<FilterOption>
    requires keys <= m.Keys
  {
    if keys == {} then []
    else
      LeastExists(keys);
      var k :| IsLeast(k, keys);
      [m[k]] + InKeyOrder(m, keys - {k})
  }

  /** The options of a map as the response lists them. */
  ghost function Listing(m: OptionMap, field: OptionField, lower: string -> string): seq<FilterOption> {
    SortOptions(InKeyOrder(m, m.Keys), field, lower)
  }

  lemma {:induction false} PlaceKeeps(o: FilterOption, sorted: seq<FilterOption>, field: OptionField,
                                      lower: string -> string)
    ensures multiset(Place(o, sorted, field, lower)) == multiset(sorted) + multiset{o}
  {
    if sorted != [] {
      assert sorted == [sorted[0]] + sorted[1..];
      if !OptionLeq(field, lower, o, sorted[0]) {
        PlaceKeeps(o, sorted[1..], field, lower);
      }
    }
  }

  lemma {:induction false} SortKeeps(os: seq<FilterOption>, field: OptionField, lower: string -> string)
    ensures multiset(SortOptions(os, field, lower)) == multiset(os)
  {
    if os != [] {
      assert os == [os[0]] + os[1..];
      SortKeeps(os[1..], field, lower);
      PlaceKeeps(os[0], SortOptions(os[1..], field, lower), field, lower);
    }
  }

  lemma {:induction false} GroupCounts(os: seq<FilterOption>, lower: string -> string, key: string, o: FilterOption)
    ensures multiset(Group(os, lower, key))[o] == if lower(o.value) == key then multiset(os)[o] else 0
  {
    if os != [] {
      assert os == [os[0]] + os[1..];
      GroupCounts(os[1..], lower, key, o);
    }
  }

  lemma GroupOfRearranged(a: seq<FilterOption>, b: seq<FilterOption>, lower: string -> string, key: string)
    requires multiset(a) == multiset(b) && |Group(a, lower, key)| <= 1
    ensures Group(a, lower, key) == Group(b, lower, key)
  {
    var x, y := Group(a, lower, key), Group(b, lower, key);
    forall o ensures multiset(x)[o] == multiset(y)[o] {
      GroupCounts(a, lower, key, o);
      GroupCounts(b, lower, key, o);
    }
    assert multiset(x) == multiset(y);
    assert |x| == |multiset(x)| == |multiset(y)| == |y|;
    if |x| == 1 {
      assert x == [x[0]] && y == [y[0]];
      assert multiset(x)[x[0]] == 1;
      assert x[0] in multiset(y);
      assert x[0] in y;
    }
  }

  lemma {:induction false} KeyOrderGroups(m: OptionMap, keys: set<string>, lower: string -> string, key: string)
    requires keys <= m.Keys && forall k | k in m :: lower(m[k].value) == k
    ensures Group(InKeyOrder(m, keys), lower, key) == if key in keys then [m[key]] else []
  {
    if keys != {} {
      LeastExists(keys);
      var k :| IsLeast(k, keys) && InKeyOrder(m, keys) == [m[k]] + InKeyOrder(m, keys - {k});
      KeyOrderGroups(m, keys - {k}, lower, key);
      assert ([m[k]] + InKeyOrder(m, keys - {k}))[1..] == InKeyOrder(m, keys - {k});
    }
  }

  /** A listing holds each option of the map once. */
  lemma ListingGroups(m: OptionMap, field: OptionField, lower: string -> string, key: string)
    requires forall k | k in m :: lower(m[k].value) == k
    ensures Group(Listing(m, field, lower), lower, key) == if key in m then [m[key]] else []
  {
    var values := InKeyOrder(m, m.Keys);
    KeyOrderGroups(m, m.Keys, lower, key);
    SortKeeps(values, field, lower);
    GroupOfRearranged(values, Listing(m, field, lower), lower, key);
  }

  // ----- One target's dictionary against its Catalog -----

  /** The options a target's dictionary lists for a field. */
  ghost function DictionaryList(c: Catalog, field: OptionField, lower: string -> string): seq<FilterOption> {
    Listing(Summary(Contributions(c, field), lower), field, lower)
  }

  /** Filtering by a test that the folded key decides keeps or drops each group whole. */
  lemma {:induction false} FilterGroup(os: seq<FilterOption>, pass: FilterOption -> bool, lower: string -> string,
                                       key: string, keeps: bool)
    requires forall o | o in os && lower(o.value) == key :: pass(o) == keeps
    ensures Group(Filter(os, pass), lower, key) == if keeps then Group(os, lower, key) else []
  {
    if os != [] {
      var rest := Filter(os[1..], pass);
      FilterGroup(os[1..], pass, lower, key, keeps);
      if pass(os[0]) {
        assert ([os[0]] + rest)[1..] == rest;
      } else {
        assert [] + rest == rest;
      }
    }
  }

  /** For instructors the label of an option folds to the option's own key. */
  lemma InstructorLabel(c: Catalog, lower: string -> string, key: string)
    requires key in Summary(Contributions(c, Instructor), lower)
    ensures lower(Summary(Contributions(c, Instructor), lower)[key].caption) == key
  {
    var os := Contributions(c, Instructor);
    SummarySummarises(os, lower);
    var g := Group(os, lower, key);
    assert At(Summary(os, lower), key) == Gist(g);
    BestIsFirstLongest(g);
    assert g[FirstMax(Lengths(g))] in g;
  }

  lemma TargetAgrees(c: Catalog, field: OptionField, query: Option<string>, lower: string -> string)
    ensures SameGist(Filter(Contributions(c, field), o => Matches(field, query, lower, o)),
                     Filter(DictionaryList(c, field, lower), o => PreparedMatches(field, query, lower, o)), lower)
  {
    var a := Filter(Contributions(c, field), o => Matches(field, query, lower, o));
    var b := Filter(DictionaryList(c, field, lower), o => PreparedMatches(field, query, lower, o));
    forall key ensures Gist(Group(a, lower, key)) == Gist(Group(b, lower, key)) {
      KeyAgrees(c, field, query, lower, key);
    }
  }

  lemma KeyAgrees(c: Catalog, field: OptionField, query: Option<string>, lower: string -> string, key: string)
    ensures Gist(Group(Filter(Contributions(c, field), o => Matches(field, query, lower, o)), lower, key))
            == Gist(Group(Filter(DictionaryList(c, field, lower), o => PreparedMatches(field, query, lower, o)), lower,
                key))
  {
    var os, m, list := Contributions(c, field), Summary(Contributions(c, field), lower),
        DictionaryList(c, field, lower);
    var keeps := field == Instructor && query.Some? ==> Contains(key, lower(query.value));
    SummarySummarises(os, lower);
    SummaryKeys(m, os, lower);
    FilterGroup(os, o => Matches(field, query, lower, o), lower, key, keeps);
    ListingGroups(m, field, lower, key);
    forall o | o in list && lower(o.value) == key ensures PreparedMatches(field, query, lower, o) == keeps {
      InGroup(list, lower, key, o);
      if field == Instructor {
        InstructorLabel(c, lower, key);
      }
    }
    FilterGroup(list, o => PreparedMatches(field, query, lower, o), lower, key, keeps);
    assert At(m, key) == Gist(Group(os, lower, key));
  }

  lemma {:induction false} InGroup(os: seq<FilterOption>, lower: string -> string, key: string, o: FilterOption)
    requires o in os && lower(o.value) == key
    ensures o in Group(os, lower, key)
  {
    if o != os[0] {
      assert o in os[1..];
      InGroup(os[1..], lower, key, o);
    }
  }

  // ----- All targets -----

  ghost function DictionaryLists(catalogs: seq<Catalog>, field: OptionField,
                                 lower: string -> string): (r: seq<seq<FilterOption>>)
    ensures |r| == |catalogs| && forall i | 0 <= i < |r| :: r[i] == DictionaryList(catalogs[i], field, lower)
  {
    seq(|catalogs|, i requires 0 <= i < |catalogs| => DictionaryList(catalogs[i], field, lower))
  }

  lemma {:induction false} PilesAgree(catalogs: seq<Catalog>, field: OptionField, query: Option<string>,
                                      lower: string -> string)
    ensures SameGist(ReferencePile(catalogs, field, query, lower),
                     PreparedPile(DictionaryLists(catalogs, field, lower), field, query, lower), lower)
  {
    var lists := DictionaryLists(catalogs, field, lower);
    if catalogs != [] {
      var n := |catalogs| - 1;
      PilesAgree(catalogs[..n], field, query, lower);
      TargetAgrees(catalogs[n], field, query, lower);
      assert lists[..n] == DictionaryLists(catalogs[..n], field, lower);
      SameGistConcat(ReferencePile(catalogs[..n], field, query, lower),
                     Filter(Contributions(catalogs[n], field), o => Matches(field, query, lower, o)),
                     PreparedPile(lists[..n], field, query, lower),
                     Filter(lists[n], o => PreparedMatches(field, query, lower, o)), lower);
    }
  }

  /** The merged dictionaries give the very map the one-pass reference gives. */
  lemma OptionMapsAgree(catalogs: seq<Catalog>, field: OptionField, query: Option<string>, lower: string -> string)
    ensures Summary(ReferencePile(catalogs, field, query, lower), lower)
            == Summary(PreparedPile(DictionaryLists(catalogs, field, lower), field, query, lower), lower)
  {
    var a, b := ReferencePile(catalogs, field, query, lower),
        PreparedPile(DictionaryLists(catalogs, field, lower), field, query, lower);
    PilesAgree(catalogs, field, query, lower);
    SummarySummarises(a, lower);
    SummarySummarises(b, lower);
    SummaryUnique(Summary(a, lower), Summary(b, lower), a, b, lower);
  }

  // ----- Responses -----

  datatype Response = Response(options: seq<FilterOption>, truncated: bool)

  /** Bands are never truncated; everything else is cut at the limit, and says so. */
  ghost function Answer(m: OptionMap, field: OptionField, limit: nat, lower: string -> string): Response {
    var list := Listing(m, field, lower);
    var cut := if field == CourseNumberBand then USIZE_MAX else limit;
    Response(if |list| > cut then list[..cut] else list, |list| > cut)
  }

  /** The prepared answer is the reference answer, for every list of Catalogs, field, query and limit. */
  lemma AnswersAgree(catalogs: seq<Catalog>, field: OptionField, query: Option<string>, limit: nat,
                     lower: string -> string)
    ensures Answer(Summary(ReferencePile(catalogs, field, query, lower), lower), field, limit, lower)
            == Answer(Summary(PreparedPile(DictionaryLists(catalogs, field, lower), field, query, lower), lower),
                field, limit, lower)
  {
    OptionMapsAgree(catalogs, field, query, lower);
  }
}
