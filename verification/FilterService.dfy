/**
  Both filter-option paths as they run: loops that insert into an option map, listings sorted out of
  it, dictionaries built per target in advance, and the shared request checks.
 */
module FilterService {
  import opened Common
  import opened Canonical
  import opened CanonicalOrder
  import opened FilterCatalog
  import opened FilterSummary
  import opened FilterOptions
  import opened FilterRecords
  import opened FilterAnswers
  import opened SortedLists

  /** Inserts the contributions of one list that pass, after whatever is in the map already. */
  method InsertAll(start: OptionMap, os: seq<FilterOption>, pass: FilterOption -> bool, ghost before: seq<FilterOption>,
                   lower: string -> string)
    returns (m: OptionMap)
    requires start == Summary(before, lower)
    ensures m == Summary(before + Filter(os, pass), lower)
  {
    m := start;
    ghost var pile := before;
    assert os[..0] == [] && before + Filter([], pass) == before;
    for j := 0 to |os|
      invariant pile == before + Filter(os[..j], pass) && m == Summary(pile, lower)
    {
      FilterStep(os, j, pass, before);
      if pass(os[j]) {
        SummaryAppend(pile, os[j], lower);
        m, pile := InsertOption(m, os[j], lower), pile + [os[j]];
      }
    }
    assert os[..|os|] == os;
  }

  lemma FilterStep(os: seq<FilterOption>, j: nat, pass: FilterOption -> bool, before: seq<FilterOption>)
    requires j < |os|
    ensures before + Filter(os[..j + 1], pass) == before + Filter(os[..j], pass) + if pass(os[j]) then [os[j]] else []
  {
    assert os[..j + 1] == os[..j] + [os[j]];
    FilterAppend(os[..j], os[j], pass);
  }

  /** One pass over all Catalogs. */
  method CollectCatalogOptions(catalogs: seq<Catalog>, field: OptionField, query: Option<string>,
                               lower: string -> string)
    returns (m: OptionMap)
    ensures m == Summary(ReferencePile(catalogs, field, query, lower), lower)
    ensures Describes(m, Records(catalogs, field), Offering(field, query, lower), lower)
  {
    m := map[];
    for i := 0 to |catalogs|
      invariant m == Summary(ReferencePile(catalogs[..i], field, query, lower), lower)
    {
      assert catalogs[..i + 1][..i] == catalogs[..i];
      m := InsertAll(m, Contributions(catalogs[i], field), o => Matches(field, query, lower, o),
                     ReferencePile(catalogs[..i], field, query, lower), lower);
    }
    assert catalogs[..|catalogs|] == catalogs;
    CollectedDescribes(catalogs, field, query, lower);
  }

  /** Merges the options listed for each target. */
  method MergePrepared(lists: seq<seq<FilterOption>>, field: OptionField, query: Option<string>,
                       lower: string -> string)
    returns (m: OptionMap)
    ensures m == Summary(PreparedPile(lists, field, query, lower), lower)
  {
    m := map[];
    for i := 0 to |lists|
      invariant m == Summary(PreparedPile(lists[..i], field, query, lower), lower)
    {
      assert lists[..i + 1][..i] == lists[..i];
      m := InsertAll(m, lists[i], o => PreparedMatches(field, query, lower, o),
                     PreparedPile(lists[..i], field, query, lower), lower);
    }
    assert lists[..|lists|] == lists;
  }

  method LeastKey(keys: set<string>) returns (k: string)
    requires keys != {}
    ensures IsLeast(k, keys)
  {
    k :| k in keys;
    var rest := keys - {k};
    LexTotal(k, k);
    while rest != {}
      invariant k in keys && rest <= keys
      invariant forall j | j in keys && j !in rest :: LexLeq(k, j)
      decreases |rest|
    {
      var j :| j in rest;
      LexTotal(j, k);
      LexTotal(j, j);
      if !LexLeq(k, j) {
        forall i | i in keys && i !in rest ensures LexLeq(j, i) {
          LexTransitive(j, k, i);
        }
        k := j;
      }
      rest := rest - {j};
    }
  }

  lemma LeastUnique(j: string, k: string, keys: set<string>)
    requires IsLeast(j, keys) && IsLeast(k, keys)
    ensures j == k
  {
    LexAntisymmetric(j, k);
  }

  /** Walks the map in key order and sorts what it finds. */
  method ListOptions(m: OptionMap, field: OptionField, lower: string -> string) returns (list: seq<FilterOption>)
    ensures list == Listing(m, field, lower) && InOrder(list, field, lower)
  {
    var values: seq<FilterOption>, rest := [], m.Keys;
    while rest != {}
      invariant rest <= m.Keys && InKeyOrder(m, m.Keys) == values + InKeyOrder(m, rest)
      decreases |rest|
    {
      var k := LeastKey(rest);
      ghost var j :| IsLeast(j, rest) && InKeyOrder(m, rest) == [m[j]] + InKeyOrder(m, rest - {j});
      LeastUnique(j, k, rest);
      values, rest := values + [m[k]], rest - {k};
    }
    assert values + [] == values;
    list := SortOptions(values, field, lower);
    SortInOrder(values, field, lower);
  }

  method ListField(c: Catalog, field: OptionField, lower: string -> string) returns (list: seq<FilterOption>)
    ensures list == DictionaryList(c, field, lower)
    ensures exists m ::
              Describes(m, Records([c], field), Offering(field, None, lower), lower) && Lists(list, m, field, lower)
  {
    var m := CollectCatalogOptions([c], field, None, lower);
    WholeCatalog(c, field, lower);
    list := ListOptions(m, field, lower);
    ListingLists(m, Records([c], field), field, None, lower);
  }

  /** A target's dictionary: every field's options, listed. */
  method BuildDictionary(c: Catalog, lower: string -> string) returns (d: map<OptionField, seq<FilterOption>>)
    ensures forall field :: field in d && d[field] == DictionaryList(c, field, lower)
  {
    d := map[];
    var rest := {CourseNumberBand, CourseLevel, Instructor, MeetingLocation, ExamCode};
    forall field: OptionField ensures field in rest {
      assert field in {CourseNumberBand, CourseLevel, Instructor, MeetingLocation, ExamCode} by {
        match field
        case CourseNumberBand => case CourseLevel => case Instructor => case MeetingLocation => case ExamCode =>
      }
    }
    while rest != {}
      invariant forall field :: field in rest || (field in d && d[field] == DictionaryList(c, field, lower))
      decreases |rest|
    {
      var field :| field in rest;
      var list := ListField(c, field, lower);
      d, rest := d[field := list], rest - {field};
    }
  }

  lemma {:induction false} FilterAll(os: seq<FilterOption>, pass: FilterOption -> bool)
    requires forall o | o in os :: pass(o)
    ensures Filter(os, pass) == os
  {
    if os != [] {
      FilterAll(os[1..], pass);
      assert os == [os[0]] + os[1..];
    }
  }

  lemma WholeCatalog(c: Catalog, field: OptionField, lower: string -> string)
    ensures ReferencePile([c], field, None, lower) == Contributions(c, field)
  {
    assert [c][..0] == [];
    FilterAll(Contributions(c, field), o => Matches(field, None, lower, o));
  }

  // ----- Requests -----

  predicate KeyLeq(a: TermCampusKey, b: TermCampusKey) {
    if a.term == b.term then LexLeq(a.campus, b.campus) else LexLeq(a.term, b.term)
  }

  function PlaceKey(t: TermCampusKey, sorted: seq<TermCampusKey>): (r: seq<TermCampusKey>)
    ensures forall u :: u in r <==> u == t || u in sorted
  {
    if sorted == [] then [t]
    else if KeyLeq(t, sorted[0]) then [t] + sorted
    else [sorted[0]] + PlaceKey(t, sorted[1..])
  }

  /** The targets in order, refusing an empty list and the first repetition. */
  function CanonicalTargets(targets: seq<TermCampusKey>): (r: Result<seq<TermCampusKey>, QueryError>)
    ensures r == Err(EmptyTargetSet) <==> targets == []
    ensures r.Ok? ==> forall t :: t in r.value <==> t in targets
    ensures r.Ok? <==> targets != [] && forall i, j | 0 <= i < j < |targets| :: targets[i] != targets[j]
    ensures r.Err? ==> r.error == EmptyTargetSet || (r.error.DuplicateTarget? && r.error.target in targets)
  {
    if targets == [] then Err(EmptyTargetSet)
    else
      var n := |targets| - 1;
      assert targets == targets[..n] + [targets[n]];
      if n == 0 then Ok([targets[0]])
      else
        var before := CanonicalTargets(targets[..n]);
        if before.Err? then before
        else if targets[n] in before.value then
          assert exists i | 0 <= i < n :: targets[i] == targets[n];
          Err(DuplicateTarget(targets[n]))
        else Ok(PlaceKey(targets[n], before.value))
  }

  predicate Distinct(targets: seq<TermCampusKey>) {
    forall i, j | 0 <= i < j < |targets| :: targets[i] != targets[j]
  }

  /** `targets[j]` is the first target that occurs a second time. */
  predicate FirstRepeated(targets: seq<TermCampusKey>, j: nat) {
    j < |targets| && targets[j] in targets[..j] && Distinct(targets[..j])
  }

  /** A duplicate error names the first repetition, and there is one exactly when the list has repetitions. */
  lemma {:induction false} DuplicateIsFirst(targets: seq<TermCampusKey>, j: nat)
    requires FirstRepeated(targets, j)
    ensures CanonicalTargets(targets) == Err(DuplicateTarget(targets[j]))
  {
    var n := |targets| - 1;
    if j == n {
      assert CanonicalTargets(targets[..n]).Ok?;
    } else {
      assert targets[..n][..j] == targets[..j];
      DuplicateIsFirst(targets[..n], j);
    }
  }

  predicate KeysSorted(ts: seq<TermCampusKey>) {
    forall i, j | 0 <= i < j < |ts| :: KeyLeq(ts[i], ts[j])
  }

  lemma {:induction false} PlaceKeySorted(t: TermCampusKey, sorted: seq<TermCampusKey>)
    requires KeysSorted(sorted)
    ensures KeysSorted(PlaceKey(t, sorted))
  {
    if sorted != [] {
      var r := PlaceKey(t, sorted);
      if KeyLeq(t, sorted[0]) {
        forall i, j | 0 <= i < j < |r| ensures KeyLeq(r[i], r[j]) {
          if i == 0 {
            KeyTransitive(t, sorted[0], r[j]);
          }
        }
      } else {
        KeyTotal(t, sorted[0]);
        PlaceKeySorted(t, sorted[1..]);
        forall j | 0 < j < |r| ensures KeyLeq(r[0], r[j]) {
          assert r[j] in PlaceKey(t, sorted[1..]);
        }
      }
    }
  }

  lemma KeyTotal(a: TermCampusKey, b: TermCampusKey)
    ensures KeyLeq(a, b) || KeyLeq(b, a)
  {
    LexTotal(a.campus, b.campus);
    LexTotal(a.term, b.term);
  }

  lemma KeyTransitive(a: TermCampusKey, b: TermCampusKey, c: TermCampusKey)
    requires KeyLeq(a, b) && (KeyLeq(b, c) || b == c)
    ensures KeyLeq(a, c)
  {
    if b != c {
      if a.term == b.term == c.term {
        LexTransitive(a.campus, b.campus, c.campus);
      } else if a.term != b.term && b.term != c.term {
        LexTransitive(a.term, b.term, c.term);
        if a.term == c.term {
          LexAntisymmetric(a.term, b.term);
        }
      }
    }
  }

  /** The accepted targets come back in order. */
  lemma {:induction false} CanonicalTargetsSorted(targets: seq<TermCampusKey>)
    requires CanonicalTargets(targets).Ok?
    ensures KeysSorted(CanonicalTargets(targets).value)
  {
    var n := |targets| - 1;
    if n > 0 {
      CanonicalTargetsSorted(targets[..n]);
      PlaceKeySorted(targets[n], CanonicalTargets(targets[..n]).value);
    }
  }

  function FirstMissing(targets: seq<TermCampusKey>, known: set<TermCampusKey>): (r: Option<TermCampusKey>)
    ensures r.None? <==> forall t | t in targets :: t in known
    ensures r.Some? ==> r.value in targets && r.value !in known
  {
    if targets == [] then None
    else if targets[0] !in known then Some(targets[0])
    else FirstMissing(targets[1..], known)
  }

  function Select<T>(from: map<TermCampusKey, T>, targets: seq<TermCampusKey>): (r: seq<T>)
    requires forall t | t in targets :: t in from
    ensures |r| == |targets| && forall i | 0 <= i < |r| :: r[i] == from[targets[i]]
  {
    seq(|targets|, i requires 0 <= i < |targets| => from[targets[i]])
  }

  type Dictionary = map<OptionField, seq<FilterOption>>

  /** A published Catalog has a content version; zero is the version of a target never published. */
  type ContentVersion = n: nat | 0 < n witness 1

  /** A published Catalog under its content version. */
  datatype Published = Published(version: ContentVersion, catalog: Catalog)

  function Catalogs(ps: seq<Published>): (r: seq<Catalog>)
    ensures |r| == |ps| && forall i | 0 <= i < |r| :: r[i] == ps[i].catalog
  {
    seq(|ps|, i requires 0 <= i < |ps| => ps[i].catalog)
  }

  function Versions(ps: seq<Published>): (r: seq<nat>)
    ensures |r| == |ps| && forall i | 0 <= i < |r| :: r[i] == ps[i].version
  {
    seq(|ps|, i requires 0 <= i < |ps| => ps[i].version)
  }

  /** An answer and the versions, target by target, that it was read from. */
  datatype Answered = Answered(response: Response, versions: seq<nat>)

  /** The targets both paths go on with, or the request error both give. */
  function Accepted(requested: seq<TermCampusKey>, targets: seq<TermCampusKey>)
    : Result<seq<TermCampusKey>, QueryError>
  {
    match CanonicalTargets(targets)
    case Err(e) => Err(e)
    case Ok(ts) => if ts != requested then Err(FilterCampusSetMismatch) else Ok(ts)
  }

  // ----- What a request is refused for -----

  /** The targets, each once, by term and then by campus. */
  ghost predicate Arranged(requested: seq<TermCampusKey>, targets: seq<TermCampusKey>) {
    && (forall t :: t in requested <==> t in targets)
    && forall i, j | 0 <= i < j < |requested| ::
         var a, b := requested[i], requested[j];
         if a.term == b.term then a.campus != b.campus && LexLeq(a.campus, b.campus) else LexLeq(a.term, b.term)
  }

  predicate Precedes(a: TermCampusKey, b: TermCampusKey) {
    a != b && KeyLeq(a, b)
  }

  lemma PrecedesIsStrict()
    ensures StrictOrder(Precedes)
  {
    forall a, b ensures a == b || Precedes(a, b) || Precedes(b, a) {
      KeyTotal(a, b);
    }
    forall a, b | Precedes(a, b) ensures a != b && !Precedes(b, a) {
      KeyAntisymmetric(a, b);
    }
    forall a, b, c | Precedes(a, b) && Precedes(b, c) ensures Precedes(a, c) {
      KeyTransitive(a, b, c);
      if a == c {
        KeyAntisymmetric(a, b);
      }
    }
  }

  lemma KeyAntisymmetric(a: TermCampusKey, b: TermCampusKey)
    requires KeyLeq(a, b) && a != b
    ensures !KeyLeq(b, a)
  {
    if KeyLeq(b, a) {
      if a.term == b.term {
        LexAntisymmetric(a.campus, b.campus);
      } else {
        LexAntisymmetric(a.term, b.term);
      }
    }
  }

  lemma {:induction false} ArrangedOrdered(ts: seq<TermCampusKey>)
    ensures Ordered(ts, Precedes) <==> forall i, j | 0 <= i < j < |ts| :: Precedes(ts[i], ts[j])
  {
    if ts != [] {
      var rest := ts[1..];
      ArrangedOrdered(rest);
      if Ordered(ts, Precedes) {
        forall i, j | 0 <= i < j < |ts| ensures Precedes(ts[i], ts[j]) {
          assert ts[j] == rest[j - 1] && rest[j - 1] in rest;
          assert i > 0 ==> Precedes(rest[i - 1], rest[j - 1]);
        }
      }
      if forall i, j | 0 <= i < j < |ts| :: Precedes(ts[i], ts[j]) {
        assert forall i, j | 0 <= i < j < |rest| :: rest[i] == ts[i + 1] && rest[j] == ts[j + 1];
      }
    }
  }

  /** Only one list arranges some targets. */
  lemma ArrangedUnique(a: seq<TermCampusKey>, b: seq<TermCampusKey>, targets: seq<TermCampusKey>)
    requires Arranged(a, targets) && Arranged(b, targets)
    ensures a == b
  {
    PrecedesIsStrict();
    ArrangedOrdered(a);
    ArrangedOrdered(b);
    OrderedUnique(a, b, Precedes);
  }

  lemma {:induction false} CanonicalDistinct(targets: seq<TermCampusKey>)
    requires CanonicalTargets(targets).Ok?
    ensures var ts := CanonicalTargets(targets).value; forall i, j | 0 <= i < j < |ts| :: ts[i] != ts[j]
  {
    var n := |targets| - 1;
    if n > 0 {
      var before := CanonicalTargets(targets[..n]).value;
      CanonicalDistinct(targets[..n]);
      PlaceDistinct(targets[n], before);
      assert CanonicalTargets(targets).value == PlaceKey(targets[n], before);
    }
  }

  lemma {:induction false} PlaceDistinct(t: TermCampusKey, sorted: seq<TermCampusKey>)
    requires t !in sorted && forall i, j | 0 <= i < j < |sorted| :: sorted[i] != sorted[j]
    ensures var r := PlaceKey(t, sorted); forall i, j | 0 <= i < j < |r| :: r[i] != r[j]
  {
    if sorted != [] {
      var r, rest := PlaceKey(t, sorted), sorted[1..];
      assert forall j | 0 <= j < |rest| :: rest[j] == sorted[j + 1];
      if KeyLeq(t, sorted[0]) {
        assert r[1..] == sorted;
        assert forall j | 0 < j < |r| :: r[j] == sorted[j - 1] && r[j] in sorted;
      } else {
        PlaceDistinct(t, rest);
        assert r[1..] == PlaceKey(t, rest) && sorted[0] !in r[1..];
        assert forall j | 0 < j < |r| :: r[j] == r[1..][j - 1];
      }
    }
  }

  lemma CanonicalArranges(targets: seq<TermCampusKey>)
    requires CanonicalTargets(targets).Ok?
    ensures Arranged(CanonicalTargets(targets).value, targets)
  {
    CanonicalTargetsSorted(targets);
    CanonicalDistinct(targets);
  }

  /** A request is accepted exactly when it lists its distinct targets, of which there are some, in order. */
  lemma AcceptedMeans(requested: seq<TermCampusKey>, targets: seq<TermCampusKey>)
    ensures Accepted(requested, targets).Ok? <==> targets != [] && Distinct(targets) && Arranged(requested, targets)
    ensures Accepted(requested, targets).Ok? ==> Accepted(requested, targets).value == requested
    ensures Accepted(requested, targets) == Err(FilterCampusSetMismatch) <==>
              targets != [] && Distinct(targets) && !Arranged(requested, targets)
  {
    if CanonicalTargets(targets).Ok? {
      var ts := CanonicalTargets(targets).value;
      CanonicalArranges(targets);
      if Arranged(requested, targets) {
        ArrangedUnique(requested, ts, targets);
      }
    }
  }

  /** The content version the store has for a target; a zero says that nothing is published. */
  function CurrentVersion(current: map<TermCampusKey, nat>, t: TermCampusKey): Option<nat> {
    if t in current && current[t] != 0 then Some(current[t]) else None
  }

  /** The first target whose version the store no longer has. */
  function FirstMoved(ts: seq<TermCampusKey>, ps: seq<Published>, current: map<TermCampusKey, nat>): (r: Option<nat>)
    requires |ps| == |ts|
    ensures r.None? <==> forall i | 0 <= i < |ts| :: CurrentVersion(current, ts[i]) == Some(ps[i].version)
    ensures r.Some? ==> r.value < |ts| && CurrentVersion(current, ts[r.value]) != Some(ps[r.value].version)
    ensures r.Some? ==> forall i | 0 <= i < r.value :: CurrentVersion(current, ts[i]) == Some(ps[i].version)
  {
    if ts == [] then None
    else if CurrentVersion(current, ts[0]) != Some(ps[0].version) then Some(0)
    else
      var rest := FirstMoved(ts[1..], ps[1..], current);
      if rest.None? then None else Some(rest.value + 1)
  }

  /** The response the Catalogs of some targets give. */
  ghost function ResponseOf(ps: seq<Published>, field: OptionField, query: Option<string>, limit: nat,
                            lower: string -> string): Response
  {
    Answer(Summary(ReferencePile(Catalogs(ps), field, query, lower), lower), field, limit, lower)
  }

  /** Nothing stands against the request itself. */
  ghost predicate WellFormed(requested: seq<TermCampusKey>, targets: seq<TermCampusKey>) {
    targets != [] && Distinct(targets) && Arranged(requested, targets)
  }

  /** The first requested target that is not published. */
  ghost predicate FirstUnpublished(requested: seq<TermCampusKey>, i: nat, published: map<TermCampusKey, Published>) {
    i < |requested| && requested[i] !in published && forall j | 0 <= j < i :: requested[j] in published
  }

  /** The store has the version that was published. */
  ghost predicate Unchanged(t: TermCampusKey, published: map<TermCampusKey, Published>,
                            current: map<TermCampusKey, nat>)
  {
    t in published && t in current && current[t] == published[t].version
  }

  /** The first requested target whose version the store no longer has. */
  ghost predicate FirstChanged(requested: seq<TermCampusKey>, i: nat, published: map<TermCampusKey, Published>,
                               current: map<TermCampusKey, nat>)
  {
    && i < |requested| && !Unchanged(requested[i], published, current)
    && forall j | 0 <= j < i :: Unchanged(requested[j], published, current)
  }

  /** Exactly what each error of the reference path says of a request and the store. */
  ghost predicate Refuses(e: QueryError, published: map<TermCampusKey, Published>, current: map<TermCampusKey, nat>,
                          requested: seq<TermCampusKey>, targets: seq<TermCampusKey>)
  {
    match e
    case EmptyTargetSet => targets == []
    case DuplicateTarget(t) => exists j: nat | FirstRepeated(targets, j) :: targets[j] == t
    case FilterCampusSetMismatch => targets != [] && Distinct(targets) && !Arranged(requested, targets)
    case TargetNotPublished(t) =>
      && WellFormed(requested, targets)
      && exists i: nat | FirstUnpublished(requested, i, published) :: requested[i] == t
    case PublicationChanged(t, expected, now) =>
      && WellFormed(requested, targets) && (forall u | u in requested :: u in published)
      && exists i: nat | FirstChanged(requested, i, published, current) ::
           && requested[i] == t && expected == published[t].version
           && now == if t in current && current[t] > 0 then Some(current[t]) else None
    case TargetNotPrepared(_) => false
  }

  /** What the reference path refuses a request with, if anything; the store is looked at again at the end. */
  function Refusal(published: map<TermCampusKey, Published>, current: map<TermCampusKey, nat>,
                   requested: seq<TermCampusKey>, targets: seq<TermCampusKey>): (r: Option<QueryError>)
    ensures r.None? ==> forall t | t in requested :: t in published
  {
    match Accepted(requested, targets)
    case Err(e) => Some(e)
    case Ok(ts) =>
      match FirstMissing(ts, published.Keys)
      case Some(t) => Some(TargetNotPublished(t))
      case None =>
        var ps := Select(published, ts);
        match FirstMoved(ts, ps, current)
        case Some(i) => Some(PublicationChanged(ts[i], ps[i].version, CurrentVersion(current, ts[i])))
        case None => None
  }

  /** What the reference path answers from the Catalogs it loads. */
  ghost function ReferenceAnswer(published: map<TermCampusKey, Published>, current: map<TermCampusKey, nat>,
                                 requested: seq<TermCampusKey>, targets: seq<TermCampusKey>, field: OptionField,
                                 query: Option<string>, limit: nat, lower: string -> string)
    : Result<Answered, QueryError>
  {
    match Refusal(published, current, requested, targets)
    case Some(e) => Err(e)
    case None =>
      var ps := Select(published, requested);
      Ok(Answered(ResponseOf(ps, field, query, limit, lower), Versions(ps)))
  }

  lemma {:induction false} RepeatedExists(targets: seq<TermCampusKey>) returns (j: nat)
    requires !Distinct(targets)
    ensures FirstRepeated(targets, j)
  {
    var n := |targets| - 1;
    if Distinct(targets[..n]) {
      j := n;
      forall x, y | 0 <= x < y < n ensures targets[x] != targets[y] {
        assert targets[..n][x] != targets[..n][y];
      }
      var a, b :| 0 <= a < b < |targets| && targets[a] == targets[b];
      assert targets[..n][a] == targets[n];
    } else {
      j := RepeatedExists(targets[..n]);
      assert targets[..n][..j] == targets[..j];
    }
  }

  lemma DuplicateMeans(requested: seq<TermCampusKey>, targets: seq<TermCampusKey>, t: TermCampusKey)
    ensures Accepted(requested, targets) == Err(DuplicateTarget(t)) <==>
              exists j: nat | FirstRepeated(targets, j) :: targets[j] == t
  {
    if Accepted(requested, targets) == Err(DuplicateTarget(t)) {
      var j := RepeatedExists(targets);
      DuplicateIsFirst(targets, j);
    }
    if j: nat :| FirstRepeated(targets, j) && targets[j] == t {
      DuplicateIsFirst(targets, j);
    }
  }

  lemma {:induction false} FirstMissingIs(ts: seq<TermCampusKey>, published: map<TermCampusKey, Published>)
    returns (i: nat)
    requires FirstMissing(ts, published.Keys).Some?
    ensures FirstUnpublished(ts, i, published) && ts[i] == FirstMissing(ts, published.Keys).value
  {
    i := 0;
    if ts[0] in published {
      i := FirstMissingIs(ts[1..], published);
      i := i + 1;
    }
  }

  lemma MissingMeans(ts: seq<TermCampusKey>, published: map<TermCampusKey, Published>, t: TermCampusKey)
    ensures FirstMissing(ts, published.Keys) == Some(t) <==>
              exists i: nat | FirstUnpublished(ts, i, published) :: ts[i] == t
  {
    if FirstMissing(ts, published.Keys).Some? {
      var i := FirstMissingIs(ts, published);
      assert forall k: nat | FirstUnpublished(ts, k, published) :: k == i;
    } else {
      assert forall i | 0 <= i < |ts| :: ts[i] in ts && ts[i] in published;
    }
  }

  lemma MovedMeans(ts: seq<TermCampusKey>, published: map<TermCampusKey, Published>, current: map<TermCampusKey, nat>,
                   i: nat)
    requires forall t | t in ts :: t in published
    ensures FirstMoved(ts, Select(published, ts), current) == Some(i) <==> FirstChanged(ts, i, published, current)
  {
    var ps := Select(published, ts);
    forall k | 0 <= k < |ts|
      ensures CurrentVersion(current, ts[k]) == Some(ps[k].version) <==> Unchanged(ts[k], published, current)
    {
      assert ts[k] in ts && ps[k] == published[ts[k]];
    }
  }

  lemma ChangeMeans(e: QueryError, published: map<TermCampusKey, Published>, current: map<TermCampusKey, nat>,
                    requested: seq<TermCampusKey>, targets: seq<TermCampusKey>)
    requires e.PublicationChanged? && WellFormed(requested, targets) && forall u | u in requested :: u in published
    ensures Refusal(published, current, requested, targets) == Some(e) <==>
              Refuses(e, published, current, requested, targets)
  {
    AcceptedMeans(requested, targets);
    var ps := Select(published, requested);
    var moved := FirstMoved(requested, ps, current);
    forall i: nat ensures moved == Some(i) <==> FirstChanged(requested, i, published, current) {
      MovedMeans(requested, published, current, i);
    }
    if moved.Some? {
      assert ps[moved.value] == published[requested[moved.value]];
    }
  }

  /** A request is refused with an error exactly when the error is true of it. */
  lemma RefusalMeans(e: QueryError, published: map<TermCampusKey, Published>, current: map<TermCampusKey, nat>,
                     requested: seq<TermCampusKey>, targets: seq<TermCampusKey>)
    ensures Refusal(published, current, requested, targets) == Some(e) <==>
              Refuses(e, published, current, requested, targets)
  {
    AcceptedMeans(requested, targets);
    match e
    case EmptyTargetSet =>
    case DuplicateTarget(t) => DuplicateMeans(requested, targets, t);
    case FilterCampusSetMismatch =>
    case TargetNotPublished(t) => MissingMeans(requested, published, t);
    case PublicationChanged(_, _, _) =>
      if WellFormed(requested, targets) && forall u | u in requested :: u in published {
        ChangeMeans(e, published, current, requested, targets);
      }
    case TargetNotPrepared(_) =>
  }

  /** A request is answered exactly when it is in order and the store still has what was published. */
  lemma AnsweredMeans(published: map<TermCampusKey, Published>, current: map<TermCampusKey, nat>,
                      requested: seq<TermCampusKey>, targets: seq<TermCampusKey>)
    ensures Refusal(published, current, requested, targets).None? <==>
              WellFormed(requested, targets) && forall t | t in requested :: Unchanged(t, published, current)
  {
    AcceptedMeans(requested, targets);
    if WellFormed(requested, targets) && forall t | t in requested :: t in published {
      MovedIffDiffers(published, current, requested);
    }
  }

  /** The versions of a store that holds still. */
  function Still(published: map<TermCampusKey, Published>): map<TermCampusKey, nat> {
    map t | t in published :: published[t].version
  }

  method CutList(list: seq<FilterOption>, field: OptionField, limit: nat) returns (r: Response)
    ensures var cut := if field == CourseNumberBand then USIZE_MAX else limit;
            r == Response(if |list| > cut then list[..cut] else list, |list| > cut)
  {
    var cut := if field == CourseNumberBand then USIZE_MAX else limit;
    var truncated := |list| > cut;
    r := Response(if truncated then list[..cut] else list, truncated);
  }

  method ReferenceResponse(ps: seq<Published>, field: OptionField, query: Option<string>, limit: nat,
                           lower: string -> string)
    returns (response: Response)
    ensures response == ResponseOf(ps, field, query, limit, lower)
  {
    var m := CollectCatalogOptions(Catalogs(ps), field, query, lower);
    var list := ListOptions(m, field, lower);
    response := CutList(list, field, limit);
  }

  method PreparedResponse(lists: seq<seq<FilterOption>>, ghost ps: seq<Published>, field: OptionField,
                          query: Option<string>,
                          limit: nat, lower: string -> string)
    returns (response: Response)
    requires lists == DictionaryLists(Catalogs(ps), field, lower)
    ensures response == ResponseOf(ps, field, query, limit, lower)
  {
    AnswersAgree(Catalogs(ps), field, query, limit, lower);
    var m := MergePrepared(lists, field, query, lower);
    var list := ListOptions(m, field, lower);
    response := CutList(list, field, limit);
  }

  lemma DictionariesList(dictionaries: map<TermCampusKey, Dictionary>, published: map<TermCampusKey, Published>,
                         ts: seq<TermCampusKey>, field: OptionField, lower: string -> string)
    requires DictionariesOf(dictionaries, published, lower) && forall t | t in ts :: t in published
    ensures ListsOf(dictionaries, ts, field) == DictionaryLists(Catalogs(Select(published, ts)), field, lower)
  {
  }

  lemma StillIsUnmoved(published: map<TermCampusKey, Published>, ts: seq<TermCampusKey>)
    requires forall t | t in ts :: t in published
    ensures FirstMoved(ts, Select(published, ts), Still(published)).None?
  {
  }

  lemma RefusedOrAnswered(published: map<TermCampusKey, Published>, current: map<TermCampusKey, nat>,
                          requested: seq<TermCampusKey>, targets: seq<TermCampusKey>, field: OptionField,
                          query: Option<string>, limit: nat, lower: string -> string)
    ensures var r := ReferenceAnswer(published, current, requested, targets, field, query, limit, lower);
            && (r.Ok? <==>
                  WellFormed(requested, targets) && forall t | t in requested :: Unchanged(t, published, current))
            && (r.Err? ==> Refuses(r.error, published, current, requested, targets))
            && (r.Ok? ==>
                  var ps := Select(published, requested);
                  && r.value.versions == Versions(ps)
                  && Answers(r.value.response, Catalogs(ps), field, query, limit, lower))
  {
    AnsweredMeans(published, current, requested, targets);
    var refusal := Refusal(published, current, requested, targets);
    if refusal.Some? {
      RefusalMeans(refusal.value, published, current, requested, targets);
    } else {
      AnswerAnswers(Catalogs(Select(published, requested)), field, query, limit, lower);
    }
  }

  method ReferenceFilterOptions(published: map<TermCampusKey, Published>, current: map<TermCampusKey, nat>,
                                requested: seq<TermCampusKey>, targets: seq<TermCampusKey>, field: OptionField,
                                query: Option<string>, limit: nat, lower: string -> string)
    returns (r: Result<Answered, QueryError>)
    ensures r == ReferenceAnswer(published, current, requested, targets, field, query, limit, lower)
    ensures r.Ok? <==> WellFormed(requested, targets) && forall t | t in requested :: Unchanged(t, published, current)
    ensures r.Err? ==> Refuses(r.error, published, current, requested, targets)
    ensures r.Ok? ==>
              var ps := Select(published, requested);
              r.value.versions == Versions(ps) && Answers(r.value.response, Catalogs(ps), field, query, limit, lower)
  {
    RefusedOrAnswered(published, current, requested, targets, field, query, limit, lower);
    var accepted := Accepted(requested, targets);
    if accepted.Err? {
      return Err(accepted.error);
    }
    var ts := accepted.value;
    var missing := FirstMissing(ts, published.Keys);
    if missing.Some? {
      return Err(TargetNotPublished(missing.value));
    }
    var ps := Select(published, ts);
    var response := ReferenceResponse(ps, field, query, limit, lower);
    var moved := FirstMoved(ts, ps, current);
    if moved.Some? {
      return Err(PublicationChanged(ts[moved.value], ps[moved.value].version,
          CurrentVersion(current, ts[moved.value])));
    }
    r := Ok(Answered(response, Versions(ps)));
  }

  /** Dictionaries are of the Catalogs when they list every field of every Catalog. */
  ghost predicate DictionariesOf(dictionaries: map<TermCampusKey, Dictionary>, published: map<TermCampusKey, Published>,
                                 lower: string -> string)
  {
    && dictionaries.Keys == published.Keys
    && forall t, f | t in dictionaries ::
         f in dictionaries[t] && dictionaries[t][f] == DictionaryList(published[t].catalog, f, lower)
  }

  /**
    The prepared path, on a generation of the Catalogs in `published`. It answers, for every request, as
    the reference path does on a store that holds still: the same options, truncation and versions, the
    same request errors, and the same first missing target, which it calls not prepared.
   */
  method PreparedFilterOptions(dictionaries: map<TermCampusKey, Dictionary>, published: map<TermCampusKey, Published>,
                               requested: seq<TermCampusKey>, targets: seq<TermCampusKey>, field: OptionField,
                               query: Option<string>, limit: nat, lower: string -> string)
    returns (r: Result<Answered, QueryError>)
    requires DictionariesOf(dictionaries, published, lower)
    ensures match ReferenceAnswer(published, Still(published), requested, targets, field, query, limit, lower)
            case Ok(a) => r == Ok(a)
            case Err(TargetNotPublished(t)) => r == Err(TargetNotPrepared(t))
            case Err(e) => r == Err(e) && !e.PublicationChanged?
    ensures r.Ok? <==> WellFormed(requested, targets) && forall t | t in requested :: t in published
    ensures r.Ok? ==>
              var ps := Select(published, requested);
              r.value.versions == Versions(ps) && Answers(r.value.response, Catalogs(ps), field, query, limit, lower)
    ensures match r
            case Ok(_) => true
            case Err(TargetNotPrepared(t)) =>
              WellFormed(requested, targets) && exists i: nat | FirstUnpublished(requested, i, published) ::
                requested[i] == t
            case Err(e) => Refuses(e, published, Still(published), requested, targets)
  {
    RefusedOrAnswered(published, Still(published), requested, targets, field, query, limit, lower);
    var accepted := Accepted(requested, targets);
    if accepted.Err? {
      return Err(accepted.error);
    }
    var ts := accepted.value;
    var missing := FirstMissing(ts, published.Keys);
    if missing.Some? {
      return Err(TargetNotPrepared(missing.value));
    }
    var ps := Select(published, ts);
    StillIsUnmoved(published, ts);
    DictionariesList(dictionaries, published, ts, field, lower);
    var response := PreparedResponse(ListsOf(dictionaries, ts, field), ps, field, query, limit, lower);
    r := Ok(Answered(response, Versions(ps)));
  }

  function ListsOf(dictionaries: map<TermCampusKey, Dictionary>, ts: seq<TermCampusKey>,
                   field: OptionField): (r: seq<seq<FilterOption>>)
    requires forall t | t in ts :: t in dictionaries && field in dictionaries[t]
    ensures |r| == |ts| && forall i | 0 <= i < |r| :: r[i] == dictionaries[ts[i]][field]
  {
    if ts == [] then [] else [dictionaries[ts[0]][field]] + ListsOf(dictionaries, ts[1..], field)
  }

  /**
    A store that moves can only take the reference answer away: it is given exactly when it would be
    given by a store holding still and no version of an accepted target has moved, and then it is the same.
   */
  lemma MovedStoreRefuses(published: map<TermCampusKey, Published>, current: map<TermCampusKey, nat>,
                          requested: seq<TermCampusKey>, targets: seq<TermCampusKey>, field: OptionField,
                          query: Option<string>, limit: nat, lower: string -> string)
    ensures var still := ReferenceAnswer(published, Still(published), requested, targets, field, query, limit, lower);
            var r := ReferenceAnswer(published, current, requested, targets, field, query, limit, lower);
            && (still.Err? ==> r == still)
            && (r.Ok? ==> r == still)
            && (r.Ok? <==>
                  still.Ok? && forall t | t in requested :: CurrentVersion(current, t) == Some(published[t].version))
  {
    var accepted := Accepted(requested, targets);
    if accepted.Ok? && FirstMissing(accepted.value, published.Keys).None? {
      StillIsUnmoved(published, requested);
      MovedIffDiffers(published, current, requested);
    }
  }

  lemma MovedIffDiffers(published: map<TermCampusKey, Published>, current: map<TermCampusKey, nat>,
                        ts: seq<TermCampusKey>)
    requires forall t | t in ts :: t in published
    ensures FirstMoved(ts, Select(published, ts), current).None? <==>
            forall t | t in ts :: CurrentVersion(current, t) == Some(published[t].version)
  {
    var ps := Select(published, ts);
    assert forall i | 0 <= i < |ts| :: ts[i] in ts && ps[i] == published[ts[i]];
  }
}
