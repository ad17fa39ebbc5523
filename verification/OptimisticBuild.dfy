/**
  The optimistic rebuild of a serving generation. The builder reads an authoritative store that other
  processes keep moving, without a transaction around its reads, and validates at the end. The store is
  a history of views whose versions only grow; every read picks its own moment, no earlier than the
  read before it. Alongside its result the builder gives the reads of the publication protocol it has
  thereby performed, in order.
 */
module OptimisticBuild {
  import opened Common
  import Publication
  import opened BuildTraces

  /** What decides whether a target's Catalog may be served. */
  datatype Generation = Generation(catalog: nat, openCatalog: nat, ready: bool)

  datatype OpenBatch = OpenBatch(observation: nat, attempt: nat)

  /** The store at one moment. Absent keys are targets nothing was ever written for. */
  datatype View = View(discovery: nat, generations: map<TermCampusKey, Generation>, corpus: nat,
                       batches: map<TermCampusKey, OpenBatch>)
  {
    function GenerationOf(t: TermCampusKey): Generation {
      if t in generations then generations[t] else Generation(0, 0, false)
    }

    function BatchOf(t: TermCampusKey): Option<OpenBatch> {
      if t in batches then Some(batches[t]) else None
    }
  }

  predicate GenerationLeq(a: Generation, b: Generation) {
    && a.catalog <= b.catalog && a.openCatalog <= b.openCatalog
    && (a.ready && a.catalog == b.catalog && a.openCatalog == b.openCatalog ==> b.ready)
  }

  predicate BatchLeq(a: Option<OpenBatch>, b: Option<OpenBatch>) {
    a.Some? ==> b.Some? && a.value.observation <= b.value.observation && a.value.attempt <= b.value.attempt
  }

  ghost predicate Grows(a: View, b: View) {
    && a.discovery <= b.discovery && a.corpus <= b.corpus
    && (forall t :: GenerationLeq(a.GenerationOf(t), b.GenerationOf(t)))
    && (forall t :: BatchLeq(a.BatchOf(t), b.BatchOf(t)))
  }

  /** A store history: versions only grow, Open never runs ahead of its Catalog, and a ready target has a
      published Catalog that its Open state belongs to. */
  ghost predicate History(h: seq<View>) {
    && h != []
    && (forall i, j | 0 <= i <= j < |h| :: Grows(h[i], h[j]))
    && (forall i, t | 0 <= i < |h| :: h[i].GenerationOf(t).openCatalog <= h[i].GenerationOf(t).catalog)
    && (forall i, t | 0 <= i < |h| && h[i].GenerationOf(t).ready ::
          h[i].GenerationOf(t).catalog == h[i].GenerationOf(t).openCatalog > 0)
  }

  /** Nothing a rebuild looks at changes in the whole history. */
  ghost predicate Still(h: seq<View>) {
    forall i, j | 0 <= i < |h| && 0 <= j < |h| :: h[i] == h[j]
  }

  datatype Error = PublicationChanged | RebuildCancelled | TargetNotPrepared | ResidentBudgetExceeded

  /** `evidence` holds the Open state each section's evidence was read from; a conservative overlay has none. */
  datatype Overlay = Overlay(catalog: nat, observation: nat, attempt: nat, conservative: bool,
                             evidence: seq<Option<OpenBatch>>)

  datatype Snapshot = Snapshot(discovery: nat, generations: map<TermCampusKey, Generation>, corpus: nat,
                               catalogs: map<TermCampusKey, nat>, overlays: map<TermCampusKey, Overlay>)

  function Sequences(batch: Option<OpenBatch>): (nat, nat) {
    if batch.Some? then (batch.value.observation, batch.value.attempt) else (0, 0)
  }

  // ----- The store of the publication protocol behind a history -----

  datatype Content = Number(number: nat) | Readiness(catalog: nat, ready: bool) | Batch(batch: Option<OpenBatch>)

  /** What the protocol's version of a resource stands for. */
  function ContentOf(v: View, r: Publication.Resource): Content {
    match r
    case Discovery => Number(v.discovery)
    case Catalog(t) => Number(v.GenerationOf(t).catalog)
    case Ready(t) => Readiness(v.GenerationOf(t).catalog, v.GenerationOf(t).ready)
    case OpenState(t) => Batch(v.BatchOf(t))
  }

  /** `stores` versions the history: a version moves only when its content does. */
  ghost predicate Versioned(h: seq<View>, stores: seq<Publication.Versions>) {
    && |stores| == |h|
    && forall i, j, r | 0 <= i < |h| && 0 <= j < |h| && ContentOf(h[i], r) == ContentOf(h[j], r) ::
         Publication.V(stores[i], r) == Publication.V(stores[j], r)
  }

  /** The stamp the protocol puts on an overlay is the version its sequence numbers were read at. */
  ghost predicate Stamped(h: seq<View>, stores: seq<Publication.Versions>, t: TermCampusKey, o: Overlay, stamp: nat)
    requires |stores| == |h|
  {
    exists m | 0 <= m < |h| ::
      SequencesAt(h, m, t, o) && stamp == Publication.V(stores[m], Publication.OpenState(t))
  }

  ghost predicate AllStamped(h: seq<View>, stores: seq<Publication.Versions>, targets: set<TermCampusKey>,
                             overlays: map<TermCampusKey, Overlay>, open: map<TermCampusKey, nat>)
    requires |stores| == |h|
  {
    forall t | t in targets :: t in overlays && t in open && Stamped(h, stores, t, overlays[t], open[t])
  }

  // ----- Equal at both ends means constant between -----

  lemma ConstantGeneration(h: seq<View>, i: nat, c: nat, j: nat, t: TermCampusKey)
    requires History(h) && i <= c <= j < |h| && h[i].GenerationOf(t) == h[j].GenerationOf(t)
    ensures h[c].GenerationOf(t) == h[i].GenerationOf(t)
  {
    assert Grows(h[i], h[c]) && Grows(h[c], h[j]);
    assert GenerationLeq(h[i].GenerationOf(t), h[c].GenerationOf(t));
    assert GenerationLeq(h[c].GenerationOf(t), h[j].GenerationOf(t));
  }

  lemma ConstantBatch(h: seq<View>, i: nat, c: nat, j: nat, t: TermCampusKey)
    requires History(h) && i <= c <= j < |h| && h[i].BatchOf(t) == h[j].BatchOf(t)
    ensures h[c].BatchOf(t) == h[i].BatchOf(t)
  {
    assert Grows(h[i], h[c]) && Grows(h[c], h[j]);
    assert BatchLeq(h[i].BatchOf(t), h[c].BatchOf(t)) && BatchLeq(h[c].BatchOf(t), h[j].BatchOf(t));
  }

  // ----- What a result must satisfy -----

  /** The overlay's sequence numbers were current at `m`, and whatever evidence it carries was read from
      the Open state they belong to. */
  ghost predicate SequencesAt(h: seq<View>, m: nat, t: TermCampusKey, o: Overlay)
    requires m < |h|
  {
    && (o.observation, o.attempt) == Sequences(h[m].BatchOf(t))
    && (o.conservative ==> o.evidence == [])
    && (forall e | e in o.evidence :: e == h[m].BatchOf(t))
  }

  ghost predicate ReadyAt(h: seq<View>, m: nat, t: TermCampusKey, catalog: nat)
    requires m < |h|
  {
    h[m].GenerationOf(t).ready && h[m].GenerationOf(t).catalog == catalog
  }

  /** An overlay of a Catalog version that was ready at the very moment its Open state was current. */
  ghost predicate OverlaySound(h: seq<View>, t: TermCampusKey, catalog: nat, o: Overlay) {
    o.catalog == catalog && exists m | 0 <= m < |h| :: ReadyAt(h, m, t, catalog) && SequencesAt(h, m, t, o)
  }

  /** Every part of the foundation was current at moment `m`, and exactly the ready targets are served. */
  ghost predicate FoundationAt(h: seq<View>, m: nat, targets: seq<TermCampusKey>, s: Snapshot)
    requires m < |h|
  {
    && s.discovery == h[m].discovery && s.corpus == h[m].corpus
    && (forall t :: t in s.generations <==> t in targets)
    && (forall t | t in targets :: s.generations[t] == h[m].GenerationOf(t))
    && (forall t :: t in s.catalogs <==> t in targets && h[m].GenerationOf(t).ready)
    && (forall t | t in s.catalogs :: s.catalogs[t] == h[m].GenerationOf(t).catalog)
  }

  ghost predicate OverlaysSound(h: seq<View>, s: Snapshot) {
    forall t :: (t in s.overlays <==> t in s.catalogs) &&
                (t in s.overlays ==> OverlaySound(h, t, s.catalogs[t], s.overlays[t]))
  }

  // ----- The builder -----

  /** The moment of the next read. */
  method Tick(h: seq<View>, now: nat) returns (later: nat)
    requires now < |h|
    ensures now <= later < |h|
  {
    later :| now <= later < |h|;
  }

  /** Whether something that may happen happens here. */
  method Happens(may: bool) returns (yes: bool)
    ensures yes ==> may
  {
    yes := *;
    yes := yes && may;
  }

  /** Reads evidence section by section, each at its own moment. */
  method ReadEvidence(h: seq<View>, start: nat, t: TermCampusKey, sections: nat)
    returns (evidence: seq<Option<OpenBatch>>, now: nat)
    requires start < |h|
    ensures start <= now < |h| && |evidence| == sections
    ensures forall e | e in evidence :: exists m | start <= m <= now :: h[m].BatchOf(t) == e
  {
    now, evidence := start, [];
    for i := 0 to sections
      invariant start <= now < |h| && |evidence| == i
      invariant forall e | e in evidence :: exists m | start <= m <= now :: h[m].BatchOf(t) == e
    {
      now := Tick(h, now);
      evidence := evidence + [h[now].BatchOf(t)];
    }
  }

  /** Projects one overlay between two looks at the target. */
  method ProjectOverlay(h: seq<View>, start: nat, t: TermCampusKey, catalog: nat, sections: nat)
    returns (r: Result<Overlay, Error>, now: nat, ghost readyAt: nat)
    requires History(h) && start < |h|
    ensures start <= readyAt <= now < |h|
    ensures r.Ok? ==> r.value.catalog == catalog && ReadyAt(h, readyAt, t, catalog) && SequencesAt(h, now, t, r.value)
    ensures r.Ok? && Still(h) ==> !r.value.conservative && |r.value.evidence| == sections
    ensures r.Err? ==> r.error == PublicationChanged && !ReadyAt(h, readyAt, t, catalog)
  {
    now := Tick(h, start);
    readyAt := now;
    var generation := h[now].GenerationOf(t);
    now := Tick(h, now);
    var batch := h[now].BatchOf(t);
    if !generation.ready || generation.catalog != catalog {
      return Err(PublicationChanged), now, readyAt;
    }
    ghost var b0 := now;
    var evidence;
    evidence, now := ReadEvidence(h, now, t, sections);
    now := Tick(h, now);
    readyAt := now;
    var generation' := h[now].GenerationOf(t);
    now := Tick(h, now);
    var batch' := h[now].BatchOf(t);
    var (observation, attempt) := Sequences(batch');
    if generation' != generation || batch' != batch {
      if !generation'.ready || generation'.catalog != catalog {
        return Err(PublicationChanged), now, readyAt;
      }
      return Ok(Overlay(catalog, observation, attempt, true, [])), now, readyAt;
    }
    forall e | e in evidence ensures e == batch' {
      var m :| b0 <= m <= now && h[m].BatchOf(t) == e;
      ConstantBatch(h, b0, m, now, t);
    }
    r := Ok(Overlay(catalog, observation, attempt, false, evidence));
  }

  /** `t` had this generation at some moment of the interval. */
  ghost predicate SeenBetween(h: seq<View>, lo: nat, hi: nat, t: TermCampusKey, g: Generation) {
    exists m | lo <= m <= hi < |h| :: h[m].GenerationOf(t) == g
  }

  method ReadGenerations(h: seq<View>, start: nat, targets: seq<TermCampusKey>)
    returns (generations: map<TermCampusKey, Generation>, now: nat)
    requires start < |h|
    ensures start <= now < |h|
    ensures forall t :: t in generations <==> t in targets
    ensures forall t | t in targets :: SeenBetween(h, start, now, t, generations[t])
  {
    now, generations := start, map[];
    for i := 0 to |targets|
      invariant start <= now < |h|
      invariant forall t :: t in generations <==> t in targets[..i]
      invariant forall t | t in generations :: SeenBetween(h, start, now, t, generations[t])
    {
      now := Tick(h, now);
      generations := generations[targets[i] := h[now].GenerationOf(targets[i])];
    }
  }

  /** Looks at every target again, and refuses if any generation moved. */
  method ValidateGenerations(h: seq<View>, start: nat, targets: seq<TermCampusKey>,
                             generations: map<TermCampusKey, Generation>)
    returns (same: bool, now: nat)
    requires start < |h| && forall t | t in targets :: t in generations
    ensures start <= now < |h|
    ensures same ==> forall t | t in targets :: SeenBetween(h, start, now, t, generations[t])
    ensures !same ==> exists t | t in targets :: h[now].GenerationOf(t) != generations[t]
  {
    now := start;
    for i := 0 to |targets|
      invariant start <= now < |h|
      invariant forall t | t in targets[..i] :: SeenBetween(h, start, now, t, generations[t])
    {
      now := Tick(h, now);
      if h[now].GenerationOf(targets[i]) != generations[targets[i]] {
        return false, now;
      }
    }
    same := true;
  }

  lemma SeenThroughout(h: seq<View>, lo: nat, hi: nat, c: nat, lo': nat, hi': nat, t: TermCampusKey, g: Generation)
    requires History(h) && hi <= c <= lo'
    requires SeenBetween(h, lo, hi, t, g) && SeenBetween(h, lo', hi', t, g)
    ensures h[c].GenerationOf(t) == g
  {
    var i :| lo <= i <= hi && h[i].GenerationOf(t) == g;
    var j :| lo' <= j <= hi' && h[j].GenerationOf(t) == g;
    ConstantGeneration(h, i, c, j, t);
  }

  /** Reads the published Catalog of every target seen ready. */
  method ReadCatalogs(h: seq<View>, start: nat, targets: seq<TermCampusKey>,
                      generations: map<TermCampusKey, Generation>, cancelled: bool)
    returns (r: Result<map<TermCampusKey, nat>, Error>, now: nat)
    requires start < |h| && forall t | t in targets :: t in generations
    ensures start <= now < |h|
    ensures r.Ok? ==> (forall t :: t in r.value <==> t in targets && generations[t].ready)
                      && forall t | t in r.value ::
                           exists m | start <= m <= now :: h[m].GenerationOf(t).catalog == r.value[t]
    ensures r.Err? ==> r.error == TargetNotPrepared || (r.error == RebuildCancelled && cancelled)
    ensures r == Err(TargetNotPrepared) ==>
              exists t | t in targets :: generations[t].ready && h[now].GenerationOf(t).catalog == 0
  {
    now := start;
    var catalogs: map<TermCampusKey, nat> := map[];
    for i := 0 to |targets|
      invariant start <= now < |h|
      invariant forall t :: t in catalogs <==> t in targets[..i] && generations[t].ready
      invariant forall t | t in catalogs :: exists m | start <= m <= now :: h[m].GenerationOf(t).catalog == catalogs[t]
    {
      var stop := Happens(cancelled);
      if stop {
        return Err(RebuildCancelled), now;
      }
      var t := targets[i];
      if generations[t].ready {
        now := Tick(h, now);
        if h[now].GenerationOf(t).catalog == 0 {
          return Err(TargetNotPrepared), now;
        }
        catalogs := catalogs[t := h[now].GenerationOf(t).catalog];
      }
    }
    assert targets[..|targets|] == targets;
    r := Ok(catalogs);
  }

  /** Somewhere in the interval the overlay's Catalog was ready, and later in it its sequences were current. */
  ghost predicate OverlayRead(h: seq<View>, lo: nat, hi: nat, t: TermCampusKey, catalog: nat, o: Overlay) {
    o.catalog == catalog &&
    exists r, m | lo <= r <= m <= hi < |h| :: ReadyAt(h, r, t, catalog) && SequencesAt(h, m, t, o)
  }

  function SetOf(targets: seq<TermCampusKey>): set<TermCampusKey> {
    set t | t in targets
  }

  lemma SetOfOneMore(targets: seq<TermCampusKey>, i: nat)
    requires i < |targets|
    ensures SetOf(targets[..i + 1]) == SetOf(targets[..i]) + {targets[i]}
  {
    assert targets[..i + 1] == targets[..i] + [targets[i]];
  }

  /** Some listed target was seen not ready under its Catalog version. */
  ghost predicate Refused(h: seq<View>, start: nat, now: nat, targets: seq<TermCampusKey>,
                          catalogs: map<TermCampusKey, nat>) {
    exists t, m | t in targets && t in catalogs && start <= m <= now < |h| :: !ReadyAt(h, m, t, catalogs[t])
  }

  /** Whenever a listed target is ready under its Catalog version, the protocol lets the build look at it. */
  ghost predicate MayCheck(h: seq<View>, p: Setting, start: nat, targets: seq<TermCampusKey>,
                           catalogs: map<TermCampusKey, nat>, b: Publication.Build)
    requires |p.stores| == |h|
  {
    forall t, m | t in targets && t in catalogs && start <= m < |h| && ReadyAt(h, m, t, catalogs[t]) ::
      Publication.ReadEnabled(b, p.current, p.stores[m], Publication.CheckOverlay(t))
  }

  /** The trace has added to `b` the overlays of exactly the targets in `done`, with their stamps. */
  ghost predicate Traced(h: seq<View>, p: Setting, b: Publication.Build, trace: Trace, done: set<TermCampusKey>,
                         overlays: map<TermCampusKey, Overlay>)
  {
    && |p.stores| == |h| && Performs(p, trace)
    && var b' := Built(p, trace);
       && b' == b.(checked := b'.checked, open := b'.open) && b'.open.Keys == b.open.Keys + done
       && AllStamped(h, p.stores, done, overlays, b'.open)
  }

  lemma TraceOverlay(h: seq<View>, p: Setting, b: Publication.Build, trace: Trace, done: set<TermCampusKey>,
                     overlays: map<TermCampusKey, Overlay>, t: TermCampusKey, o: Overlay, r: nat, m: nat)
    returns (longer: Trace)
    requires Traced(h, p, b, trace, done, overlays) && End(trace) <= r && r <= m < |h|
    requires Publication.ReadEnabled(b, p.current, p.stores[r], Publication.CheckOverlay(t)) && SequencesAt(h, m, t, o)
    ensures Traced(h, p, b, longer, done + {t}, overlays[t := o]) && End(longer) <= m
  {
    longer := ExtendByOverlay(p, trace, t, r, m);
    var stamp := Publication.V(p.stores[m], Publication.OpenState(t));
    assert Stamped(h, p.stores, t, o, stamp);
  }

  /** The overlays of the targets in `done` have been read in the interval, the others are those of `base`. */
  ghost predicate Projected(h: seq<View>, start: nat, now: nat, catalogs: map<TermCampusKey, nat>,
                            base: map<TermCampusKey, Overlay>, done: set<TermCampusKey>,
                            overlays: map<TermCampusKey, Overlay>)
  {
    && start <= now < |h|
    && (forall t :: t in overlays <==> t in base || t in done)
    && (forall t | t in done :: t in catalogs && OverlayRead(h, start, now, t, catalogs[t], overlays[t]))
    && (forall t | t in base && t !in done :: overlays[t] == base[t])
  }

  lemma ProjectOneMore(h: seq<View>, start: nat, was: nat, now: nat, catalogs: map<TermCampusKey, nat>,
                       base: map<TermCampusKey, Overlay>, done: set<TermCampusKey>,
                       overlays: map<TermCampusKey, Overlay>,
                       t: TermCampusKey, o: Overlay, readyAt: nat)
    requires Projected(h, start, was, catalogs, base, done, overlays) && was <= readyAt <= now < |h|
    requires t in catalogs && o.catalog == catalogs[t] && ReadyAt(h, readyAt, t, catalogs[t])
             && SequencesAt(h, now, t, o)
    ensures Projected(h, start, now, catalogs, base, done + {t}, overlays[t := o])
  {
    forall u | u in done && u != t ensures OverlayRead(h, start, now, u, catalogs[u], overlays[u]) {
      ReadWithin(h, start, was, start, now, u, catalogs[u], overlays[u]);
    }
    assert OverlayRead(h, start, now, t, catalogs[t], o);
  }

  /** Projects the overlay of each listed target over `base`, reading Catalog versions from `catalogs`. */
  method ProjectOverlays(h: seq<View>, start: nat, targets: seq<TermCampusKey>, catalogs: map<TermCampusKey, nat>,
                         base: map<TermCampusKey, Overlay>, sections: nat, cancelled: bool, ghost p: Setting,
                         ghost before: Trace)
    returns (r: Result<map<TermCampusKey, Overlay>, Error>, now: nat, ghost trace: Trace)
    requires History(h) && start < |h|
    requires |p.stores| == |h| && Performs(p, before) && End(before) <= start
    requires MayCheck(h, p, start, targets, catalogs, Built(p, before))
    ensures start <= now < |h|
    ensures r.Ok? ==> Projected(h, start, now, catalogs, base, SetOf(targets), r.value)
    ensures r.Ok? ==> Traced(h, p, Built(p, before), trace, SetOf(targets), r.value) && End(trace) <= now
    ensures r == Err(TargetNotPrepared) ==> exists t | t in targets :: t !in catalogs
    ensures r == Err(PublicationChanged) ==> Refused(h, start, now, targets, catalogs)
    ensures r.Err? ==> r.error != ResidentBudgetExceeded && (r.error == RebuildCancelled ==> cancelled)
  {
    now, trace := start, before;
    var overlays := base;
    ghost var done: set<TermCampusKey> := {};
    for i := 0 to |targets|
      invariant start <= now < |h| && done == SetOf(targets[..i])
      invariant Projected(h, start, now, catalogs, base, done, overlays)
      invariant Traced(h, p, Built(p, before), trace, done, overlays) && End(trace) <= now
    {
      var stop := Happens(cancelled);
      if stop {
        return Err(RebuildCancelled), now, trace;
      }
      var t := targets[i];
      if t !in catalogs {
        return Err(TargetNotPrepared), now, trace;
      }
      ghost var was := now;
      var projected;
      ghost var readyAt;
      projected, now, readyAt := ProjectOverlay(h, now, t, catalogs[t], sections);
      if projected.Err? {
        assert !ReadyAt(h, readyAt, t, catalogs[t]);
        return Err(projected.error), now, trace;
      }
      ProjectOneMore(h, start, was, now, catalogs, base, done, overlays, t, projected.value, readyAt);
      trace := TraceOverlay(h, p, Built(p, before), trace, done, overlays, t, projected.value, readyAt, now);
      overlays := overlays[t := projected.value];
      done := done + {t};
      SetOfOneMore(targets, i);
    }
    assert targets[..|targets|] == targets;
    r := Ok(overlays);
  }

  lemma ReadWithin(h: seq<View>, lo: nat, hi: nat, lo': nat, hi': nat, t: TermCampusKey, catalog: nat, o: Overlay)
    requires OverlayRead(h, lo, hi, t, catalog, o) && lo' <= lo && hi <= hi' < |h|
    ensures OverlayRead(h, lo', hi', t, catalog, o)
  {
    var r, m :| lo <= r <= m <= hi && ReadyAt(h, r, t, catalog) && SequencesAt(h, m, t, o);
    assert lo' <= r <= m <= hi' && ReadyAt(h, r, t, catalog) && SequencesAt(h, m, t, o);
  }

  /** A generation seen before and after an overlay was read was in force while it was read. */
  lemma ReadIsSound(h: seq<View>, lo: nat, hi: nat, a: nat, b: nat, lo': nat, hi': nat,
                    t: TermCampusKey, g: Generation, o: Overlay)
    requires History(h) && hi <= a <= b <= lo'
    requires SeenBetween(h, lo, hi, t, g) && SeenBetween(h, lo', hi', t, g)
    requires OverlayRead(h, a, b, t, g.catalog, o)
    ensures OverlaySound(h, t, g.catalog, o)
  {
    var r, m :| a <= r <= m <= b && ReadyAt(h, r, t, g.catalog) && SequencesAt(h, m, t, o);
    SeenThroughout(h, lo, hi, r, lo', hi', t, g);
    SeenThroughout(h, lo, hi, m, lo', hi', t, g);
    assert ReadyAt(h, m, t, g.catalog);
  }

  /** The Catalog version read while a generation was in force is that generation's. */
  lemma CatalogIsCurrent(h: seq<View>, lo: nat, hi: nat, a: nat, b: nat, lo': nat, hi': nat,
                         t: TermCampusKey, g: Generation, catalog: nat)
    requires History(h) && hi <= a <= b <= lo'
    requires SeenBetween(h, lo, hi, t, g) && SeenBetween(h, lo', hi', t, g)
    requires exists m | a <= m <= b :: h[m].GenerationOf(t).catalog == catalog
    ensures catalog == g.catalog
  {
    var m :| a <= m <= b && h[m].GenerationOf(t).catalog == catalog;
    SeenThroughout(h, lo, hi, m, lo', hi', t, g);
  }

  function ReadyTargets(targets: seq<TermCampusKey>, catalogs: map<TermCampusKey, nat>): (r: seq<TermCampusKey>)
    ensures forall t :: t in r <==> t in targets && t in catalogs
  {
    if targets == [] then []
    else (if targets[0] in catalogs then [targets[0]] else []) + ReadyTargets(targets[1..], catalogs)
  }

  /** The first half of a whole build: discovery, every generation, the corpus and every Catalog. */
  method ReadFoundation(h: seq<View>, targets: seq<TermCampusKey>, cancelled: bool)
    returns (r: Result<Snapshot, Error>, now: nat, ghost d0: nat, ghost g0: nat, ghost c0: nat)
    requires History(h)
    ensures d0 <= g0 <= c0 <= now < |h|
    ensures r.Ok? ==> FoundationRead(h, d0, g0, c0, now, targets, r.value) && r.value.overlays == map[]
    ensures r.Err? ==> r.error == RebuildCancelled && cancelled
  {
    d0 := 0;
    var stop := Happens(cancelled);
    if stop {
      return Err(RebuildCancelled), 0, 0, 0, 0;
    }
    now := Tick(h, 0);
    d0 := now;
    var discovery := h[now].discovery;
    var generations;
    generations, now := ReadGenerations(h, now, targets);
    g0 := now;
    now := Tick(h, now);
    c0 := now;
    var corpus := h[now].corpus;
    var catalogs;
    catalogs, now := ReadCatalogs(h, now, targets, generations, cancelled);
    if catalogs.Err? {
      if catalogs.error == TargetNotPrepared {
        ghost var t :| t in targets && generations[t].ready && h[now].GenerationOf(t).catalog == 0;
        ReadyStaysPublished(h, d0, g0, now, t, generations[t]);
      }
      return Err(catalogs.error), now, d0, g0, c0;
    }
    r := Ok(Snapshot(discovery, generations, corpus, catalogs.value, map[]));
  }

  predicate Disagrees(v: View, targets: seq<TermCampusKey>, s: Snapshot)
    requires forall t | t in targets :: t in s.generations
  {
    || v.discovery != s.discovery || v.corpus != s.corpus
    || exists t | t in targets :: v.GenerationOf(t) != s.generations[t]
  }

  /** At some moment the store disagreed with what was read. */
  ghost predicate Invalid(h: seq<View>, targets: seq<TermCampusKey>, s: Snapshot)
    requires forall t | t in targets :: t in s.generations
  {
    exists m | 0 <= m < |h| :: Disagrees(h[m], targets, s)
  }

  /** The second half: everything the foundation was read from is looked at again. */
  method Validate(h: seq<View>, start: nat, targets: seq<TermCampusKey>, s: Snapshot)
    returns (same: bool, now: nat, ghost d1: nat, ghost g1: nat)
    requires start < |h| && forall t | t in targets :: t in s.generations
    ensures start <= d1 <= g1 <= now < |h|
    ensures same ==> h[d1].discovery == s.discovery && h[now].corpus == s.corpus
    ensures same ==> forall t | t in targets :: SeenBetween(h, d1, g1, t, s.generations[t])
    ensures !same ==> Invalid(h, targets, s)
  {
    now := Tick(h, start);
    d1, g1 := now, now;
    if h[now].discovery != s.discovery {
      assert Disagrees(h[now], targets, s);
      return false, now, d1, g1;
    }
    same, now := ValidateGenerations(h, now, targets, s.generations);
    g1 := now;
    if same {
      now := Tick(h, now);
      same := h[now].corpus == s.corpus;
    }
    assert !same ==> Disagrees(h[now], targets, s);
  }

  /** What the first half has read, between the moments it read it. */
  ghost predicate FoundationRead(h: seq<View>, d0: nat, g0: nat, c0: nat, k0: nat, targets: seq<TermCampusKey>,
                                 s: Snapshot)
  {
    && d0 <= g0 <= c0 <= k0 < |h| && s.discovery == h[d0].discovery && s.corpus == h[c0].corpus
    && (forall t :: t in s.generations <==> t in targets)
    && (forall t | t in targets :: SeenBetween(h, d0, g0, t, s.generations[t]))
    && (forall t :: t in s.catalogs <==> t in targets && s.generations[t].ready)
    && (forall t | t in s.catalogs :: exists m | c0 <= m <= k0 :: h[m].GenerationOf(t).catalog == s.catalogs[t])
  }

  /** The protocol's rebuild holds the stamps of the generation that came back. */
  ghost predicate BuildMatches(h: seq<View>, p: Setting, trace: Trace, moment: nat,
                               overlays: map<TermCampusKey, Overlay>)
    requires |p.stores| == |h|
  {
    && moment < |h| && Performs(p, trace)
    && var b := Built(p, trace);
       && b.foundation == Some(p.stores[moment]) && b.scope == Publication.WholeCatalog
       && b.open.Keys == overlays.Keys && AllStamped(h, p.stores, overlays.Keys, overlays, b.open)
  }

  /** A rebuild of everything that has read nothing yet. */
  predicate FreshWhole(b: Publication.Build) {
    b.scope == Publication.WholeCatalog && b.foundation == None && b.checked == {} && b.open == map[]
  }

  lemma FoundationStep(h: seq<View>, p: Setting, c0: nat, k0: nat, targets: seq<TermCampusKey>,
                       catalogs: map<TermCampusKey, nat>) returns (trace: Trace)
    requires |p.stores| == |h| && FreshWhole(p.start) && c0 < |h|
    ensures Performs(p, trace) && End(trace) <= c0 && Built(p, trace) == p.start.(foundation := Some(p.stores[c0]))
    ensures MayCheck(h, p, k0, targets, catalogs, Built(p, trace))
  {
    trace := Then(NoReads, c0, Publication.ReadFoundation);
  }

  /**
    Builds a whole generation. A generation that comes back is one the store really had: its discovery,
    every Catalog and the search corpus were all current from `moment` until `settled`, all its overlays
    were read between the two, and each pairs one Open state with that state's own sequence numbers. It
    is the outcome of the protocol reads in `trace`. A store that holds still is built, unless the
    rebuild is cancelled or memory is scarce.
   */
  method Build(h: seq<View>, targets: seq<TermCampusKey>, sections: nat, cancelled: bool, scarce: bool,
               ghost p: Setting)
    returns (r: Result<Snapshot, Error>, ghost moment: nat, ghost settled: nat, ghost trace: Trace)
    requires History(h) && |p.stores| == |h| && FreshWhole(p.start)
    ensures moment <= settled < |h|
    ensures r.Ok? ==> forall m | moment <= m <= settled :: FoundationAt(h, m, targets, r.value)
    ensures r.Ok? ==> OverlaysSound(h, r.value) && OverlaysRead(h, moment, settled, r.value)
    ensures r.Ok? ==> BuildMatches(h, p, trace, moment, r.value.overlays)
    ensures r == Err(PublicationChanged) ==> !Still(h)
    ensures r.Err? ==> r.error == PublicationChanged || (r.error == RebuildCancelled && cancelled)
                       || (r.error == ResidentBudgetExceeded && scarce)
    ensures Still(h) && !cancelled && !scarce ==> r.Ok?
  {
    ghost var d0, g0, g1;
    var foundation, now;
    foundation, now, d0, g0, moment := ReadFoundation(h, targets, cancelled);
    settled, trace := moment, NoReads;
    if foundation.Err? {
      return Err(foundation.error), moment, settled, trace;
    }
    var s := foundation.value;
    ghost var k0 := now;
    var ready := ReadyTargets(targets, s.catalogs);
    trace := FoundationStep(h, p, moment, k0, ready, s.catalogs);
    var overlays;
    overlays, now, trace := ProjectOverlays(h, now, ready, s.catalogs, map[], sections, cancelled, p, trace);
    if overlays.Err? {
      if overlays.error == PublicationChanged {
        RefusedMeansMoved(h, d0, g0, moment, k0, targets, s, now);
      }
      return Err(overlays.error), moment, settled, trace;
    }
    ghost var o0 := now;
    var same;
    same, now, settled, g1 := Validate(h, now, targets, s);
    if !same {
      InvalidMeansMoved(h, d0, g0, moment, k0, targets, s);
      return Err(PublicationChanged), moment, settled, trace;
    }
    var exceeded := Happens(scarce);
    if exceeded {
      return Err(ResidentBudgetExceeded), moment, settled, trace;
    }
    r := Ok(s.(overlays := overlays.value));
    ValidatedBuild(h, d0, g0, moment, k0, o0, settled, g1, now, targets, s, overlays.value);
    ValidatedTrace(h, p, trace, moment, ready, overlays.value);
  }

  lemma ReadyStaysPublished(h: seq<View>, lo: nat, hi: nat, m: nat, t: TermCampusKey, g: Generation)
    requires History(h) && hi <= m < |h| && SeenBetween(h, lo, hi, t, g) && g.ready
    ensures h[m].GenerationOf(t).catalog > 0
  {
    var i :| lo <= i <= hi && h[i].GenerationOf(t) == g;
    assert Grows(h[i], h[m]);
    assert GenerationLeq(h[i].GenerationOf(t), h[m].GenerationOf(t));
  }

  lemma RefusedMeansMoved(h: seq<View>, d0: nat, g0: nat, c0: nat, k0: nat, targets: seq<TermCampusKey>, s: Snapshot,
                          now: nat)
    requires FoundationRead(h, d0, g0, c0, k0, targets, s)
    requires Refused(h, k0, now, ReadyTargets(targets, s.catalogs), s.catalogs)
    ensures !Still(h)
  {
    var t, m :| t in s.catalogs && k0 <= m <= now < |h| && !ReadyAt(h, m, t, s.catalogs[t]);
    UnreadyMeansMoved(h, d0, g0, c0, k0, targets, s, t, m);
  }

  lemma UnreadyMeansMoved(h: seq<View>, d0: nat, g0: nat, c0: nat, k0: nat, targets: seq<TermCampusKey>, s: Snapshot,
                          t: TermCampusKey, m: nat)
    requires FoundationRead(h, d0, g0, c0, k0, targets, s)
    requires t in s.catalogs && m < |h| && !ReadyAt(h, m, t, s.catalogs[t])
    ensures !Still(h)
  {
    assert SeenBetween(h, d0, g0, t, s.generations[t]) && s.generations[t].ready;
    var i :| d0 <= i <= g0 && h[i].GenerationOf(t) == s.generations[t];
    var j :| c0 <= j <= k0 && h[j].GenerationOf(t).catalog == s.catalogs[t];
    assert h[i] != h[m] || h[j] != h[m];
  }

  lemma InvalidMeansMoved(h: seq<View>, d0: nat, g0: nat, c0: nat, k0: nat, targets: seq<TermCampusKey>, s: Snapshot)
    requires FoundationRead(h, d0, g0, c0, k0, targets, s) && Invalid(h, targets, s)
    ensures !Still(h)
  {
    var m :| 0 <= m < |h| && Disagrees(h[m], targets, s);
    if h[m].discovery == s.discovery && h[m].corpus == s.corpus {
      var t :| t in targets && h[m].GenerationOf(t) != s.generations[t];
      var i :| d0 <= i <= g0 && h[i].GenerationOf(t) == s.generations[t];
      assert h[i] != h[m];
    } else {
      assert h[m] != h[d0] || h[m] != h[c0];
    }
  }

  /** What validation saw again after the overlays was in force all the while. */
  ghost predicate SeenAgain(h: seq<View>, d1: nat, g1: nat, c1: nat, targets: seq<TermCampusKey>, s: Snapshot)
    requires forall t | t in targets :: t in s.generations
  {
    && d1 <= g1 <= c1 < |h| && h[d1].discovery == s.discovery && h[c1].corpus == s.corpus
    && forall t | t in targets :: SeenBetween(h, d1, g1, t, s.generations[t])
  }

  lemma ValidatedFoundation(h: seq<View>, d0: nat, g0: nat, c0: nat, k0: nat, m: nat, d1: nat, g1: nat, c1: nat,
                            targets: seq<TermCampusKey>, s: Snapshot)
    requires History(h) && FoundationRead(h, d0, g0, c0, k0, targets, s) && k0 <= d1 && c0 <= m <= d1
    requires SeenAgain(h, d1, g1, c1, targets, s)
    ensures FoundationAt(h, m, targets, s)
  {
    assert Grows(h[d0], h[m]) && Grows(h[c0], h[m]) && Grows(h[m], h[d1]) && Grows(h[m], h[c1]);
    forall t | t in targets ensures s.generations[t] == h[m].GenerationOf(t) {
      SeenThroughout(h, d0, g0, m, d1, g1, t, s.generations[t]);
    }
    forall t | t in s.catalogs ensures s.catalogs[t] == h[m].GenerationOf(t).catalog {
      CatalogIsCurrent(h, d0, g0, c0, k0, d1, g1, t, s.generations[t], s.catalogs[t]);
    }
  }

  /** Every overlay was read in the interval. */
  ghost predicate OverlaysRead(h: seq<View>, lo: nat, hi: nat, s: Snapshot) {
    forall t | t in s.overlays :: t in s.catalogs && OverlayRead(h, lo, hi, t, s.catalogs[t], s.overlays[t])
  }

  lemma ValidatedOverlays(h: seq<View>, d0: nat, g0: nat, c0: nat, k0: nat, o0: nat, d1: nat, g1: nat, c1: nat,
                          targets: seq<TermCampusKey>, s: Snapshot, overlays: map<TermCampusKey, Overlay>)
    requires History(h) && FoundationRead(h, d0, g0, c0, k0, targets, s) && FoundationAt(h, c0, targets, s)
    requires k0 <= o0 <= d1 && SeenAgain(h, d1, g1, c1, targets, s)
    requires Projected(h, k0, o0, s.catalogs, map[], SetOf(ReadyTargets(targets, s.catalogs)), overlays)
    ensures OverlaysSound(h, s.(overlays := overlays)) && OverlaysRead(h, c0, d1, s.(overlays := overlays))
  {
    forall t | t in overlays
      ensures t in s.catalogs && OverlaySound(h, t, s.catalogs[t], overlays[t])
      ensures OverlayRead(h, c0, d1, t, s.catalogs[t], overlays[t])
    {
      ReadIsSound(h, d0, g0, k0, o0, d1, g1, t, s.generations[t], overlays[t]);
      ReadWithin(h, k0, o0, c0, d1, t, s.catalogs[t], overlays[t]);
    }
  }

  lemma ValidatedBuild(h: seq<View>, d0: nat, g0: nat, c0: nat, k0: nat, o0: nat, d1: nat, g1: nat, c1: nat,
                       targets: seq<TermCampusKey>, s: Snapshot, overlays: map<TermCampusKey, Overlay>)
    requires History(h) && FoundationRead(h, d0, g0, c0, k0, targets, s) && k0 <= o0 <= d1
    requires SeenAgain(h, d1, g1, c1, targets, s)
    requires Projected(h, k0, o0, s.catalogs, map[], SetOf(ReadyTargets(targets, s.catalogs)), overlays)
    ensures forall m | c0 <= m <= d1 :: FoundationAt(h, m, targets, s.(overlays := overlays))
    ensures OverlaysSound(h, s.(overlays := overlays)) && OverlaysRead(h, c0, d1, s.(overlays := overlays))
  {
    forall m | c0 <= m <= d1 ensures FoundationAt(h, m, targets, s.(overlays := overlays)) {
      ValidatedFoundation(h, d0, g0, c0, k0, m, d1, g1, c1, targets, s);
    }
    ValidatedFoundation(h, d0, g0, c0, k0, c0, d1, g1, c1, targets, s);
    ValidatedOverlays(h, d0, g0, c0, k0, o0, d1, g1, c1, targets, s, overlays);
  }

  lemma ValidatedTrace(h: seq<View>, p: Setting, trace: Trace, moment: nat, ready: seq<TermCampusKey>,
                       overlays: map<TermCampusKey, Overlay>)
    requires |p.stores| == |h| && moment < |h| && FreshWhole(p.start)
    requires Traced(h, p, p.start.(foundation := Some(p.stores[moment])), trace, SetOf(ready), overlays)
    requires forall t :: t in overlays <==> t in SetOf(ready)
    ensures BuildMatches(h, p, trace, moment, overlays)
  {
  }

  /** `base` is what the protocol serves as `p.current`, with a foundation read at moment `at`. */
  ghost predicate Serves(h: seq<View>, p: Setting, at: nat, base: Snapshot)
    requires |p.stores| == |h|
  {
    && at < |h| && p.current.Some? && p.current.value.foundation == p.stores[at]
    && (forall t | t in base.catalogs :: t in p.current.value.open && ReadyAt(h, at, t, base.catalogs[t]))
  }

  lemma ServedMayCheck(h: seq<View>, p: Setting, at: nat, base: Snapshot, start: nat, targets: seq<TermCampusKey>,
                       b: Publication.Build)
    requires Versioned(h, p.stores) && Serves(h, p, at, base) && b.scope == Publication.Overlays(SetOf(targets))
    ensures MayCheck(h, p, start, targets, base.catalogs, b)
  {
    forall t, m | t in targets && t in base.catalogs && start <= m < |h| && ReadyAt(h, m, t, base.catalogs[t])
      ensures Publication.ReadEnabled(b, p.current, p.stores[m], Publication.CheckOverlay(t))
    {
      assert ContentOf(h[m], Publication.Catalog(t)) == ContentOf(h[at], Publication.Catalog(t));
      assert ContentOf(h[m], Publication.Ready(t)) == ContentOf(h[at], Publication.Ready(t));
    }
  }

  /**
    Rebuilds the overlays of some targets on an existing foundation. The foundation and the other
    overlays are shared untouched, and each new overlay was read while its Catalog version was in force
    at some moment no later than its sequences. The protocol's rebuild of those overlays is complete.
   */
  method RebuildOverlays(h: seq<View>, base: Snapshot, targets: seq<TermCampusKey>, sections: nat, cancelled: bool,
                         scarce: bool, ghost p: Setting, ghost at: nat)
    returns (r: Result<Snapshot, Error>, ghost trace: Trace)
    requires History(h) && Versioned(h, p.stores) && Serves(h, p, at, base)
    requires p.start.scope == Publication.Overlays(SetOf(targets)) && p.start.open == map[]
    ensures r.Ok? ==>
              && r.value == base.(overlays := r.value.overlays)
              && (forall t :: t in r.value.overlays <==> t in base.overlays || t in targets)
              && (forall t | t in base.overlays && t !in targets :: r.value.overlays[t] == base.overlays[t])
              && (forall t | t in targets ::
                    t in base.catalogs && OverlayRead(h, 0, |h| - 1, t, base.catalogs[t], r.value.overlays[t]))
    ensures r.Ok? ==> Traced(h, p, p.start, trace, SetOf(targets), r.value.overlays)
    ensures r.Ok? ==> Publication.Complete(Built(p, trace))
    ensures r == Err(TargetNotPrepared) ==> exists t | t in targets :: t !in base.catalogs
    ensures r == Err(PublicationChanged) ==> Refused(h, 0, |h| - 1, targets, base.catalogs)
    ensures r == Err(RebuildCancelled) ==> cancelled
    ensures r == Err(ResidentBudgetExceeded) ==> scarce
  {
    ServedMayCheck(h, p, at, base, 0, targets, p.start);
    var overlays, now;
    overlays, now, trace :=
      ProjectOverlays(h, 0, targets, base.catalogs, base.overlays, sections, cancelled, p, NoReads);
    if overlays.Err? {
      return Err(overlays.error), trace;
    }
    forall t | t in targets ensures OverlayRead(h, 0, |h| - 1, t, base.catalogs[t], overlays.value[t]) {
      ReadWithin(h, 0, now, 0, |h| - 1, t, base.catalogs[t], overlays.value[t]);
    }
    var exceeded := Happens(scarce);
    if exceeded {
      return Err(ResidentBudgetExceeded), trace;
    }
    r := Ok(base.(overlays := overlays.value));
  }
}
