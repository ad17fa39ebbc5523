/**
  What the publication protocol promises over whole runs: no stale binding, no lost ticket, no
  regression, and what exactly the failed-rebuild fallback gives up.
 */
module PublicationTheorems {
  import opened Common
  import opened DirtyTickets
  import opened Publication
  import opened PublicationTickets
  import opened PublicationFreshness

  lemma InvInit(s: State)
    requires Init(s)
    ensures Inv(s)
  {
  }

  lemma {:induction false} RunKeepsInv(states: seq<State>, steps: seq<Step>, i: nat)
    requires Run(states, steps) && i < |states|
    ensures Inv(states[i])
  {
    if i == 0 {
      InvInit(states[0]);
    } else {
      RunKeepsInv(states, steps, i - 1);
      InvStep(states[i - 1], steps[i - 1]);
    }
  }

  // ----- Serving safety -----

  /** While admission is open, only tickets still in their Precommit window can be pending. */
  lemma UnblockedIsCurrent(s: State, r: Resource, v: nat)
    requires NeedsBounded(s) && !AdmissionBlocked(s.dirty)
    requires Tracked(s, r, v) && v <= V(s.store, r)
    requires forall t | t in MaskedTargets(s.dirty) :: r !in TargetResources(t)
    ensures v == V(s.store, r)
  {
    forall k | Covers(s, k, r) ensures V(s.store, r) == 0 {
      assert k.Open? && k.target in MaskedTargets(s.dirty);
    }
  }

  /** The served overlay of an unmasked target is current exactly when it meets what the fallback let go. */
  lemma UnblockedOverlay(s: State, t: TermCampusKey)
    requires NeedsBounded(s) && OpenFresh(s) && Bounded(s) && !AdmissionBlocked(s.dirty)
    requires s.current.Some? && t in s.current.value.open && t !in MaskedTargets(s.dirty)
    ensures s.current.value.open[t] == V(s.store, OpenState(t)) <==> MeetsWaived(s, t, s.current.value.open[t])
  {
    if MeetsWaived(s, t, s.current.value.open[t]) {
      UnblockedIsCurrent(s, OpenState(t), s.current.value.open[t]);
    }
  }

  lemma UnblockedFoundation(s: State)
    requires Bounded(s) && FoundationFresh(s) && !AdmissionBlocked(s.dirty) && s.current.Some?
    ensures V(s.current.value.foundation, Discovery) == V(s.store, Discovery)
    ensures forall t :: V(s.current.value.foundation, Catalog(t)) == V(s.store, Catalog(t))
    ensures forall t | t !in MaskedTargets(s.dirty) :: V(s.current.value.foundation, Ready(t)) == V(s.store, Ready(t))
  {
    UnblockedIsCurrent(s, Discovery, V(s.current.value.foundation, Discovery));
    forall t ensures V(s.current.value.foundation, Catalog(t)) == V(s.store, Catalog(t)) {
      UnblockedIsCurrent(s, Catalog(t), V(s.current.value.foundation, Catalog(t)));
    }
    forall t | t !in MaskedTargets(s.dirty) ensures V(s.current.value.foundation, Ready(t)) == V(s.store, Ready(t)) {
      UnblockedIsCurrent(s, Ready(t), V(s.current.value.foundation, Ready(t)));
    }
  }

  /** Every successful bind, in every reachable state, is to a generation no commit has superseded; its
      unmasked overlays are current too, exactly as far as they meet the tickets a fallback has let go. */
  lemma ServingSafety(states: seq<State>, steps: seq<Step>, i: nat, b: Binding<Snapshot>)
    requires Run(states, steps) && i < |states|
    requires Bind(states[i].dirty, states[i].current) == Ok(b)
    ensures V(b.snapshot.foundation, Discovery) == V(states[i].store, Discovery)
    ensures forall t :: V(b.snapshot.foundation, Catalog(t)) == V(states[i].store, Catalog(t))
    ensures forall t | t !in b.forcedOpenUnavailable ::
              V(b.snapshot.foundation, Ready(t)) == V(states[i].store, Ready(t))
    ensures forall t | t in b.snapshot.open && t !in b.forcedOpenUnavailable ::
              b.snapshot.open[t] == V(states[i].store, OpenState(t)) <==> MeetsWaived(states[i], t, b.snapshot.open[t])
  {
    var s := states[i];
    RunKeepsInv(states, steps, i);
    UnblockedFoundation(s);
    forall t | t in b.snapshot.open && t !in b.forcedOpenUnavailable
      ensures b.snapshot.open[t] == V(s.store, OpenState(t)) <==> MeetsWaived(s, t, b.snapshot.open[t])
    {
      UnblockedOverlay(s, t);
    }
  }

  ghost predicate KeepsWaived(s: State, s': State) {
    s'.waived == s.waived && forall k | k in s.waived :: Need(s'.need, k) == Need(s.need, k)
  }

  lemma WriterKeepsWaived(s: State, step: WriterStep)
    requires BarriersOwnTickets(s) && WriterEnabled(s, step)
    ensures KeepsWaived(s, AfterWriter(s, step))
  {
  }

  lemma WorkerKeepsWaived(s: State, step: WorkerStep)
    requires BarriersOwnTickets(s) && WorkerEnabled(s, step) && step != FallbackMatch
    ensures KeepsWaived(s, AfterWorker(s, step))
  {
    if step == PromoteBatch {
      var heir := PromoteTable(s);
    }
  }

  lemma BuildKeepsWaived(s: State, step: BuildStep)
    requires BuildEnabled(s, step)
    ensures KeepsWaived(s, AfterBuild(s, step))
  {
  }

  /** Only the fallback lets tickets go, and nothing changes what they asked for. */
  lemma StepKeepsWaived(s: State, step: Step)
    requires BarriersOwnTickets(s) && Enabled(s, step) && step != Work(FallbackMatch)
    ensures KeepsWaived(s, After(s, step))
  {
    match step
    case Write(w) => WriterKeepsWaived(s, w);
    case Work(w) => WorkerKeepsWaived(s, w);
    case Rebuild(b) => BuildKeepsWaived(s, b);
  }

  lemma RunKeepsWaived(states: seq<State>, steps: seq<Step>, i: nat)
    requires Run(states, steps) && i < |steps| && steps[i] != Work(FallbackMatch)
    ensures KeepsWaived(states[i], states[i + 1])
  {
    RunKeepsInv(states, steps, i);
    StepKeepsWaived(states[i], steps[i]);
  }

  lemma StoreMeetsWaived(states: seq<State>, steps: seq<Step>, i: nat, t: TermCampusKey)
    requires Run(states, steps) && i < |states|
    ensures MeetsWaived(states[i], t, V(states[i].store, OpenState(t)))
  {
    RunKeepsInv(states, steps, i);
  }

  /** Nothing is let go between these moments. */
  ghost predicate WaivedKept(states: seq<State>, i: nat, j: nat) {
    j < |states| && forall n | i <= n < j :: KeepsWaived(states[n], states[n + 1])
  }

  lemma {:induction false} StillMeetsWaived(states: seq<State>, i: nat, j: nat, t: TermCampusKey, v: nat)
    requires i <= j && WaivedKept(states, i, j) && MeetsWaived(states[i], t, v)
    ensures MeetsWaived(states[j], t, v)
  {
    if i < j {
      StillMeetsWaived(states, i, j - 1, t, v);
      SameWaived(states[j - 1], states[j]);
    }
  }

  /** Whatever of an overlay is read while no fallback follows meets every ticket let go: publishing it
      ends the gap. */
  lemma RereadMeetsWaived(states: seq<State>, steps: seq<Step>, i: nat, j: nat, t: TermCampusKey)
    requires Run(states, steps) && i <= j < |states|
    requires forall n | i <= n < j :: steps[n] != Work(FallbackMatch)
    ensures MeetsWaived(states[j], t, V(states[i].store, OpenState(t)))
  {
    forall n | i <= n < j ensures KeepsWaived(states[n], states[n + 1]) {
      RunKeepsWaived(states, steps, n);
    }
    StoreMeetsWaived(states, steps, i, t);
    StillMeetsWaived(states, i, j, t, V(states[i].store, OpenState(t)));
  }

  /** In a run without fallbacks no bound overlay of an unmasked target is ever superseded. */
  lemma NoFallbackNoGap(states: seq<State>, steps: seq<Step>, i: nat, b: Binding<Snapshot>)
    requires Run(states, steps) && i < |states| && Bind(states[i].dirty, states[i].current) == Ok(b)
    requires forall n | 0 <= n < i :: steps[n] != Work(FallbackMatch)
    ensures forall t | t in b.snapshot.open && t !in b.forcedOpenUnavailable ::
              b.snapshot.open[t] == V(states[i].store, OpenState(t))
  {
    NothingWaived(states, steps, i);
    ServingSafety(states, steps, i, b);
  }

  lemma {:induction false} NothingWaived(states: seq<State>, steps: seq<Step>, i: nat)
    requires Run(states, steps) && i < |states|
    requires forall n | 0 <= n < i :: steps[n] != Work(FallbackMatch)
    ensures states[i].waived == {}
  {
    if i > 0 {
      NothingWaived(states, steps, i - 1);
      RunKeepsWaived(states, steps, i - 1);
    }
  }

  // ----- Shutdown and the rebuild guard -----

  lemma WriterAccepts(s: State, step: WriterStep)
    requires WriterEnabled(s, step)
    ensures AfterWriter(s, step).accepting == s.accepting
    ensures step.BeginFull? || step.BeginOpen? ==> s.accepting
  {
  }

  lemma WorkerStops(s: State, step: WorkerStep)
    requires WorkerEnabled(s, step)
    ensures AfterWorker(s, step).accepting <==> s.accepting && step != StopAccepting && step != WorkerExit
  {
  }

  lemma BuildAccepts(s: State, step: BuildStep)
    requires BuildEnabled(s, step)
    ensures AfterBuild(s, step).accepting == s.accepting
  {
  }

  lemma StaysStopped(s: State, step: Step)
    requires Enabled(s, step) && !s.accepting
    ensures !After(s, step).accepting && !(step.Write? && (step.writer.BeginFull? || step.writer.BeginOpen?))
  {
    match step
    case Write(w) => WriterAccepts(s, w);
    case Work(w) => WorkerStops(s, w);
    case Rebuild(b) => BuildAccepts(s, b);
  }

  lemma RunStaysStopped(states: seq<State>, steps: seq<Step>, j: nat)
    requires Run(states, steps) && j < |steps| && !states[j].accepting
    ensures !states[j + 1].accepting
  {
    StaysStopped(states[j], steps[j]);
  }

  lemma {:induction false} StoppedIsForever(states: seq<State>, steps: seq<Step>, i: nat, j: nat)
    requires Run(states, steps) && i <= j < |states| && !states[i].accepting
    ensures !states[j].accepting
  {
    if i < j {
      StoppedIsForever(states, steps, i, j - 1);
      RunStaysStopped(states, steps, j - 1);
    }
  }

  /** Once barriers are refused, or the worker is gone, none begins again. */
  lemma NoBarrierOnceStopped(states: seq<State>, steps: seq<Step>, i: nat, j: nat)
    requires Run(states, steps) && i < j < |steps| && steps[i] in {Work(StopAccepting), Work(WorkerExit)}
    ensures !(steps[j].Write? && (steps[j].writer.BeginFull? || steps[j].writer.BeginOpen?))
  {
    WorkerStops(states[i], steps[i].worker);
    StoppedIsForever(states, steps, i + 1, j);
    StaysStopped(states[j], steps[j]);
  }

  /** One rebuild at a time: another may begin exactly when none holds the guard, and both ends give it back. */
  lemma GuardIsExclusive(states: seq<State>, steps: seq<Step>, i: nat)
    requires Run(states, steps) && i < |steps|
    ensures Enabled(states[i], Rebuild(BeginBuild(Bystander, WholeCatalog))) <==> states[i].build == None
    ensures steps[i] in {Rebuild(Publish), Rebuild(AbandonBuild)} ==>
              states[i].build.Some? && Enabled(states[i + 1], Rebuild(BeginBuild(Bystander, WholeCatalog)))
    ensures steps[i].Rebuild? && steps[i].build.BeginBuild? ==> states[i].build == None && states[i + 1].build.Some?
  {
  }

  // ----- Published generations never regress -----

  /** Neither the store, the published generation nor a rebuild in progress has `r` below `v`. */
  ghost predicate AtLeast(s: State, r: Resource, v: nat) {
    && v <= V(s.store, r)
    && (s.current.Some? ==>
          && (IsFoundation(r) ==> v <= V(s.current.value.foundation, r))
          && (r.OpenState? && r.target in s.current.value.open ==> v <= s.current.value.open[r.target]))
    && (s.build.Some? ==>
          && (IsFoundation(r) && s.build.value.foundation.Some? ==> v <= V(s.build.value.foundation.value, r))
          && (r.OpenState? && r.target in s.build.value.open ==> v <= s.build.value.open[r.target]))
  }

  lemma WriterKeepsAtLeast(s: State, step: WriterStep, r: Resource, v: nat)
    requires WriterEnabled(s, step) && AtLeast(s, r, v)
    ensures AtLeast(AfterWriter(s, step), r, v) && AfterWriter(s, step).current == s.current
  {
  }

  lemma WorkerKeepsAtLeast(s: State, step: WorkerStep, r: Resource, v: nat)
    requires WorkerEnabled(s, step) && AtLeast(s, r, v)
    ensures AtLeast(AfterWorker(s, step), r, v) && AfterWorker(s, step).current == s.current
  {
  }

  lemma BuildKeepsAtLeast(s: State, step: BuildStep, r: Resource, v: nat)
    requires Bounded(s) && BuildEnabled(s, step) && AtLeast(s, r, v) && s.current.Some?
    ensures AtLeast(AfterBuild(s, step), r, v) && AfterBuild(s, step).current.Some?
    ensures s.current.value.id <= AfterBuild(s, step).current.value.id
  {
  }

  lemma AtLeastStep(s: State, step: Step, r: Resource, v: nat)
    requires Bounded(s) && Enabled(s, step) && AtLeast(s, r, v) && s.current.Some?
    ensures AtLeast(After(s, step), r, v) && After(s, step).current.Some?
    ensures s.current.value.id <= After(s, step).current.value.id
  {
    match step
    case Write(w) => WriterKeepsAtLeast(s, w, r, v);
    case Work(w) => WorkerKeepsAtLeast(s, w, r, v);
    case Rebuild(b) => BuildKeepsAtLeast(s, b, r, v);
  }

  /** Once published, neither the generation number nor any version served ever goes back. */
  lemma {:induction false} PublishedNeverRegresses(states: seq<State>, steps: seq<Step>, i: nat, j: nat, r: Resource,
                                                   v: nat)
    requires Run(states, steps) && i <= j < |states|
    requires states[i].current.Some?
    requires if IsFoundation(r) then v == V(states[i].current.value.foundation, r)
             else r.target in states[i].current.value.open && v == states[i].current.value.open[r.target]
    ensures states[j].current.Some? && states[i].current.value.id <= states[j].current.value.id
    ensures AtLeast(states[j], r, v)
  {
    if i == j {
      RunKeepsInv(states, steps, i);
    } else {
      PublishedNeverRegresses(states, steps, i, j - 1, r, v);
      RunKeepsAtLeast(states, steps, j - 1, r, v);
    }
  }

  lemma RunKeepsAtLeast(states: seq<State>, steps: seq<Step>, i: nat, r: Resource, v: nat)
    requires Run(states, steps) && i < |steps| && AtLeast(states[i], r, v) && states[i].current.Some?
    ensures AtLeast(states[i + 1], r, v) && states[i + 1].current.Some?
    ensures states[i].current.value.id <= states[i + 1].current.value.id
  {
    RunKeepsInv(states, steps, i);
    AtLeastStep(states[i], steps[i], r, v);
  }

  // ----- Ticket conservation -----

  /** How many times `k` is held: by its committing barrier, in the channel, pending, or executing. */
  function Holders(s: State, k: Ticket): nat {
    (if k in s.barriers && s.barriers[k] == TicketCommitted then 1 else 0) + multiset(s.channel)[k]
    + (if k in s.pending then 1 else 0) + (if k in BatchOf(s.exec) then 1 else 0)
  }

  /** Until a shutdown is requested each Committed ticket is in exactly one place; nothing else is anywhere. */
  lemma TicketConservation(states: seq<State>, steps: seq<Step>, i: nat, k: Ticket)
    requires Run(states, steps) && i < |states|
    ensures !states[i].shutdown ==> Holders(states[i], k) == if IsCommitted(states[i], k) then 1 else 0
    ensures Holders(states[i], k) <= if IsCommitted(states[i], k) then 1 else 0
  {
    var s := states[i];
    RunKeepsInv(states, steps, i);
    DistinctCounts(s.channel, k);
    if Held(s, k) {
      assert IsCommitted(s, k) && k !in s.barriers;
    }
  }

  /** An idle worker with no live barriers means nothing is dirty, so binding is open and unmasked. */
  lemma IdleMeansOpen(states: seq<State>, steps: seq<Step>, i: nat)
    requires Run(states, steps) && i < |states|
    requires var s := states[i];
             !s.shutdown && s.barriers == map[] && s.channel == [] && s.pending == {} && s.exec == Resting
    ensures states[i].dirty.tickets == map[]
    ensures Bind(states[i].dirty, states[i].current) ==
            if states[i].current.Some? then Ok(Binding(states[i].current.value, {})) else Err(SnapshotUnavailable)
  {
    var s := states[i];
    RunKeepsInv(states, steps, i);
    forall k ensures !IsCommitted(s, k) {
    }
    assert s.dirty.tickets == map[] && MaskedTargets(s.dirty) == {};
  }

  /**
    Binding is open exactly when a generation exists and every live ticket belongs to an Open barrier whose
    ticket has not been committed. An Open pull under way masks its own target and blocks nothing.
   */
  lemma OpenPullsOnlyMask(states: seq<State>, steps: seq<Step>, i: nat)
    requires Run(states, steps) && i < |states|
    ensures var s := states[i];
            Bind(s.dirty, s.current).Ok? <==>
              && s.current.Some?
              && forall k | k in s.dirty.tickets :: k.Open? && k in s.barriers && s.barriers[k] != TicketCommitted
    ensures var s := states[i];
            Bind(s.dirty, s.current).Ok? ==>
              forall t :: t in Bind(s.dirty, s.current).value.forcedOpenUnavailable <==>
                          exists e :: Open(t, e) in s.barriers
  {
    var s := states[i];
    RunKeepsInv(states, steps, i);
    BindExactly(s.dirty, s.current);
    assert forall k | k in s.barriers :: k in s.dirty.tickets;
  }

  /** The fail-closed error branches are never taken: each registry call the protocol makes succeeds. */
  lemma RegistryCallsSucceed(states: seq<State>, steps: seq<Step>, i: nat)
    requires Run(states, steps) && i < |states|
    ensures var s := states[i];
            && (forall k | k in s.barriers && s.barriers[k] == StoreCommitted :: CommitTicket(s.dirty, k).Ok?)
            && (forall k | k in s.barriers && s.barriers[k].StoreCommittedAsOpen? ::
                  Narrow(s.dirty, k.epoch, s.barriers[k].target).Ok?)
            && (s.exec.Executing? ==> Promote(s.dirty, s.exec.batch).Ok?)
            && (s.build.Some? ==> s.build.value.expected == CurrentId(s))
  {
    var s := states[i];
    RunKeepsInv(states, steps, i);
    forall k | k in BatchOf(s.exec) ensures IsCommitted(s, k) {
      assert Held(s, k);
    }
  }

  // ----- What the fallback gives up -----

  ghost function AfterFallback(s: State): State
    requires WorkerEnabled(s, FallbackMatch)
  {
    var s' := AfterWorker(s, FallbackMatch);
    AfterWorker(s', ClearTickets(s.exec.batch))
  }

  /** The overlay of `t` reflects everything the executing batch committed. */
  ghost predicate MeetsBatch(s: State, t: TermCampusKey, v: nat) {
    forall k | k in BatchOf(s.exec) :: V(Need(s.need, k), OpenState(t)) <= v
  }

  /**
    Whenever the worker falls back, whatever other tickets and rebuilds there are: a target whose
    overlay binding then serves unmasked is served a current one if and only if that overlay already
    reflected what the batch, and every batch let go before, had committed.
   */
  lemma FallbackExactness(states: seq<State>, steps: seq<Step>, i: nat, t: TermCampusKey, b: Binding<Snapshot>)
    requires Run(states, steps) && i < |states|
    requires WorkerEnabled(states[i], FallbackMatch)
    requires var s' := AfterFallback(states[i]); Bind(s'.dirty, s'.current) == Ok(b)
    requires t in b.snapshot.open && t !in b.forcedOpenUnavailable
    ensures b.snapshot == states[i].current.value
    ensures V(b.snapshot.foundation, Discovery) == V(AfterFallback(states[i]).store, Discovery)
    ensures forall u :: V(b.snapshot.foundation, Catalog(u)) == V(AfterFallback(states[i]).store, Catalog(u))
    ensures b.snapshot.open[t] == V(AfterFallback(states[i]).store, OpenState(t)) <==>
            MeetsWaived(states[i], t, b.snapshot.open[t]) && MeetsBatch(states[i], t, b.snapshot.open[t])
  {
    var s := states[i];
    RunKeepsInv(states, steps, i);
    var f := AfterWorker(s, FallbackMatch);
    InvStep(s, Work(FallbackMatch));
    InvStep(f, Work(ClearTickets(s.exec.batch)));
    UnblockedFoundation(AfterFallback(s));
    UnblockedOverlay(AfterFallback(s), t);
    FallbackWaives(s, AfterFallback(s), t, b.snapshot.open[t]);
  }

  lemma FallbackWaives(s: State, s': State, t: TermCampusKey, v: nat)
    requires s.exec.Executing? && s'.waived == s.waived + s.exec.batch && s'.need == s.need
    ensures MeetsWaived(s', t, v) <==> MeetsWaived(s, t, v) && MeetsBatch(s, t, v)
  {
  }

  // ----- A run in which the fallback serves a superseded overlay -----

  ghost predicate Reachable(s: State) {
    exists states, steps :: Run(states, steps) && states[|steps|] == s
  }

  lemma ReachableStep(s: State, step: Step)
    requires Reachable(s) && Enabled(s, step)
    ensures Reachable(After(s, step))
  {
    var states, steps :| Run(states, steps) && states[|steps|] == s;
    var states', steps' := states + [After(s, step)], steps + [step];
    forall i | 0 <= i < |steps'|
      ensures Enabled(states'[i], steps'[i]) && states'[i + 1] == After(states'[i], steps'[i]) {
      assert i < |steps| ==> states'[i] == states[i] && steps'[i] == steps[i] && states'[i + 1] == states[i + 1];
    }
    assert Run(states', steps') && states'[|steps'|] == After(s, step);
  }

  function Empty(): State {
    State(map[], Dirty(0, map[]), map[], map[], [], {}, Resting, None, None, 0, true, true, false, {})
  }

  /** A first generation serving `t` can be published from the empty store. */
  lemma FirstGeneration(t: TermCampusKey) returns (s: State)
    ensures Reachable(s)
    ensures s == Empty().(current := Some(Snapshot(1, map[], map[t := 0])), published := 1)
  {
    s := Empty();
    var none: seq<Step> := [];
    assert Run([s], none) && [s][|none|] == s;
    ReachableStep(s, Rebuild(BeginBuild(Bystander, WholeCatalog)));
    s := AfterBuild(s, BeginBuild(Bystander, WholeCatalog));
    ReachableStep(s, Rebuild(ReadFoundation));
    s := AfterBuild(s, ReadFoundation);
    ReachableStep(s, Rebuild(CheckOverlay(t)));
    s := AfterBuild(s, CheckOverlay(t));
    ReachableStep(s, Rebuild(ReadOverlay(t)));
    s := AfterBuild(s, ReadOverlay(t));
    ReachableStep(s, Rebuild(Publish));
    s := AfterBuild(s, Publish);
  }

  /** A barrier whose store transaction has committed hands its ticket to the worker's channel. */
  lemma HandOver(s: State, k: Ticket) returns (s': State)
    requires Reachable(s) && s.workerAlive && s.barriers == map[k := StoreCommitted] && k in s.dirty.tickets
    ensures Reachable(s')
    ensures s' == s.(dirty := s.dirty.(tickets := s.dirty.tickets[k := Committed]), barriers := map[],
                     channel := s.channel + [k])
  {
    ReachableStep(s, Write(CommitBarrier(k)));
    s' := AfterWriter(s, CommitBarrier(k));
    ReachableStep(s', Write(SendRequest(k)));
    s' := AfterWriter(s', SendRequest(k));
    assert s'.barriers == map[];
  }

  lemma OpenBegun(s: State, t: TermCampusKey) returns (s': State)
    requires Reachable(s) && s.accepting && FreshEpochLeft(s) && s.barriers == map[]
    ensures Reachable(s')
    ensures var k := Open(t, NextEpoch(s.dirty));
            s' == s.(dirty := MarkOpen(s.dirty, t), barriers := map[k := Begun], need := s.need[k := map[]])
  {
    ReachableStep(s, Write(BeginOpen(t)));
    s' := AfterWriter(s, BeginOpen(t));
  }

  /** An Open transaction of `t` runs inside its barrier. */
  lemma OpenStored(s: State, t: TermCampusKey, k: Ticket) returns (s': State)
    requires Reachable(s) && k.Open? && k.target == t && s.barriers == map[k := Begun]
    ensures Reachable(s')
    ensures var store := Bump(s.store, {OpenState(t)});
            s' == s.(store := store, barriers := map[k := StoreCommitted],
                     need := s.need[k := Restrict(store, TargetResources(t))])
  {
    ReachableStep(s, Write(CommitStore(k, {OpenState(t)})));
    s' := AfterWriter(s, CommitStore(k, {OpenState(t)}));
  }

  /** One Open transaction of `t`, from its barrier to the worker's channel. */
  lemma OpenCommit(s: State, t: TermCampusKey) returns (s': State)
    requires Reachable(s) && s.accepting && s.workerAlive && FreshEpochLeft(s) && s.barriers == map[]
    ensures Reachable(s')
    ensures var k := Open(t, NextEpoch(s.dirty));
            var store := Bump(s.store, {OpenState(t)});
            s' == s.(store := store, dirty := Dirty(NextEpoch(s.dirty), s.dirty.tickets[k := Committed]),
                     need := s.need[k := Restrict(store, TargetResources(t))], channel := s.channel + [k])
  {
    var k := Open(t, NextEpoch(s.dirty));
    var s1 := OpenBegun(s, t);
    var s2 := OpenStored(s1, t, k);
    assert s2.need == s.need[k := Restrict(s2.store, TargetResources(t))];
    s' := HandOver(s2, k);
    assert s'.dirty.tickets == s.dirty.tickets[k := Committed];
  }

  /** The worker merges two requests and takes them as one batch. */
  lemma TakenBatch(s: State, a: Ticket, b: Ticket) returns (s': State)
    requires Reachable(s) && s.workerAlive && s.exec == Resting && s.pending == {}
    requires s.channel == [a, b] && a.Open? && b.Open?
    ensures Reachable(s') && s' == s.(channel := [], exec := Executing({a, b}, false))
  {
    ReachableStep(s, Work(Merge));
    s' := AfterWorker(s, Merge);
    ReachableStep(s', Work(Merge));
    s' := AfterWorker(s', Merge);
    assert s'.pending == {a, b} && s'.channel == [];
    assert NextBatch({a, b}) == {a, b};
    ReachableStep(s', Work(Take));
    s' := AfterWorker(s', Take);
    assert s'.pending == {};
  }

  /** The worker gives up on a batch of overlays and takes the Full ticket that replaces it. */
  lemma PromotedBatch(s: State) returns (s': State)
    requires Reachable(s) && s.workerAlive && s.build == None && s.pending == {} && FreshEpochLeft(s)
    requires s.exec.Executing? && !s.exec.covered && ScopeOf(s.exec.batch).Overlays?
    requires Promote(s.dirty, s.exec.batch).Ok?
    ensures Reachable(s')
    ensures var f := Full(NextEpoch(s.dirty));
            s' == s.(dirty := Promote(s.dirty, s.exec.batch).value, need := s.need[f := s.store],
                     exec := Executing({f}, false))
  {
    ReachableStep(s, Work(PromoteBatch));
    s' := AfterWorker(s, PromoteBatch);
    var f := Full(NextEpoch(s.dirty));
    assert f in s'.pending && NextBatch({f}) == {f};
    assert s'.pending == {f};
    ReachableStep(s', Work(Take));
    s' := AfterWorker(s', Take);
    assert s'.pending == {};
  }

  /** A generation serves `t`, and Open transactions of `t` and `u` have since committed. */
  ghost predicate TwoCommitted(s: State, t: TermCampusKey, u: TermCampusKey) {
    && Reachable(s) && s.workerAlive && s.build == None && s.pending == {}
    && s.dirty == Dirty(2, map[Open(t, 1) := Committed, Open(u, 2) := Committed])
    && s.current == Some(Snapshot(1, map[], map[t := 0]))
    && s.store == Bump(Bump(map[], {OpenState(t)}), {OpenState(u)})
  }

  lemma CommitTwice(t: TermCampusKey, u: TermCampusKey) returns (s: State)
    requires t != u
    ensures TwoCommitted(s, t, u) && s.exec == Executing({Open(t, 1), Open(u, 2)}, false)
  {
    var s0 := FirstGeneration(t);
    var s1 := OpenCommit(s0, t);
    var s2 := OpenCommit(s1, u);
    s := TakenBatch(s2, Open(t, 1), Open(u, 2));
  }

  /** The worker gives up on the two overlays and promotes them to one Full ticket. */
  lemma PromotedCommits(t: TermCampusKey, u: TermCampusKey) returns (s: State)
    requires t != u
    ensures Reachable(s) && s.build == None && s.exec == Executing({Full(3)}, false)
    ensures s.dirty.tickets == map[Full(3) := Committed]
    ensures s.current == Some(Snapshot(1, map[], map[t := 0]))
    ensures s.store == Bump(Bump(map[], {OpenState(t)}), {OpenState(u)})
  {
    s := CommitTwice(t, u);
    s := PromotedBatch(s);
  }

  lemma FallbackReaches(s: State, f: Ticket)
    requires Reachable(s) && s.exec == Executing({f}, false) && f.Full? && WorkerEnabled(s, FallbackMatch)
    ensures Reachable(AfterFallback(s))
  {
    ReachableStep(s, Work(FallbackMatch));
    ReachableStep(AfterWorker(s, FallbackMatch), Work(ClearTickets({f})));
  }

  lemma StaleAfterFallback(s: State, t: TermCampusKey, f: Ticket) returns (b: Binding<Snapshot>)
    requires s.build == None && s.exec == Executing({f}, false) && f.Full?
    requires s.dirty.tickets == map[f := Committed] && FoundationSeen(s)
    ensures WorkerEnabled(s, FallbackMatch)
    ensures var s' := AfterFallback(s); Bind(s'.dirty, s'.current) == Ok(b) && s'.store == s.store
    ensures b == Binding(s.current.value, {})
  {
    assert f in s.exec.batch;
    var s' := AfterFallback(s);
    assert s'.dirty.tickets == map[];
    b := Binding(s.current.value, {});
    assert MaskedTargets(s'.dirty) == {};
  }

  /**
    The fallback compares discovery, Catalog generations and readiness only. After an overlay rebuild is
    promoted and the Full rebuild fails, it clears the promoted ticket and binding reopens on an overlay that a
    committed Open transaction has superseded.
   */
  lemma FallbackServesStaleOverlay(t: TermCampusKey, u: TermCampusKey) returns (s: State, b: Binding<Snapshot>)
    requires t != u
    ensures Reachable(s) && Bind(s.dirty, s.current) == Ok(b)
    ensures t in b.snapshot.open && t !in b.forcedOpenUnavailable && b.snapshot.open[t] < V(s.store, OpenState(t))
  {
    s := PromotedCommits(t, u);
    b := StaleAfterFallback(s, t, Full(3));
    FallbackReaches(s, Full(3));
    s := AfterFallback(s);
  }
}
