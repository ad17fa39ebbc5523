/**
  What the refresh supervisor promises over whole runs: the handle and the supervisor agree once the
  queued commands are replayed, no target is pulled twice at once, and no coordinator is lost or kept.
 */
module SupervisorTheorems {
  import opened Common
  import opened Supervisor
  import opened SupervisorInvariants

  // ----- Handle and supervisor agree -----

  /** One target as its callers see it: its mode if registered, and whether Open is demanded. */
  datatype TargetView = TargetView(mode: Option<bool>, demanded: bool)

  function Apply(v: TargetView, cmd: Command): TargetView {
    match cmd
    case Register(_, m) => v.(mode := Some(m))
    case Reclassify(_, m) => v.(mode := Some(m))
    case ActivateOpen(_) => v.(demanded := true)
    case ManualRetry(_, _) => v
    case ReleaseProductDemand(_) => v.(demanded := false)
    case RemoveTarget(_) => TargetView(None, false)
  }

  /** What the handle guarantees about a command when it sends it. */
  predicate Sane(v: TargetView, cmd: Command) {
    match cmd
    case Register(_, _) => v.mode.None?
    case Reclassify(_, _) => v.mode.Some?
    case RemoveTarget(_) => v.mode.Some?
    case _ => true
  }

  function Replay(queue: seq<Command>, t: TermCampusKey, v: TargetView): TargetView {
    if queue == [] then v else Replay(queue[1..], t, if queue[0].target == t then Apply(v, queue[0]) else v)
  }

  predicate AllSane(queue: seq<Command>, t: TermCampusKey, v: TargetView) {
    queue != [] ==>
      && (queue[0].target == t ==> Sane(v, queue[0]))
      && AllSane(queue[1..], t, if queue[0].target == t then Apply(v, queue[0]) else v)
  }

  lemma {:induction false} ReplayAppend(queue: seq<Command>, cmd: Command, t: TermCampusKey, v: TargetView)
    ensures var w := Replay(queue, t, v);
            && Replay(queue + [cmd], t, v) == (if cmd.target == t then Apply(w, cmd) else w)
            && (AllSane(queue, t, v) && (cmd.target == t ==> Sane(w, cmd)) ==> AllSane(queue + [cmd], t, v))
  {
    if queue == [] {
      assert queue + [cmd] == [cmd];
    } else {
      assert (queue + [cmd])[1..] == queue[1..] + [cmd];
      ReplayAppend(queue[1..], cmd, t, if queue[0].target == t then Apply(v, queue[0]) else v);
    }
  }

  function HandleView(h: HandleState, t: TermCampusKey): TargetView {
    TargetView(if t in h.modes then Some(h.modes[t]) else None, t in h.active)
  }

  /** The mode a target has or will have once its coordinator is back; none if it is gone or going. */
  function ModeOf(d: Desk, away: map<TermCampusKey, Away>, t: TermCampusKey): Option<bool> {
    if t in d.idle then Some(d.idle[t].manual)
    else if t in away && t !in d.removed
        then Some(if t in d.reclassified then d.reclassified[t] else away[t].entry.manual)
    else None
  }

  function DeskView(d: Desk, away: map<TermCampusKey, Away>, t: TermCampusKey): TargetView {
    TargetView(ModeOf(d, away, t), t in d.desired)
  }

  ghost predicate AgreesOn(s: State, t: TermCampusKey) {
    var v := DeskView(s.desk, s.floor.away, t);
    Replay(s.queue, t, v) == HandleView(s.handle, t) && AllSane(s.queue, t, v)
  }

  ghost predicate Agrees(s: State) {
    forall t :: AgreesOn(s, t)
  }

  ghost predicate DemandFlagged(d: Desk) {
    forall t | t in d.idle :: d.idle[t].demand == (t in d.desired)
  }

  ghost predicate FullInv(s: State) {
    Inv(s) && Agrees(s) && DemandFlagged(s.desk)
  }

  lemma CallAgrees(s: State, step: HandleStep, t: TermCampusKey)
    requires HandleEnabled(s.handle, step) && AgreesOn(s, t)
    ensures AgreesOn(After(s, Handle(step)), t)
  {
    var (h, sent) := AfterCall(s.handle, step);
    var v := DeskView(s.desk, s.floor.away, t);
    if sent != [] {
      ReplayAppend(s.queue, sent[0], t, v);
      assert sent == [sent[0]];
    } else {
      assert s.queue + sent == s.queue;
    }
  }

  /** A sane command changes the supervisor's view exactly as it changed the handle's. */
  lemma CommandApplies(d: Desk, away: map<TermCampusKey, Away>, cmd: Command, c: nat, t: TermCampusKey)
    requires forall u | u in d.idle :: u !in away
    requires forall u | u in d.reclassified :: u in away && u !in d.removed
    requires cmd.target == t ==> Sane(DeskView(d, away, t), cmd)
    ensures DeskView(DeskAfter(d, cmd, c), away, t) ==
            if cmd.target == t then Apply(DeskView(d, away, t), cmd) else DeskView(d, away, t)
  {
  }

  lemma ProcessAgrees(s: State, t: TermCampusKey)
    requires DeskFits(s.desk, s.floor) && LoopEnabled(s, Process) && AgreesOn(s, t)
    ensures AgreesOn(AfterLoop(s, Process), t)
  {
    CommandApplies(s.desk, s.floor.away, s.queue[0], s.controls.next, t);
  }

  lemma SaneFits(s: State)
    requires DeskFits(s.desk, s.floor) && LoopEnabled(s, Process) && Calm(s, Loop(Process)) && Agrees(s)
    ensures Fits(s.desk, s.floor, s.queue[0])
  {
    assert AgreesOn(s, s.queue[0].target);
  }

  /** Leaving the desk, and coming back to it, changes nobody's view. */
  lemma DispatchKeepsView(d: Desk, f: Floor, d': Desk, away': map<TermCampusKey, Away>, t: TermCampusKey, id: nat,
                          u: TermCampusKey)
    requires DeskFits(d, f) && t in d.idle
    requires d' == d.(idle := d.idle - {t}) && away' == f.away[t := Away(d.idle[t], id)]
    ensures DeskView(d', away', u) == DeskView(d, f.away, u)
  {
  }

  lemma ReturnKeepsView(d: Desk, f: Floor, away': map<TermCampusKey, Away>, t: TermCampusKey, u: TermCampusKey)
    requires DeskFits(d, f) && t in f.away && away' == f.away - {t}
    ensures DeskView(Return(d, t, f.away[t].entry), away', u) == DeskView(d, f.away, u)
  {
  }

  lemma LoopKeepsView(s: State, step: LoopStep, t: TermCampusKey)
    requires Inv(s) && LoopEnabled(s, step) && !step.Process?
    ensures var s' := AfterLoop(s, step);
            && DeskView(s'.desk, s'.floor.away, t) == DeskView(s.desk, s.floor.away, t)
            && s'.queue == s.queue && s'.handle == s.handle
  {
    match step
    case Dispatch(u, _, _) =>
      DispatchKeepsView(s.desk, s.floor, s.desk.(idle := s.desk.idle - {u}), AfterLoop(s, step).floor.away, u,
          s.floor.nextTask, t);
    case DispatchConcurrent(_) =>
    case JoinPrimary(id) =>
      var task := s.floor.tasks[id];
      if !Defers(s.floor, task) {
        ReturnKeepsView(s.desk, s.floor, s.floor.away - {task.target}, task.target, t);
      }
    case JoinConcurrent(id) =>
      var u := s.floor.tasks[id].target;
      if u in s.floor.pending {
        ReturnKeepsView(s.desk, s.floor, s.floor.away - {u}, u, t);
      }
  }

  lemma StepKeepsFlags(s: State, step: Step)
    requires DemandFlagged(s.desk) && Enabled(s, step)
    ensures DemandFlagged(After(s, step).desk)
  {
  }

  lemma StepAgrees(s: State, step: Step, t: TermCampusKey)
    requires Inv(s) && Enabled(s, step) && AgreesOn(s, t)
    ensures AgreesOn(After(s, step), t)
  {
    match step
    case Handle(c) => CallAgrees(s, c, t);
    case Work(_) =>
    case Loop(l) =>
      if l.Process? {
        ProcessAgrees(s, t);
      } else {
        LoopKeepsView(s, l, t);
      }
  }

  lemma StepKeepsFullInv(s: State, step: Step)
    requires FullInv(s) && Enabled(s, step) && Calm(s, step)
    ensures FullInv(After(s, step))
  {
    if step == Loop(Process) {
      SaneFits(s);
    }
    StepKeepsInv(s, step);
    StepKeepsFlags(s, step);
    forall t ensures AgreesOn(After(s, step), t) {
      StepAgrees(s, step, t);
    }
  }

  lemma {:induction false} CalmRunKeepsInv(states: seq<State>, steps: seq<Step>, i: nat)
    requires CalmUntil(states, steps, i)
    ensures FullInv(states[i])
  {
    if i == 0 {
      InvInit(states[0]);
    } else {
      CalmRunKeepsInv(states, steps, i - 1);
      StepKeepsFullInv(states[i - 1], steps[i - 1]);
    }
  }

  /** Replaying what is queued on the supervisor's view gives the handle's; idle flags follow the demand. */
  lemma HandleAgreement(states: seq<State>, steps: seq<Step>, i: nat, t: TermCampusKey)
    requires CalmUntil(states, steps, i)
    ensures var s := states[i];
            && Replay(s.queue, t, DeskView(s.desk, s.floor.away, t)) == HandleView(s.handle, t)
            && (s.queue == [] ==> DeskView(s.desk, s.floor.away, t) == HandleView(s.handle, t))
            && (t in s.desk.idle ==> s.desk.idle[t].demand == (t in s.desk.desired))
  {
    CalmRunKeepsInv(states, steps, i);
    assert AgreesOn(states[i], t);
  }

  // ----- One Open pull per target -----

  /** Task `id` is executing an Open pull of `t`, as a primary, a candidate or a concurrent serving Open. */
  predicate Pulls(f: Floor, id: nat, t: TermCampusKey) {
    id in f.tasks && f.tasks[id].target == t && f.tasks[id].pc in {OpenPull, CandidatePull, ServingPull}
  }

  /** While a primary pulls, a concurrent task of the same target does not. */
  lemma PrimaryBesideConcurrent(f: Floor, cs: Controls, a: nat, b: nat, t: TermCampusKey)
    requires PrimariesAway(f) && ConcurrentAway(f) && ConcurrentTasksInFlight(f)
    requires PrimaryPhases(f, cs) && BesideCatalog(f) && GatesHeld(f, cs)
    requires Pulls(f, a, t) && f.tasks[a].Primary? && b in f.tasks && f.tasks[b].Concurrent?
    ensures !Pulls(f, b, t)
  {
    if f.tasks[b].target == t && f.tasks[b].pc == ServingPull {
      assert false;
    }
  }

  lemma PullsAreUnique(f: Floor, cs: Controls, a: nat, b: nat, t: TermCampusKey)
    requires Placed(f) && Phased(f, cs) && Pulls(f, a, t) && Pulls(f, b, t)
    ensures a == b
  {
    if f.tasks[a].Primary? && f.tasks[b].Concurrent? {
      PrimaryBesideConcurrent(f, cs, a, b, t);
    } else if f.tasks[b].Primary? && f.tasks[a].Concurrent? {
      PrimaryBesideConcurrent(f, cs, b, a, t);
    }
  }

  /** In every state of a calm run at most one task is executing an Open pull of a target. */
  lemma OnePullPerTarget(states: seq<State>, steps: seq<Step>, i: nat, a: nat, b: nat, t: TermCampusKey)
    requires CalmUntil(states, steps, i)
    requires Pulls(states[i].floor, a, t) && Pulls(states[i].floor, b, t)
    ensures a == b
  {
    CalmRunKeepsInv(states, steps, i);
    PullsAreUnique(states[i].floor, states[i].controls, a, b, t);
  }

  // ----- Nothing starts beside a candidate -----

  /** The workflow has set the candidate phase and its task has not been joined yet. */
  predicate Sealed(s: State, id: nat) {
    && id in s.floor.tasks && s.floor.tasks[id].Primary?
       && s.floor.tasks[id].pc in {CandidateWait, CandidatePull, Finished}
    && PhaseOf(s.controls, s.floor.tasks[id].entry.control) == CandidateOpen
  }

  lemma TaskKeepsSealed(s: State, step: TaskStep, id: nat)
    requires PrimariesAway(s.floor) && FloorOwns(s.floor, s.controls) && PrimaryPhases(s.floor, s.controls)
    requires TaskEnabled(s.floor, s.controls, step) && Sealed(s, id)
    ensures Sealed(After(s, Work(step)), id)
  {
    var task := s.floor.tasks[step.id];
    if task.Primary? && task.entry.control == s.floor.tasks[id].entry.control {
      assert step.id == id;
    }
  }

  lemma JoinKeepsSealed(s: State, other: nat, id: nat)
    requires PrimariesAway(s.floor) && FloorOwns(s.floor, s.controls)
    requires LoopEnabled(s, JoinPrimary(other)) && Sealed(s, id) && other != id
    ensures Sealed(AfterLoop(s, JoinPrimary(other)), id)
  {
    assert s.floor.tasks[other].entry.control != s.floor.tasks[id].entry.control;
  }

  lemma LoopKeepsSealed(s: State, step: LoopStep, id: nat)
    requires PrimariesAway(s.floor) && FloorOwns(s.floor, s.controls) && TasksNumbered(s.floor)
             && ControlsNumbered(s.controls)
    requires LoopEnabled(s, step) && Sealed(s, id) && id in AfterLoop(s, step).floor.tasks
    ensures Sealed(AfterLoop(s, step), id)
  {
    if step.JoinPrimary? {
      JoinKeepsSealed(s, step.id, id);
    }
  }

  lemma TaskNumbersGrow(s: State, step: Step, id: nat)
    requires Enabled(s, step) && id < s.floor.nextTask && id in After(s, step).floor.tasks
    ensures id in s.floor.tasks
  {
  }

  lemma NextTaskGrows(s: State, step: Step)
    requires Enabled(s, step)
    ensures s.floor.nextTask <= After(s, step).floor.nextTask
  {
  }

  lemma StepKeepsSealed(s: State, step: Step, id: nat)
    requires Inv(s) && Enabled(s, step) && Sealed(s, id) && id in After(s, step).floor.tasks
    ensures Sealed(After(s, step), id)
  {
    match step
    case Handle(_) =>
    case Work(w) => TaskKeepsSealed(s, w, id);
    case Loop(l) => LoopKeepsSealed(s, l, id);
  }

  lemma SealedIsNumbered(s: State, id: nat)
    requires FullInv(s) && Sealed(s, id)
    ensures id < s.floor.nextTask
  {
  }

  /** Task numbers are never reused, and a sealed task stays sealed for as long as it is there. */
  predicate Links(s: State, s': State, id: nat) {
    && s.floor.nextTask <= s'.floor.nextTask
    && (id < s.floor.nextTask && id in s'.floor.tasks ==> id in s.floor.tasks && (Sealed(s, id) ==> Sealed(s', id)))
  }

  lemma StepLinks(s: State, s': State, step: Step, id: nat)
    requires FullInv(s) && Enabled(s, step) && s' == After(s, step)
    ensures Links(s, s', id)
  {
    NextTaskGrows(s, step);
    if id < s.floor.nextTask && id in s'.floor.tasks {
      TaskNumbersGrow(s, step, id);
      if Sealed(s, id) {
        StepKeepsSealed(s, step, id);
      }
    }
  }

  lemma RunLinks(states: seq<State>, steps: seq<Step>, j: nat, id: nat)
    requires CalmUntil(states, steps, j) && j < |steps|
    ensures Links(states[j], states[j + 1], id)
  {
    CalmRunKeepsInv(states, steps, j);
    StepLinks(states[j], states[j + 1], steps[j], id);
  }

  ghost predicate Linked(states: seq<State>, i: nat, j: nat, id: nat) {
    j < |states| && forall k | i <= k < j :: Links(states[k], states[k + 1], id)
  }

  lemma {:induction false} LinkedNumbers(states: seq<State>, i: nat, j: nat, id: nat)
    requires i <= j && Linked(states, i, j, id)
    ensures states[i].floor.nextTask <= states[j].floor.nextTask
  {
    if i < j {
      LinkedNumbers(states, i, j - 1, id);
      assert Links(states[j - 1], states[j - 1 + 1], id);
    }
  }

  lemma {:induction false} LinkedStaysSealed(states: seq<State>, i: nat, j: nat, id: nat)
    requires i <= j && Linked(states, i, j, id)
    requires id < states[i].floor.nextTask && Sealed(states[i], id) && id in states[j].floor.tasks
    ensures Sealed(states[j], id)
  {
    if i < j {
      LinkedNumbers(states, i, j - 1, id);
      assert Links(states[j - 1], states[j - 1 + 1], id);
      LinkedStaysSealed(states, i, j - 1, id);
    }
  }

  lemma RunIsLinked(states: seq<State>, steps: seq<Step>, i: nat, j: nat, id: nat)
    requires CalmUntil(states, steps, j)
    ensures Linked(states, i, j, id)
  {
    forall k | i <= k < j ensures Links(states[k], states[k + 1], id) {
      RunLinks(states, steps, k, id);
    }
  }

  lemma WaitingIsSealed(s: State, id: nat)
    requires FullInv(s) && id in s.floor.tasks && s.floor.tasks[id].pc == CandidateWait
    ensures Sealed(s, id)
  {
    assert KindOfTask(s.floor.tasks[id]);
    assert PhaseFits(s.floor.tasks[id].pc, PhaseOf(s.controls, s.floor.tasks[id].entry.control));
  }

  lemma SealedBlocksServing(f: Floor, cs: Controls, id: nat, other: nat)
    requires PrimariesAway(f) && ConcurrentAway(f) && ConcurrentTasksInFlight(f)
    requires id in f.tasks && f.tasks[id].Primary? && PhaseOf(cs, f.tasks[id].entry.control) == CandidateOpen
    requires TaskEnabled(f, cs, StartServing(other))
    ensures f.tasks[other].target != f.tasks[id].target
  {
  }

  /** Once a workflow has set the candidate phase, no serving Open of its target starts until it is joined. */
  lemma NoServingOpenBesideCandidate(states: seq<State>, steps: seq<Step>, i: nat, j: nat, id: nat, other: nat)
    requires CalmUntil(states, steps, j) && i <= j < |steps|
    requires id in states[i].floor.tasks && states[i].floor.tasks[id].pc == CandidateWait
    requires id in states[j].floor.tasks && steps[j] == Work(StartServing(other))
    ensures other in states[j].floor.tasks && states[j].floor.tasks[other].target != states[j].floor.tasks[id].target
  {
    CalmRunKeepsInv(states, steps, i);
    WaitingIsSealed(states[i], id);
    SealedIsNumbered(states[i], id);
    RunIsLinked(states, steps, i, j, id);
    LinkedStaysSealed(states, i, j, id);
    CalmRunKeepsInv(states, steps, j);
    SealedBlocksServing(states[j].floor, states[j].controls, id, other);
  }

  // ----- Placement -----

  predicate Running(f: Floor, t: TermCampusKey) {
    exists id | id in f.tasks :: f.tasks[id].Primary? && f.tasks[id].target == t
  }

  function Places(s: State, t: TermCampusKey): nat {
    (if t in s.desk.idle then 1 else 0) + (if Running(s.floor, t) then 1 else 0)
      + (if t in s.floor.pending then 1 else 0)
  }

  // ----- A serving Open may run beside the Catalog -----

  /** The primary workflow is fetching or processing a Catalog. */
  predicate OnCatalog(f: Floor, id: nat) {
    id in f.tasks && f.tasks[id].Primary? && f.tasks[id].pc in {Fetching, Processing}
  }

  lemma PhaseBeside(f: Floor, cs: Controls, id: nat)
    requires FloorOwns(f, cs) && PrimaryPhases(f, cs)
    requires id in f.tasks && f.tasks[id].Primary? && f.tasks[id].pc != Finished
    ensures var c := f.tasks[id].entry.control;
            c in cs.all && (AllowsServingOpen(cs.all[c].phase) <==> OnCatalog(f, id))
  {
    assert f.tasks[id].ControlId() in cs.all;
    assert PhaseFits(f.tasks[id].pc, PhaseOf(cs, f.tasks[id].entry.control)) && KindOfTask(f.tasks[id]);
  }

  lemma SameControl(f: Floor, id: nat, other: nat)
    requires PrimariesAway(f) && ConcurrentAway(f) && ConcurrentTasksInFlight(f)
    requires id in f.tasks && f.tasks[id].Primary? && other in f.tasks && f.tasks[other].Concurrent?
    requires f.tasks[other].target == f.tasks[id].target
    ensures f.tasks[other].guard == f.tasks[id].entry.control
  {
  }

  /**
    Beside a primary workflow that has not finished, a concurrent Open of its target that holds the gate
    may start to pull exactly while the workflow is fetching or processing.
   */
  lemma ServingExactly(states: seq<State>, steps: seq<Step>, i: nat, id: nat, other: nat)
    requires CalmUntil(states, steps, i) && id in states[i].floor.tasks && other in states[i].floor.tasks
    requires var f := states[i].floor;
             && f.tasks[id].Primary? && f.tasks[id].pc != Finished
             && f.tasks[other].Concurrent? && f.tasks[other].pc == HoldsGate
             && f.tasks[other].target == f.tasks[id].target
    ensures Enabled(states[i], Work(StartServing(other))) <==> OnCatalog(states[i].floor, id)
  {
    CalmRunKeepsInv(states, steps, i);
    ServesHere(states[i].floor, states[i].controls, id, other);
  }

  lemma ServesHere(f: Floor, cs: Controls, id: nat, other: nat)
    requires Placed(f) && Phased(f, cs)
    requires id in f.tasks && f.tasks[id].Primary? && f.tasks[id].pc != Finished
    requires other in f.tasks && f.tasks[other].Concurrent? && f.tasks[other].pc == HoldsGate
    requires f.tasks[other].target == f.tasks[id].target
    ensures TaskEnabled(f, cs, StartServing(other)) <==> OnCatalog(f, id)
  {
    PhaseBeside(f, cs, id);
    SameControl(f, id, other);
  }

  lemma CalmIsReachable(states: seq<State>, steps: seq<Step>, i: nat)
    requires CalmUntil(states, steps, i)
    ensures Reachable(states[i])
  {
    assert Run(states[..i + 1], steps[..i]) && states[..i + 1][|steps[..i]|] == states[i];
  }

  /** The concurrent Open of the workflow's target waits, its gate is free, and there is room for it. */
  predicate ServingWaits(s: State, id: nat) {
    && OnCatalog(s.floor, id) && s.floor.tasks[id].target in s.floor.concurrent
    && !s.floor.concurrent[s.floor.tasks[id].target].inFlight && |s.floor.tasks| < 3
    && s.floor.tasks[id].entry.control in s.controls.all
    && s.controls.all[s.floor.tasks[id].entry.control].gate == None
  }

  lemma ServingIsDispatched(s: State, id: nat) returns (s': State)
    requires Inv(s) && ServingWaits(s, id) && Reachable(s)
    ensures Reachable(s') && s'.controls == s.controls && id < s.floor.nextTask
    ensures s'.floor.tasks == s.floor.tasks[s.floor.nextTask :=
                                Concurrent(s.floor.tasks[id].target, s.floor.tasks[id].entry.control, WaitGate)]
  {
    var t := s.floor.tasks[id].target;
    PhaseBeside(s.floor, s.controls, id);
    assert s.floor.concurrent[t].control == s.floor.tasks[id].entry.control;
    ReachableStep(s, Loop(DispatchConcurrent(t)));
    s' := After(s, Loop(DispatchConcurrent(t)));
  }

  lemma ServingStarts(s: State, n: nat) returns (s': State)
    requires Reachable(s) && n in s.floor.tasks && s.floor.tasks[n].Concurrent? && s.floor.tasks[n].pc == WaitGate
    requires var c := s.floor.tasks[n].guard;
             c in s.controls.all && s.controls.all[c].gate == None && AllowsServingOpen(s.controls.all[c].phase)
    ensures Reachable(s')
    ensures var x := s.floor.tasks[n]; s'.floor.tasks == s.floor.tasks[n := Concurrent(x.target, x.guard, ServingPull)]
  {
    ReachableStep(s, Work(TakeGate(n)));
    var s1 := After(s, Work(TakeGate(n)));
    assert s1.floor.tasks[n] == Concurrent(s.floor.tasks[n].target, s.floor.tasks[n].guard, HoldsGate);
    ReachableStep(s1, Work(StartServing(n)));
    s' := After(s1, Work(StartServing(n)));
  }

  /** A waiting concurrent Open is pulling three steps later, and the workflow is still where it was. */
  lemma ServingBesideCatalog(states: seq<State>, steps: seq<Step>, i: nat, id: nat) returns (s': State)
    requires CalmUntil(states, steps, i) && ServingWaits(states[i], id)
    ensures Reachable(s') && id in s'.floor.tasks && s'.floor.tasks[id] == states[i].floor.tasks[id]
    ensures Pulls(s'.floor, states[i].floor.nextTask, states[i].floor.tasks[id].target)
  {
    CalmRunKeepsInv(states, steps, i);
    CalmIsReachable(states, steps, i);
    s' := ServingPulls(states[i], id);
  }

  lemma ServingPulls(s: State, id: nat) returns (s': State)
    requires Inv(s) && ServingWaits(s, id) && Reachable(s)
    ensures Reachable(s') && id in s'.floor.tasks && s'.floor.tasks[id] == s.floor.tasks[id]
    ensures Pulls(s'.floor, s.floor.nextTask, s.floor.tasks[id].target)
  {
    s' := ServingIsDispatched(s, id);
    PhaseBeside(s.floor, s.controls, id);
    s' := ServingStarts(s', s.floor.nextTask);
  }

  /** A dispatch for the Catalog of a watched target, and no other, leaves a concurrent Open waiting. */
  lemma WatchedWaits(states: seq<State>, steps: seq<Step>, i: nat, t: TermCampusKey, hint: Kind, watched: bool)
    requires CalmUntil(states, steps, i) && i < |steps| && steps[i] == Loop(Dispatch(t, hint, watched))
    ensures var f := states[i + 1].floor;
            && (t in f.concurrent <==> hint == Catalog && watched)
            && (t in f.concurrent ==>
                  !f.concurrent[t].inFlight && f.concurrent[t].control == states[i].desk.idle[t].control)
  {
    CalmRunKeepsInv(states, steps, i);
    assert t !in states[i].floor.away;
  }

  /** A concurrent Open that ends while its workflow runs leaves the next one waiting. */
  lemma ServingRepeats(states: seq<State>, steps: seq<Step>, i: nat, id: nat)
    requires CalmUntil(states, steps, i) && i < |steps| && steps[i] == Loop(JoinConcurrent(id))
    ensures var f, t := states[i + 1].floor, states[i].floor.tasks[id].target;
            t !in states[i].floor.pending ==> t in f.concurrent && !f.concurrent[t].inFlight
  {
    CalmRunKeepsInv(states, steps, i);
    assert states[i].floor.tasks[id].target in states[i].floor.concurrent;
  }

  /** A task has finished exactly when it had before or this step ends it. */
  lemma OnlyFinishFinishes(s: State, step: Step, id: nat)
    requires Enabled(s, step) && id in s.floor.tasks && id in After(s, step).floor.tasks && id < s.floor.nextTask
    ensures After(s, step).floor.tasks[id].pc == Finished <==>
              s.floor.tasks[id].pc == Finished || step == Work(Finish(id))
  {
  }

  /** Registering and activating send a command exactly when they change something, and never more than one. */
  lemma CallsAreTerse(h: HandleState, step: HandleStep)
    requires HandleEnabled(h, step)
    ensures |AfterCall(h, step).1| <= 1
    ensures step.CallRegister? || step.CallActivate? ==> (AfterCall(h, step).1 == [] <==> AfterCall(h, step).0 == h)
    ensures step.CallRegister? && AfterCall(h, step).0 == h ==>
              step.target in h.modes && h.modes[step.target] == step.manual
  {
    if step.CallRegister? && !(step.target in h.modes && h.modes[step.target] == step.manual) {
      assert AfterCall(h, step).0.modes != h.modes;
    }
  }

  /**
    A target with a mode has its coordinator in exactly one place, and no target has one in two. A
    completion is deferred exactly while its concurrent Open is in flight. At most three tasks run.
   */
  lemma SupervisorPlacement(states: seq<State>, steps: seq<Step>, i: nat, t: TermCampusKey)
    requires CalmUntil(states, steps, i)
    ensures var s := states[i];
            && Places(s, t) <= 1
            && (ModeOf(s.desk, s.floor.away, t).Some? ==> Places(s, t) == 1)
            && (forall a, b | a in s.floor.tasks && b in s.floor.tasks && s.floor.tasks[a].Primary?
               && s.floor.tasks[b].Primary?
                              && s.floor.tasks[a].target == s.floor.tasks[b].target :: a == b)
            && (t in s.floor.pending <==>
                t in s.floor.concurrent && s.floor.concurrent[t].inFlight && !Running(s.floor, t))
            && |s.floor.tasks| <= REFRESH_MAX_CONCURRENCY
  {
    CalmRunKeepsInv(states, steps, i);
    RunningIsAway(states[i].floor, t);
  }

  lemma RunningIsAway(f: Floor, t: TermCampusKey)
    requires PrimariesAway(f) && AwayRuns(f) && PendingAway(f)
    ensures Running(f, t) <==> t in f.away && t !in f.pending
  {
    if t in f.away && t !in f.pending {
      assert RunsPrimary(f, t);
    }
    if id :| id in f.tasks && f.tasks[id].Primary? && f.tasks[id].target == t {
      assert f.away[t].task == id;
    }
  }

  /** The coordinator is not at rest, and if it is away it will be dropped when it comes back. */
  predicate Gone(s: State, t: TermCampusKey) {
    t !in s.desk.idle && (t in s.floor.away ==> t in s.desk.removed)
  }

  /** The step takes up a registration of `t`. */
  predicate Registers(s: State, step: Step, t: TermCampusKey) {
    step == Loop(Process) && s.queue != [] && s.queue[0].Register? && s.queue[0].target == t
  }

  lemma StaysGone(s: State, s': State, step: Step, t: TermCampusKey)
    requires FullInv(s) && Enabled(s, step) && Gone(s, t) && !Registers(s, step, t) && s' == After(s, step)
    ensures Gone(s', t)
  {
    assert AgreesOn(s, t) && ModeOf(s.desk, s.floor.away, t) == None;
    if step == Loop(Process) {
      CommandApplies(s.desk, s.floor.away, s.queue[0], s.controls.next, t);
    } else if step.Loop? {
      LoopKeepsView(s, step.loop, t);
    }
    assert ModeOf(s'.desk, s'.floor.away, t) == None;
  }

  lemma RunStaysGone(states: seq<State>, steps: seq<Step>, j: nat, t: TermCampusKey)
    requires CalmUntil(states, steps, j + 1) && Gone(states[j], t) && !Registers(states[j], steps[j], t)
    ensures Gone(states[j + 1], t)
  {
    CalmRunKeepsInv(states, steps, j);
    StaysGone(states[j], states[j + 1], steps[j], t);
  }

  /** A target removed while away is never put back: it rests again only after a new registration. */
  lemma {:induction false} RemovedNeverReturns(states: seq<State>, steps: seq<Step>, i: nat, j: nat, t: TermCampusKey)
    requires CalmUntil(states, steps, j) && i <= j && t in states[i].desk.removed
    requires forall k | i <= k < j :: !Registers(states[k], steps[k], t)
    ensures Gone(states[j], t)
  {
    if i == j {
      CalmRunKeepsInv(states, steps, i);
      RemovedIsGone(states[i], t);
    } else {
      RemovedNeverReturns(states, steps, i, j - 1, t);
      RunStaysGone(states, steps, j - 1, t);
    }
  }

  lemma RemovedIsGone(s: State, t: TermCampusKey)
    requires FullInv(s) && t in s.desk.removed
    ensures Gone(s, t)
  {
  }

  // ----- Placement holds exactly in calm runs -----

  /** What the handle sends makes the mark of a removed target say that its coordinator is away. */
  lemma RemovedMeansAway(s: State)
    requires FullInv(s) && s.queue != [] && s.queue[0].Register?
    ensures s.queue[0].target !in s.desk.idle
    ensures s.queue[0].target in s.desk.removed <==> s.queue[0].target in s.floor.away
  {
    assert AgreesOn(s, s.queue[0].target);
  }

  /** A hasty registration puts a second coordinator beside the one that is still away. */
  lemma HastyStepDoubles(s: State, step: Step)
    requires FullInv(s) && Enabled(s, step) && !Calm(s, step)
    ensures Places(After(s, step), s.queue[0].target) >= 2
  {
    RemovedMeansAway(s);
    var t := s.queue[0].target;
    if t !in s.floor.pending {
      assert RunsPrimary(s.floor, t);
    }
  }

  lemma PlacedStepIsCalm(s: State, s': State, step: Step)
    requires FullInv(s) && Enabled(s, step) && s' == After(s, step) && forall t :: Places(s', t) <= 1
    ensures Calm(s, step)
  {
    if !Calm(s, step) {
      HastyStepDoubles(s, step);
    }
  }

  lemma {:induction false} PlacedIsCalm(states: seq<State>, steps: seq<Step>, n: nat)
    requires Run(states, steps) && n < |states|
    requires forall i, t | 0 <= i < |states| :: Places(states[i], t) <= 1
    ensures CalmUntil(states, steps, n)
  {
    if n > 0 {
      PlacedIsCalm(states, steps, n - 1);
      CalmRunKeepsInv(states, steps, n - 1);
      PlacedStepIsCalm(states[n - 1], states[n], steps[n - 1]);
    }
  }

  /** Every coordinator stays in one place exactly in the runs that register no target still marked removed. */
  lemma PlacementIffCalm(states: seq<State>, steps: seq<Step>)
    requires Run(states, steps)
    ensures CalmRun(states, steps) <==> forall i, t | 0 <= i < |states| :: Places(states[i], t) <= 1
  {
    if forall i, t | 0 <= i < |states| :: Places(states[i], t) <= 1 {
      PlacedIsCalm(states, steps, |steps|);
    } else if CalmRun(states, steps) {
      forall i, t | 0 <= i < |states| ensures Places(states[i], t) <= 1 {
        SupervisorPlacement(states, steps, i, t);
      }
    }
  }

  // ----- Why the run has to be calm -----

  ghost predicate Reachable(s: State) {
    exists states, steps :: Run(states, steps) && states[|steps|] == s
  }

  lemma ExtendRun(states: seq<State>, steps: seq<Step>, step: Step, s': State)
    requires Run(states, steps) && Enabled(states[|steps|], step) && s' == After(states[|steps|], step)
    ensures Run(states + [s'], steps + [step])
  {
    var states', steps' := states + [s'], steps + [step];
    forall i | 0 <= i < |steps'|
      ensures Enabled(states'[i], steps'[i]) && states'[i + 1] == After(states'[i], steps'[i]) {
      if i < |steps| {
        assert states'[i] == states[i] && steps'[i] == steps[i] && states'[i + 1] == states[i + 1];
      } else {
        assert states'[i] == states[|steps|] && steps'[i] == step && states'[i + 1] == s';
      }
    }
  }

  lemma ReachableStep(s: State, step: Step)
    requires Reachable(s) && Enabled(s, step)
    ensures Reachable(After(s, step))
  {
    var states, steps :| Run(states, steps) && states[|steps|] == s;
    ExtendRun(states, steps, step, After(s, step));
    assert (states + [After(s, step)])[|steps + [step]|] == After(s, step);
  }

  /** A runtime started with one automatic target. */
  function Started(t: TermCampusKey): State {
    State(HandleState(map[t := false], {}), [], Desk(map[t := Entry(false, false, 0)], {}, map[], {}),
          Floor(map[], map[], 0, map[], map[]), Controls(map[0 := Control(t, Idle, None)], 1))
  }

  lemma StartsOpen(s: State, id: nat) returns (s': State)
    requires Reachable(s) && id in s.floor.tasks && s.floor.tasks[id].Primary? && s.floor.tasks[id].pc == NotStarted
    requires s.floor.tasks[id].entry.control in s.controls.all
    ensures Reachable(s')
    ensures var task := s.floor.tasks[id];
            s' == s.(floor := s.floor.(tasks := s.floor.tasks[id := Primary(task.target, task.entry, task.hint,
                OpenPull)]))
  {
    ReachableStep(s, Work(StartOpen(id)));
    s' := After(s, Work(StartOpen(id)));
    var c := s.floor.tasks[id].entry.control;
    assert s.controls.all[c := s.controls.all[c]] == s.controls.all;
  }

  /** The coordinator of `t` is dispatched for an Open job and executes it. */
  lemma DispatchOpen(s: State, t: TermCampusKey) returns (s': State)
    requires Reachable(s) && t in s.desk.idle && |s.floor.tasks| < REFRESH_MAX_CONCURRENCY
    requires s.desk.idle[t].control in s.controls.all
    ensures Reachable(s')
    ensures var f, e, n := s.floor, s.desk.idle[t], s.floor.nextTask;
            s' == s.(desk := s.desk.(idle := s.desk.idle - {t}),
                     floor := f.(away := f.away[t := Away(e, n)], tasks := f.tasks[n := Primary(t, e, Open, OpenPull)],
                         nextTask := n + 1))
  {
    var s1 := DispatchedOpen(s, t);
    s' := StartsOpen(s1, s.floor.nextTask);
  }

  lemma DispatchedOpen(s: State, t: TermCampusKey) returns (s': State)
    requires Reachable(s) && t in s.desk.idle && |s.floor.tasks| < REFRESH_MAX_CONCURRENCY
    ensures Reachable(s')
    ensures var f, e, n := s.floor, s.desk.idle[t], s.floor.nextTask;
            s' == s.(desk := s.desk.(idle := s.desk.idle - {t}),
                     floor := f.(away := f.away[t := Away(e, n)],
                         tasks := f.tasks[n := Primary(t, e, Open, NotStarted)],
                                 nextTask := n + 1))
  {
    ReachableStep(s, Loop(Dispatch(t, Open, false)));
    s' := AfterLoop(s, Dispatch(t, Open, false));
  }

  /** A call on the handle whose one command the supervisor takes up at once. */
  lemma CallAndProcess(s: State, call: HandleStep) returns (s': State)
    requires Reachable(s) && s.queue == [] && HandleEnabled(s.handle, call) && AfterCall(s.handle, call).1 != []
    ensures Reachable(s')
    ensures var cmd := AfterCall(s.handle, call).1[0];
            s' == s.(handle := AfterCall(s.handle, call).0, desk := DeskAfter(s.desk, cmd, s.controls.next),
                     controls := ControlsRegistered(s.controls, s.desk, cmd))
  {
    var cmd := AfterCall(s.handle, call).1[0];
    ReachableStep(s, Handle(call));
    s' := After(s, Handle(call));
    assert s'.queue == [cmd];
    ReachableStep(s', Loop(Process));
    s' := AfterLoop(s', Process);
    assert [cmd][1..] == [];
  }

  function FirstTask(t: TermCampusKey): Task {
    Primary(t, Entry(false, false, 0), Open, OpenPull)
  }

  /** The coordinator of the one target is pulling. */
  lemma PullingAlone(t: TermCampusKey) returns (s: State)
    ensures Reachable(s)
    ensures s == Started(t).(desk := Desk(map[], {}, map[], {}),
                             floor := Floor(map[t := Away(Entry(false, false, 0), 0)], map[0 := FirstTask(t)], 1,
                                 map[], map[]))
  {
    s := Started(t);
    var none: seq<Step> := [];
    assert Run([s], none) && [s][|none|] == s;
    s := DispatchOpen(s, t);
    assert s.desk.idle == map[];
  }

  /** A target is removed while its coordinator is pulling. */
  lemma RemovedWhileAway(t: TermCampusKey) returns (s: State)
    ensures Reachable(s)
    ensures s == Started(t).(handle := HandleState(map[], {}), desk := Desk(map[], {t}, map[], {}),
                             floor := Floor(map[t := Away(Entry(false, false, 0), 0)], map[0 := FirstTask(t)], 1,
                                 map[], map[]))
  {
    var s0 := PullingAlone(t);
    s := CallAndProcess(s0, CallRemove(t));
    assert s.handle == HandleState(map[], {}) && s.desk == Desk(map[], {t}, map[], {});
  }

  /** Registering a target again while its old workflow runs lets two Open pulls of it overlap. */
  lemma HastyRegistrationPullsTwice(t: TermCampusKey) returns (s: State)
    ensures Reachable(s) && Pulls(s.floor, 0, t) && Pulls(s.floor, 1, t)
    ensures s.handle == HandleState(map[t := false], {}) && s.queue == [] && s.desk == Desk(map[], {t}, map[], {})
    ensures s.floor.tasks == map[0 := FirstTask(t), 1 := Primary(t, Entry(false, false, 1), Open, OpenPull)]
    ensures s.floor.nextTask == 2 && s.floor.pending == map[] && s.floor.concurrent == map[]
    ensures s.controls == Controls(map[0 := Control(t, Idle, None), 1 := Control(t, Idle, None)], 2)
  {
    s := RemovedWhileAway(t);
    var s1 := CallAndProcess(s, CallRegister(t, false));
    assert s1.desk == Desk(map[t := Entry(false, false, 1)], {t}, map[], {});
    SmallMap(s1.floor.tasks, 0);
    s := DispatchOpen(s1, t);
    assert s.desk.idle == map[];
  }

  lemma SmallMap(m: map<nat, Task>, k: nat)
    requires m.Keys == {k}
    ensures |m| == 1
  {
    assert |m| == |m.Keys|;
  }

  /** A pulling primary task ends and is joined. */
  lemma FinishAndJoin(s: State, id: nat) returns (s': State)
    requires Reachable(s) && id in s.floor.tasks && s.floor.tasks[id].Primary? && s.floor.tasks[id].pc == OpenPull
    requires s.floor.tasks[id].entry.control in s.controls.all && s.floor.concurrent == map[]
    ensures Reachable(s') && s'.handle == s.handle && s'.queue == s.queue && s'.floor.concurrent == map[]
    ensures s'.desk == Return(s.desk, s.floor.tasks[id].target, s.floor.tasks[id].entry)
    ensures s'.floor.tasks == s.floor.tasks - {id} && s'.controls.all.Keys == s.controls.all.Keys
  {
    ReachableStep(s, Work(Finish(id)));
    s' := After(s, Work(Finish(id)));
    assert s'.floor.tasks - {id} == s.floor.tasks - {id};
    ReachableStep(s', Loop(JoinPrimary(id)));
    s' := AfterLoop(s', JoinPrimary(id));
  }

  /** Two removals in that window share one mark: the first coordinator to return uses it up, the second stays. */
  lemma HastyRemovalIsLost(t: TermCampusKey) returns (s: State)
    ensures Reachable(s) && s.queue == [] && t in s.desk.idle && t !in s.handle.modes
  {
    var s0 := HastyRegistrationPullsTwice(t);
    var s1 := CallAndProcess(s0, CallRemove(t));
    assert s1.desk == Desk(map[], {t}, map[], {});
    var s2 := FinishAndJoin(s1, 0);
    assert s2.desk.removed == {};
    s := FinishAndJoin(s2, 1);
  }
}
