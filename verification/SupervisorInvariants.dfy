/**
  What every calm run of the refresh supervisor keeps: where each coordinator is, which task holds
  which gate, and how the phase flag follows the primary workflow.
 */
module SupervisorInvariants {
  import opened Common
  import opened Supervisor

  // ----- Placement of the workflows under way -----

  ghost predicate RunsPrimary(f: Floor, t: TermCampusKey) {
    t in f.away && f.away[t].task in f.tasks && f.tasks[f.away[t].task].Primary? && f.tasks[f.away[t].task].target == t
  }

  /** The one primary task of a target carries the coordinator that went away. */
  ghost predicate PrimariesAway(f: Floor) {
    forall id | id in f.tasks && f.tasks[id].Primary? ::
      f.tasks[id].target in f.away && f.away[f.tasks[id].target] == Away(f.tasks[id].entry, id)
  }

  /** An absent coordinator is running unless its completion is deferred. */
  ghost predicate AwayRuns(f: Floor) {
    forall t | t in f.away && t !in f.pending :: RunsPrimary(f, t)
  }

  ghost predicate PendingAway(f: Floor) {
    forall t | t in f.pending :: t in f.away && f.away[t].entry == f.pending[t] && f.away[t].task !in f.tasks
  }

  ghost predicate TasksNumbered(f: Floor) {
    && (forall id | id in f.tasks :: id < f.nextTask)
    && (forall t | t in f.away :: f.away[t].task < f.nextTask)
  }

  /** A concurrent Open belongs to a coordinator that is away on a Catalog dispatch. */
  ghost predicate ConcurrentAway(f: Floor) {
    forall t | t in f.concurrent ::
      && t in f.away && f.concurrent[t].control == f.away[t].entry.control
      && (t !in f.pending ==>
            f.away[t].task in f.tasks && f.tasks[f.away[t].task].Primary? && f.tasks[f.away[t].task].hint == Catalog)
  }

  ghost predicate InFlightRuns(f: Floor) {
    forall t | t in f.concurrent && f.concurrent[t].inFlight ::
      && f.concurrent[t].task in f.tasks && f.tasks[f.concurrent[t].task].Concurrent?
      && f.tasks[f.concurrent[t].task].target == t
  }

  ghost predicate ConcurrentTasksInFlight(f: Floor) {
    forall id | id in f.tasks && f.tasks[id].Concurrent? ::
      && f.tasks[id].target in f.concurrent
      && f.concurrent[f.tasks[id].target] == ConcurrentOpen(true, f.tasks[id].guard, id)
  }

  /** A completion is deferred only while its concurrent Open is in flight. */
  ghost predicate DeferredWaits(f: Floor) {
    forall t | t in f.pending :: t in f.concurrent && f.concurrent[t].inFlight
  }

  ghost predicate PrimariesPlaced(f: Floor) {
    PrimariesAway(f) && AwayRuns(f) && PendingAway(f) && TasksNumbered(f)
  }

  ghost predicate ConcurrentPlaced(f: Floor) {
    ConcurrentAway(f) && InFlightRuns(f) && ConcurrentTasksInFlight(f) && DeferredWaits(f)
  }

  ghost predicate Placed(f: Floor) {
    PrimariesPlaced(f) && ConcurrentPlaced(f)
  }

  /** A coordinator at rest is not away, and the marks left for later concern coordinators that are. */
  ghost predicate DeskFits(d: Desk, f: Floor) {
    && (forall t | t in d.idle :: t !in f.away)
    && (forall t | t in d.removed :: t in f.away)
    && (forall t | t in d.reclassified :: t in f.away && t !in d.removed)
  }

  // ----- Controls -----

  ghost predicate Owns(cs: Controls, t: TermCampusKey, c: nat) {
    c in cs.all && cs.all[c].owner == t
  }

  ghost predicate DeskOwns(d: Desk, cs: Controls) {
    forall t | t in d.idle :: Owns(cs, t, d.idle[t].control)
  }

  ghost predicate FloorOwns(f: Floor, cs: Controls) {
    && (forall t | t in f.away :: Owns(cs, t, f.away[t].entry.control))
    && (forall id | id in f.tasks :: f.tasks[id].ControlId() in cs.all)
  }

  ghost predicate ControlsNumbered(cs: Controls) {
    forall c | c in cs.all :: c < cs.next
  }

  predicate KindOfTask(task: Task) {
    if task.Primary? then task.pc !in {WaitGate, HoldsGate, ServingPull}
    else task.pc in {WaitGate, HoldsGate, ServingPull, Finished}
  }

  /** What the phase flag says while a primary workflow is at a given point. */
  predicate PhaseFits(pc: Pc, phase: Phase) {
    match pc
    case NotStarted => phase == Idle
    case OpenPull => phase == Idle
    case Fetching => phase == CatalogFetch
    case Processing => phase == CatalogProcess
    case CandidateWait => phase == CandidateOpen
    case CandidatePull => phase == CandidateOpen
    case _ => true
  }

  function PhaseOf(cs: Controls, c: nat): Phase {
    if c in cs.all then cs.all[c].phase else Idle
  }

  ghost predicate DeskIdle(d: Desk, cs: Controls) {
    forall t | t in d.idle :: PhaseOf(cs, d.idle[t].control) == Idle
  }

  ghost predicate DeferredIdle(f: Floor, cs: Controls) {
    forall t | t in f.pending :: PhaseOf(cs, f.pending[t].control) == Idle
  }

  ghost predicate PrimaryPhases(f: Floor, cs: Controls) {
    && (forall id | id in f.tasks :: KindOfTask(f.tasks[id]))
    && (forall id | id in f.tasks
       && f.tasks[id].Primary? :: PhaseFits(f.tasks[id].pc, PhaseOf(cs, f.tasks[id].entry.control)))
  }

  /** Beside a concurrent Open the primary workflow is past its choice of job, and chose the Catalog. */
  ghost predicate BesideCatalog(f: Floor) {
    forall id | id in f.tasks && f.tasks[id].Primary? && f.tasks[id].target in f.concurrent
      && f.concurrent[f.tasks[id].target].inFlight ::
      f.tasks[id].pc !in {NotStarted, OpenPull}
  }

  /** A gate names its holder, and exactly those past their wait hold one. */
  ghost predicate GatesHeld(f: Floor, cs: Controls) {
    && (forall c | c in cs.all && cs.all[c].gate.Some? ::
          && cs.all[c].gate.value in f.tasks && HoldingGate(f.tasks[cs.all[c].gate.value].pc)
          && f.tasks[cs.all[c].gate.value].ControlId() == c)
    && (forall id | id in f.tasks && HoldingGate(f.tasks[id].pc) ::
          f.tasks[id].ControlId() in cs.all && cs.all[f.tasks[id].ControlId()].gate == Some(id))
  }

  ghost predicate Phased(f: Floor, cs: Controls) {
    FloorOwns(f, cs) && ControlsNumbered(cs) && DeferredIdle(f, cs) && PrimaryPhases(f, cs) && BesideCatalog(f)
      && GatesHeld(f, cs)
  }

  ghost predicate DeskInv(d: Desk, f: Floor, cs: Controls) {
    DeskFits(d, f) && DeskOwns(d, cs) && DeskIdle(d, cs)
  }

  ghost predicate Inv(s: State) {
    && Placed(s.floor) && Phased(s.floor, s.controls) && DeskInv(s.desk, s.floor, s.controls)
    && |s.floor.tasks| <= REFRESH_MAX_CONCURRENCY
  }

  lemma InvInit(s: State)
    requires Init(s)
    ensures Inv(s)
  {
  }

  // ----- Task steps -----

  /** One task moves to `pc`, leaving its control as `control`. */
  ghost predicate Moves(f: Floor, cs: Controls, f': Floor, cs': Controls, id: nat, pc: Pc, control: Control) {
    && id in f.tasks && f.tasks[id].ControlId() in cs.all
    && f' == f.(tasks := f.tasks[id := f.tasks[id].(pc := pc)])
    && cs' == cs.(all := cs.all[f.tasks[id].ControlId() := control])
    && control.owner == cs.all[f.tasks[id].ControlId()].owner
  }

  /** The moves a task can make: the phase follows its program counter, the gate its holder. */
  ghost predicate Allowed(f: Floor, cs: Controls, id: nat, pc: Pc, control: Control)
    requires id in f.tasks && f.tasks[id].ControlId() in cs.all
  {
    var task, was := f.tasks[id], cs.all[f.tasks[id].ControlId()];
    && KindOfTask(task.(pc := pc))
    && (if task.Primary? then PhaseFits(pc, control.phase) else control.phase == was.phase)
    && (if HoldingGate(pc) then control.gate == Some(id) && (was.gate == None || was.gate == Some(id))
        else control.gate == if HoldingGate(task.pc) then None else was.gate)
    && (task.Primary? && pc in {NotStarted, OpenPull} ==> task.pc == NotStarted)
  }

  lemma MoveKeepsAway(f: Floor, f': Floor, id: nat, pc: Pc)
    requires PrimariesAway(f) && PendingAway(f) && id in f.tasks
             && f' == f.(tasks := f.tasks[id := f.tasks[id].(pc := pc)])
    ensures PrimariesAway(f') && PendingAway(f')
  {
  }

  lemma MoveKeepsRuns(f: Floor, f': Floor, id: nat, pc: Pc)
    requires AwayRuns(f) && id in f.tasks && f' == f.(tasks := f.tasks[id := f.tasks[id].(pc := pc)])
    ensures AwayRuns(f')
  {
  }

  lemma MoveKeepsConcurrent(f: Floor, f': Floor, id: nat, pc: Pc)
    requires ConcurrentAway(f) && InFlightRuns(f) && id in f.tasks
             && f' == f.(tasks := f.tasks[id := f.tasks[id].(pc := pc)])
    ensures ConcurrentAway(f') && InFlightRuns(f')
  {
  }

  lemma MoveKeepsPlaced(f: Floor, f': Floor, id: nat, pc: Pc)
    requires Placed(f) && id in f.tasks && f' == f.(tasks := f.tasks[id := f.tasks[id].(pc := pc)])
    ensures Placed(f')
  {
    MoveKeepsAway(f, f', id, pc);
    MoveKeepsRuns(f, f', id, pc);
    MoveKeepsConcurrent(f, f', id, pc);
  }

  lemma MoveKeepsOwned(f: Floor, cs: Controls, f': Floor, cs': Controls, id: nat, pc: Pc, control: Control)
    requires FloorOwns(f, cs) && Moves(f, cs, f', cs', id, pc, control)
    ensures FloorOwns(f', cs')
  {
  }

  /** Only a coordinator's own task moves the phase of its control. */
  lemma MoveKeepsPhases(f: Floor, cs: Controls, f': Floor, cs': Controls, id: nat, pc: Pc, control: Control)
    requires PrimariesAway(f) && PendingAway(f) && FloorOwns(f, cs) && DeferredIdle(f, cs) && PrimaryPhases(f, cs)
    requires Moves(f, cs, f', cs', id, pc, control) && Allowed(f, cs, id, pc, control)
    ensures DeferredIdle(f', cs') && PrimaryPhases(f', cs')
  {
  }

  lemma MoveKeepsBeside(f: Floor, cs: Controls, f': Floor, cs': Controls, id: nat, pc: Pc, control: Control)
    requires BesideCatalog(f) && Moves(f, cs, f', cs', id, pc, control) && Allowed(f, cs, id, pc, control)
    ensures BesideCatalog(f')
  {
  }

  lemma MoveKeepsGates(f: Floor, cs: Controls, f': Floor, cs': Controls, id: nat, pc: Pc, control: Control)
    requires GatesHeld(f, cs) && Moves(f, cs, f', cs', id, pc, control) && Allowed(f, cs, id, pc, control)
    ensures GatesHeld(f', cs')
  {
  }

  lemma MoveKeepsPhased(f: Floor, cs: Controls, f': Floor, cs': Controls, id: nat, pc: Pc, control: Control)
    requires PrimariesAway(f) && PendingAway(f) && Phased(f, cs)
    requires Moves(f, cs, f', cs', id, pc, control) && Allowed(f, cs, id, pc, control)
    ensures Phased(f', cs')
  {
    MoveKeepsOwned(f, cs, f', cs', id, pc, control);
    MoveKeepsPhases(f, cs, f', cs', id, pc, control);
    MoveKeepsBeside(f, cs, f', cs', id, pc, control);
    MoveKeepsGates(f, cs, f', cs', id, pc, control);
  }

  /** A working task never touches the control of a coordinator at rest. */
  lemma MoveKeepsDesk(d: Desk, f: Floor, cs: Controls, f': Floor, cs': Controls, id: nat, pc: Pc, control: Control)
    requires PrimariesAway(f) && FloorOwns(f, cs) && DeskInv(d, f, cs)
    requires Moves(f, cs, f', cs', id, pc, control) && Allowed(f, cs, id, pc, control)
    ensures DeskInv(d, f', cs')
  {
  }

  lemma SameSize(tasks: map<nat, Task>, id: nat, task: Task)
    requires id in tasks
    ensures |tasks[id := task]| == |tasks|
  {
    assert tasks[id := task].Keys == tasks.Keys;
  }

  lemma TaskMoves(f: Floor, cs: Controls, step: TaskStep)
    requires TaskEnabled(f, cs, step) && PrimaryPhases(f, cs) && GatesHeld(f, cs)
    ensures var task := f.tasks[step.id];
            var pc, control := PcAfter(step, task), ControlAfter(cs.all[task.ControlId()], step, task);
            && Moves(f, cs, TasksAfter(f, cs, step), ControlsAfter(f, cs, step), step.id, pc, control)
            && Allowed(f, cs, step.id, pc, control)
  {
  }

  lemma MoveKeepsInv(s: State, s': State, id: nat, pc: Pc, control: Control)
    requires Inv(s) && s' == s.(floor := s'.floor, controls := s'.controls)
    requires Moves(s.floor, s.controls, s'.floor, s'.controls, id, pc, control)
             && Allowed(s.floor, s.controls, id, pc, control)
    ensures Inv(s')
  {
    MoveKeepsPlaced(s.floor, s'.floor, id, pc);
    MoveKeepsPhased(s.floor, s.controls, s'.floor, s'.controls, id, pc, control);
    MoveKeepsDesk(s.desk, s.floor, s.controls, s'.floor, s'.controls, id, pc, control);
    SameSize(s.floor.tasks, id, s'.floor.tasks[id]);
  }

  lemma TaskKeepsInv(s: State, step: TaskStep)
    requires Inv(s) && TaskEnabled(s.floor, s.controls, step)
    ensures Inv(After(s, Work(step)))
  {
    var task := s.floor.tasks[step.id];
    TaskMoves(s.floor, s.controls, step);
    MoveKeepsInv(s, After(s, Work(step)), step.id, PcAfter(step, task),
                 ControlAfter(s.controls.all[task.ControlId()], step, task));
  }

  // ----- Commands -----

  /** What a command may assume of its target when it is processed. */
  predicate Fits(d: Desk, f: Floor, cmd: Command) {
    match cmd
    case Register(t, _) => t !in d.idle && t !in f.away
    case Reclassify(t, _) => t in d.idle || (t in f.away && t !in d.removed)
    case RemoveTarget(t) => t in d.idle || t in f.away
    case _ => true
  }

  lemma CommandKeepsDeskFits(d: Desk, f: Floor, cmd: Command, c: nat)
    requires DeskFits(d, f) && Fits(d, f, cmd)
    ensures DeskFits(DeskAfter(d, cmd, c), f)
  {
  }

  lemma CommandKeepsDeskControls(d: Desk, cs: Controls, cmd: Command)
    requires DeskOwns(d, cs) && DeskIdle(d, cs) && ControlsNumbered(cs)
    ensures var d', cs' := DeskAfter(d, cmd, cs.next), ControlsRegistered(cs, d, cmd);
            DeskOwns(d', cs') && DeskIdle(d', cs') && ControlsNumbered(cs')
  {
  }

  /** A fresh control changes nothing for the workflows under way. */
  lemma RegistrationKeepsPhased(f: Floor, cs: Controls, t: TermCampusKey)
    requires PrimariesAway(f) && PendingAway(f) && Phased(f, cs)
    ensures Phased(f, Controls(cs.all[cs.next := Control(t, Idle, None)], cs.next + 1))
  {
  }

  lemma CommandKeepsInv(s: State)
    requires Inv(s) && LoopEnabled(s, Process) && Fits(s.desk, s.floor, s.queue[0])
    ensures Inv(AfterLoop(s, Process))
  {
    CommandKeepsDeskFits(s.desk, s.floor, s.queue[0], s.controls.next);
    CommandKeepsDeskControls(s.desk, s.controls, s.queue[0]);
    RegistrationKeepsPhased(s.floor, s.controls, s.queue[0].target);
  }

  // ----- Dispatch and completion -----

  lemma DispatchKeepsPrimaries(f: Floor, f': Floor, t: TermCampusKey, entry: Entry, hint: Kind, watched: bool)
    requires t !in f.away && PrimariesPlaced(f) && f' == AfterDispatch(f, t, entry, hint, watched)
    ensures PrimariesPlaced(f')
  {
  }

  lemma DispatchKeepsConcurrent(f: Floor, f': Floor, t: TermCampusKey, entry: Entry, hint: Kind, watched: bool)
    requires t !in f.away && TasksNumbered(f) && PendingAway(f) && ConcurrentPlaced(f)
    requires f' == AfterDispatch(f, t, entry, hint, watched)
    ensures ConcurrentPlaced(f')
  {
  }

  lemma DispatchKeepsPhased(f: Floor, f': Floor, cs: Controls, t: TermCampusKey, entry: Entry, hint: Kind,
                            watched: bool)
    requires t !in f.away && TasksNumbered(f) && ConcurrentAway(f) && PrimariesAway(f) && Phased(f, cs)
    requires Owns(cs, t, entry.control) && PhaseOf(cs, entry.control) == Idle
    requires f' == AfterDispatch(f, t, entry, hint, watched)
    ensures Phased(f', cs)
  {
    AddedKeepsGates(f, f', cs, f.nextTask);
  }

  /** A new task holds no gate. */
  lemma AddedKeepsGates(f: Floor, f': Floor, cs: Controls, id: nat)
    requires GatesHeld(f, cs) && id !in f.tasks && f'.tasks.Keys == f.tasks.Keys + {id} && !HoldingGate(f'.tasks[id].pc)
    requires forall i | i in f.tasks :: f'.tasks[i] == f.tasks[i]
    ensures GatesHeld(f', cs)
  {
  }

  lemma DispatchConcurrentKeepsPrimaries(f: Floor, f': Floor, t: TermCampusKey)
    requires PrimariesPlaced(f) && t in f.concurrent && f' == AfterDispatchConcurrent(f, t)
    ensures PrimariesPlaced(f')
  {
  }

  lemma DispatchConcurrentKeepsInFlight(f: Floor, f': Floor, t: TermCampusKey)
    requires TasksNumbered(f) && ConcurrentPlaced(f)
    requires t in f.concurrent && !f.concurrent[t].inFlight && f' == AfterDispatchConcurrent(f, t)
    ensures InFlightRuns(f') && ConcurrentTasksInFlight(f')
  {
  }

  lemma DispatchConcurrentKeepsConcurrent(f: Floor, f': Floor, t: TermCampusKey)
    requires TasksNumbered(f) && ConcurrentPlaced(f)
    requires t in f.concurrent && !f.concurrent[t].inFlight && f' == AfterDispatchConcurrent(f, t)
    ensures ConcurrentPlaced(f')
  {
    DispatchConcurrentKeepsInFlight(f, f', t);
  }

  /** A concurrent Open starts only beside a workflow that is fetching or processing its Catalog. */
  lemma DispatchConcurrentIsBeside(f: Floor, f': Floor, cs: Controls, t: TermCampusKey)
    requires PrimariesAway(f) && TasksNumbered(f) && ConcurrentAway(f) && PrimaryPhases(f, cs) && BesideCatalog(f)
    requires t in f.concurrent && !f.concurrent[t].inFlight
    requires AllowsServingOpen(PhaseOf(cs, f.concurrent[t].control)) && f' == AfterDispatchConcurrent(f, t)
    ensures PrimaryPhases(f', cs) && BesideCatalog(f')
  {
  }

  lemma DispatchConcurrentKeepsPhased(f: Floor, f': Floor, cs: Controls, t: TermCampusKey)
    requires PrimariesAway(f) && TasksNumbered(f) && ConcurrentAway(f) && Phased(f, cs)
    requires t in f.concurrent && !f.concurrent[t].inFlight
    requires AllowsServingOpen(PhaseOf(cs, f.concurrent[t].control)) && f' == AfterDispatchConcurrent(f, t)
    ensures Phased(f', cs)
  {
    DispatchConcurrentIsBeside(f, f', cs, t);
    AddedKeepsGates(f, f', cs, f.nextTask);
  }

  /** The completion of a Catalog workflow is set aside while its concurrent Open is in flight. */
  lemma DeferKeepsPrimaries(f: Floor, f': Floor, id: nat)
    requires PrimariesPlaced(f) && id in f.tasks && Defers(f, f.tasks[id]) && f' == AfterJoinPrimary(f, id)
    ensures PrimariesPlaced(f')
  {
  }

  lemma DeferKeepsConcurrent(f: Floor, f': Floor, id: nat)
    requires AwayRuns(f) && ConcurrentPlaced(f) && id in f.tasks && Defers(f, f.tasks[id])
             && f' == AfterJoinPrimary(f, id)
    ensures ConcurrentPlaced(f')
  {
  }

  lemma JoinKeepsPrimaries(f: Floor, f': Floor, id: nat)
    requires PrimariesPlaced(f) && id in f.tasks && f.tasks[id].Primary? && !Defers(f, f.tasks[id])
    requires f' == AfterJoinPrimary(f, id)
    ensures PrimariesPlaced(f')
  {
  }

  /** A finished workflow that need not wait has no concurrent Open left in flight. */
  lemma JoinedIsAlone(f: Floor, id: nat)
    requires PrimariesAway(f) && PendingAway(f) && ConcurrentAway(f)
    requires id in f.tasks && f.tasks[id].Primary? && !Defers(f, f.tasks[id])
    ensures var t := f.tasks[id].target;
            && t !in f.pending && (t in f.concurrent ==> f.tasks[id].hint == Catalog && !f.concurrent[t].inFlight)
  {
  }

  lemma JoinKeepsConcurrentAway(f: Floor, f': Floor, id: nat)
    requires AwayRuns(f) && ConcurrentAway(f) && id in f.tasks && f.tasks[id].Primary? && !Defers(f, f.tasks[id])
    requires f.tasks[id].target in f.concurrent ==> f.tasks[id].hint == Catalog
    requires f' == AfterJoinPrimary(f, id)
    ensures ConcurrentAway(f')
  {
  }

  lemma JoinKeepsConcurrent(f: Floor, f': Floor, id: nat)
    requires PrimariesAway(f) && AwayRuns(f) && PendingAway(f) && ConcurrentPlaced(f)
    requires id in f.tasks && f.tasks[id].Primary? && !Defers(f, f.tasks[id]) && f' == AfterJoinPrimary(f, id)
    ensures ConcurrentPlaced(f')
  {
    JoinedIsAlone(f, id);
    JoinKeepsConcurrentAway(f, f', id);
    JoinKeepsInFlight(f, f', id);
  }

  lemma JoinKeepsInFlight(f: Floor, f': Floor, id: nat)
    requires InFlightRuns(f) && ConcurrentTasksInFlight(f) && DeferredWaits(f)
    requires id in f.tasks && f.tasks[id].Primary? && !Defers(f, f.tasks[id]) && f' == AfterJoinPrimary(f, id)
    requires f.tasks[id].target !in f.pending
    requires f.tasks[id].target in f.concurrent ==> !f.concurrent[f.tasks[id].target].inFlight
    ensures InFlightRuns(f') && ConcurrentTasksInFlight(f') && DeferredWaits(f')
  {
  }

  lemma JoinPrimaryKeepsPlaced(f: Floor, f': Floor, id: nat)
    requires Placed(f) && id in f.tasks && f.tasks[id].Primary? && f' == AfterJoinPrimary(f, id)
    ensures Placed(f')
  {
    if Defers(f, f.tasks[id]) {
      DeferKeepsPrimaries(f, f', id);
      DeferKeepsConcurrent(f, f', id);
    } else {
      JoinKeepsPrimaries(f, f', id);
      JoinKeepsConcurrent(f, f', id);
    }
  }

  /** The control of a finished workflow returns to Idle, and no other workflow shares it. */
  ghost predicate Rests(f: Floor, cs: Controls, cs': Controls, id: nat) {
    && id in f.tasks && f.tasks[id].Primary? && f.tasks[id].pc == Finished && f.tasks[id].entry.control in cs.all
    && var c := f.tasks[id].entry.control; cs' == cs.(all := cs.all[c := cs.all[c].(phase := Idle)])
  }

  lemma RestKeepsPhases(f: Floor, f': Floor, cs: Controls, cs': Controls, id: nat)
    requires PrimariesAway(f) && PendingAway(f) && FloorOwns(f, cs) && DeferredIdle(f, cs) && PrimaryPhases(f, cs)
    requires Rests(f, cs, cs', id) && f' == AfterJoinPrimary(f, id)
    ensures FloorOwns(f', cs') && DeferredIdle(f', cs') && PrimaryPhases(f', cs')
  {
  }

  lemma RestKeepsGates(f: Floor, f': Floor, cs: Controls, cs': Controls, id: nat)
    requires BesideCatalog(f) && GatesHeld(f, cs) && Rests(f, cs, cs', id) && f' == AfterJoinPrimary(f, id)
    ensures BesideCatalog(f') && GatesHeld(f', cs')
  {
  }

  lemma JoinConcurrentKeepsPrimaries(f: Floor, f': Floor, id: nat)
    requires PrimariesPlaced(f) && id in f.tasks && f.tasks[id].Concurrent? && f' == AfterJoinConcurrent(f, id)
    ensures PrimariesPlaced(f')
  {
  }

  lemma JoinConcurrentKeepsConcurrent(f: Floor, f': Floor, id: nat)
    requires ConcurrentPlaced(f) && id in f.tasks && f.tasks[id].Concurrent? && f' == AfterJoinConcurrent(f, id)
    ensures ConcurrentPlaced(f')
  {
  }

  lemma JoinConcurrentKeepsPhased(f: Floor, f': Floor, cs: Controls, id: nat)
    requires ConcurrentTasksInFlight(f) && Phased(f, cs) && id in f.tasks && f.tasks[id].Concurrent?
             && f.tasks[id].pc == Finished
    requires f' == AfterJoinConcurrent(f, id)
    ensures Phased(f', cs)
  {
  }

  /** A coordinator that comes back leaves no mark behind, and rests with its control at Idle. */
  lemma ReturnKeepsDesk(d: Desk, f: Floor, f': Floor, cs: Controls, t: TermCampusKey, entry: Entry)
    requires DeskInv(d, f, cs) && t in f.away && f'.away == f.away - {t}
    requires Owns(cs, t, entry.control) && PhaseOf(cs, entry.control) == Idle
    ensures DeskInv(Return(d, t, entry), f', cs)
  {
  }

  /** Putting an absent coordinator's control to rest does not concern the coordinators at rest. */
  lemma RestKeepsDesk(d: Desk, f: Floor, cs: Controls, cs': Controls, id: nat)
    requires DeskInv(d, f, cs) && PrimariesAway(f) && FloorOwns(f, cs) && Rests(f, cs, cs', id)
    ensures DeskInv(d, f, cs')
  {
  }

  lemma OneMore(tasks: map<nat, Task>, id: nat, task: Task)
    requires id !in tasks
    ensures |tasks[id := task]| == |tasks| + 1
  {
    assert tasks[id := task].Keys == tasks.Keys + {id};
  }

  lemma OneLess(tasks: map<nat, Task>, id: nat)
    requires id in tasks
    ensures |tasks - {id}| == |tasks| - 1
  {
    assert (tasks - {id}).Keys == tasks.Keys - {id};
  }

  lemma DispatchKeepsInv(s: State, t: TermCampusKey, hint: Kind, watched: bool)
    requires Inv(s) && LoopEnabled(s, Dispatch(t, hint, watched))
    ensures Inv(AfterLoop(s, Dispatch(t, hint, watched)))
  {
    var f, f', entry := s.floor, AfterDispatch(s.floor, t, s.desk.idle[t], hint, watched), s.desk.idle[t];
    DispatchKeepsPrimaries(f, f', t, entry, hint, watched);
    DispatchKeepsConcurrent(f, f', t, entry, hint, watched);
    DispatchKeepsPhased(f, f', s.controls, t, entry, hint, watched);
    OneMore(f.tasks, f.nextTask, Primary(t, entry, hint, NotStarted));
  }

  lemma DispatchConcurrentKeepsInv(s: State, t: TermCampusKey)
    requires Inv(s) && LoopEnabled(s, DispatchConcurrent(t))
    ensures Inv(AfterLoop(s, DispatchConcurrent(t)))
  {
    var f, f' := s.floor, AfterDispatchConcurrent(s.floor, t);
    DispatchConcurrentKeepsPrimaries(f, f', t);
    DispatchConcurrentKeepsConcurrent(f, f', t);
    DispatchConcurrentKeepsPhased(f, f', s.controls, t);
    OneMore(f.tasks, f.nextTask, Concurrent(t, f.concurrent[t].control, WaitGate));
  }

  lemma JoinPrimaryKeepsInv(s: State, id: nat)
    requires Inv(s) && LoopEnabled(s, JoinPrimary(id))
    ensures Inv(AfterLoop(s, JoinPrimary(id)))
  {
    var s' := AfterLoop(s, JoinPrimary(id));
    JoinPrimaryKeepsFloor(s, s', id);
    JoinPrimaryKeepsDesk(s, s', id);
    OneLess(s.floor.tasks, id);
  }

  lemma JoinPrimaryKeepsFloor(s: State, s': State, id: nat)
    requires Inv(s) && LoopEnabled(s, JoinPrimary(id)) && s' == AfterLoop(s, JoinPrimary(id))
    ensures Placed(s'.floor) && Phased(s'.floor, s'.controls)
  {
    JoinPrimaryKeepsPlaced(s.floor, s'.floor, id);
    RestKeepsPhases(s.floor, s'.floor, s.controls, s'.controls, id);
    RestKeepsGates(s.floor, s'.floor, s.controls, s'.controls, id);
  }

  lemma JoinPrimaryKeepsDesk(s: State, s': State, id: nat)
    requires Inv(s) && LoopEnabled(s, JoinPrimary(id)) && s' == AfterLoop(s, JoinPrimary(id))
    requires Placed(s'.floor) && Phased(s'.floor, s'.controls)
    ensures DeskInv(s'.desk, s'.floor, s'.controls)
  {
    var f, task := s.floor, s.floor.tasks[id];
    RestKeepsDesk(s.desk, f, s.controls, s'.controls, id);
    if !Defers(f, task) {
      ReturnKeepsDesk(s.desk, f, s'.floor, s'.controls, task.target, task.entry);
    }
  }

  lemma JoinConcurrentKeepsInv(s: State, id: nat)
    requires Inv(s) && LoopEnabled(s, JoinConcurrent(id))
    ensures Inv(AfterLoop(s, JoinConcurrent(id)))
  {
    var s' := AfterLoop(s, JoinConcurrent(id));
    var f, t := s.floor, s.floor.tasks[id].target;
    JoinConcurrentKeepsPrimaries(f, s'.floor, id);
    JoinConcurrentKeepsConcurrent(f, s'.floor, id);
    JoinConcurrentKeepsPhased(f, s'.floor, s.controls, id);
    if t in f.pending {
      ReturnKeepsDesk(s.desk, f, s'.floor, s.controls, t, f.pending[t]);
    }
    OneLess(f.tasks, id);
  }

  /** Every calm step keeps the invariant, provided the command it processes fits its target. */
  lemma StepKeepsInv(s: State, step: Step)
    requires Inv(s) && Enabled(s, step)
    requires step == Loop(Process) ==> Fits(s.desk, s.floor, s.queue[0])
    ensures Inv(After(s, step))
  {
    match step
    case Handle(_) =>
    case Work(w) => TaskKeepsInv(s, w);
    case Loop(Process) => CommandKeepsInv(s);
    case Loop(Dispatch(t, hint, watched)) => DispatchKeepsInv(s, t, hint, watched);
    case Loop(DispatchConcurrent(t)) => DispatchConcurrentKeepsInv(s, t);
    case Loop(JoinPrimary(id)) => JoinPrimaryKeepsInv(s, id);
    case Loop(JoinConcurrent(id)) => JoinConcurrentKeepsInv(s, id);
  }
}
