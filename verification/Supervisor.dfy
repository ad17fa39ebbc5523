/**
  The bounded refresh supervisor as a transition system: the runtime handle's calls, the supervisor's
  select loop, and the workflow tasks it spawns, interleaved in every order.

  `away`, the `owner` of a control and the `task` of a concurrent Open are history variables: they
  record where a coordinator was moved to and are never read by a step.
 */
module Supervisor {
  import opened Common

  const REFRESH_MAX_CONCURRENCY: nat := 3

  datatype Command =
    | Register(target: TermCampusKey, manual: bool)
    | Reclassify(target: TermCampusKey, manual: bool)
    | ActivateOpen(target: TermCampusKey)
    | ManualRetry(target: TermCampusKey, generation: nat)
    | ReleaseProductDemand(target: TermCampusKey)
    | RemoveTarget(target: TermCampusKey)

  datatype Kind = Catalog | Open

  // ----- Workflow tasks -----

  datatype Phase = Idle | CatalogFetch | CatalogProcess | CandidateOpen

  predicate AllowsServingOpen(p: Phase) {
    p == CatalogFetch || p == CatalogProcess
  }

  /** The per-target object every execution path shares: a phase flag and a gate. */
  datatype Control = Control(owner: TermCampusKey, phase: Phase, gate: Option<nat>)

  /** A target coordinator as the supervisor moves it about. */
  datatype Entry = Entry(manual: bool, demand: bool, control: nat)

  datatype Pc =
    | NotStarted | OpenPull | Fetching | Processing | CandidateWait | CandidatePull // primary workflow
    | WaitGate | HoldsGate | ServingPull // concurrent serving Open
    | Finished

  /** `hint` is the job kind the dispatch was chosen for; the job executed may differ. */
  datatype Task =
    | Primary(target: TermCampusKey, entry: Entry, hint: Kind, pc: Pc)
    | Concurrent(target: TermCampusKey, guard: nat, pc: Pc)
  {
    function ControlId(): nat {
      if Primary? then entry.control else guard
    }
  }

  datatype ConcurrentOpen = ConcurrentOpen(inFlight: bool, control: nat, task: nat)

  datatype Away = Away(entry: Entry, task: nat)

  // ----- State -----

  /** What the runtime handle shares with its callers. */
  datatype HandleState = HandleState(modes: map<TermCampusKey, bool>, active: set<TermCampusKey>)

  /** The supervisor's record of coordinators at rest, and of commands for the others. */
  datatype Desk = Desk(
    idle: map<TermCampusKey, Entry>,
    removed: set<TermCampusKey>,
    reclassified: map<TermCampusKey, bool>,
    desired: set<TermCampusKey>)

  /** The workflows under way. */
  datatype Floor = Floor(
    away: map<TermCampusKey, Away>,
    tasks: map<nat, Task>,
    nextTask: nat,
    concurrent: map<TermCampusKey, ConcurrentOpen>,
    pending: map<TermCampusKey, Entry>)

  datatype Controls = Controls(all: map<nat, Control>, next: nat)

  datatype State = State(handle: HandleState, queue: seq<Command>, desk: Desk, floor: Floor, controls: Controls)

  /** The runtime starts with some targets registered and idle, each with a control of its own. */
  ghost predicate Init(s: State) {
    && s.queue == [] && s.handle.active == {} && s.desk.desired == {}
    && s.floor == Floor(map[], map[], s.floor.nextTask, map[], map[]) && s.desk.removed == {}
       && s.desk.reclassified == map[]
    && (forall t :: t in s.handle.modes <==> t in s.desk.idle)
    && (forall t | t in s.desk.idle ::
          && s.handle.modes[t] == s.desk.idle[t].manual && !s.desk.idle[t].demand
          && s.desk.idle[t].control in s.controls.all
             && s.controls.all[s.desk.idle[t].control] == Control(t, Idle, None))
    && (forall c | c in s.controls.all :: c < s.controls.next && s.controls.all[c].gate == None)
  }

  // ----- The runtime handle -----

  datatype HandleStep =
    | CallRegister(target: TermCampusKey, manual: bool)
    | CallActivate(target: TermCampusKey)
    | CallRelease(target: TermCampusKey)
    | CallManualRetry(target: TermCampusKey, generation: nat)
    | CallRemove(target: TermCampusKey)

  predicate HandleEnabled(h: HandleState, step: HandleStep) {
    match step
    case CallRegister(_, _) => true
    case CallActivate(t) => t in h.modes
    case CallRelease(t) => t in h.active
    case CallManualRetry(t, _) => t in h.modes
    case CallRemove(t) => t in h.modes
  }

  /** A call's new shared state and the commands it sends. */
  function AfterCall(h: HandleState, step: HandleStep): (HandleState, seq<Command>)
    requires HandleEnabled(h, step)
  {
    match step
    case CallRegister(t, m) =>
      if t !in h.modes then (h.(modes := h.modes[t := m]), [Register(t, m)])
      else if h.modes[t] == m then (h, [])
      else (h.(modes := h.modes[t := m]), [Reclassify(t, m)])
    case CallActivate(t) => if t in h.active then (h, []) else (h.(active := h.active + {t}), [ActivateOpen(t)])
    case CallRelease(t) => (h.(active := h.active - {t}), [ReleaseProductDemand(t)])
    case CallManualRetry(t, g) => (h, [ManualRetry(t, g)])
    case CallRemove(t) => (HandleState(h.modes - {t}, h.active - {t}), [RemoveTarget(t)])
  }

  // ----- Workflow tasks -----

  datatype TaskStep =
    | StartOpen(id: nat)
    | StartFetch(id: nat)
    | StartProcess(id: nat)
    | MarkCandidate(id: nat)
    | TakeGate(id: nat)
    | StartServing(id: nat)
    | Finish(id: nat)

  predicate Waiting(pc: Pc) {
    pc == CandidateWait || pc == WaitGate
  }

  predicate HoldingGate(pc: Pc) {
    pc == CandidatePull || pc == HoldsGate || pc == ServingPull
  }

  predicate TaskEnabled(f: Floor, cs: Controls, step: TaskStep) {
    && step.id in f.tasks && f.tasks[step.id].ControlId() in cs.all
    && var task, control := f.tasks[step.id], cs.all[f.tasks[step.id].ControlId()];
       match step {
         case StartOpen(_) => task.Primary? && task.pc == NotStarted
         case StartFetch(_) => task.Primary? && task.pc == NotStarted
         case StartProcess(_) => task.Primary? && task.pc == Fetching
         case MarkCandidate(_) => task.Primary? && task.pc == Processing
         case TakeGate(_) => Waiting(task.pc) && control.gate == None
         case StartServing(_) => task.Concurrent? && task.pc == HoldsGate && AllowsServingOpen(control.phase)
         // a workflow may end early at any point except while it waits for the gate
         case Finish(_) => task.pc != Finished && !Waiting(task.pc)
       }
  }

  function ControlAfter(control: Control, step: TaskStep, task: Task): Control {
    match step
    case StartFetch(_) => control.(phase := CatalogFetch)
    case StartProcess(_) => control.(phase := CatalogProcess)
    case MarkCandidate(_) => control.(phase := CandidateOpen)
    case TakeGate(id) => control.(gate := Some(id))
    case Finish(_) => if HoldingGate(task.pc) then control.(gate := None) else control
    case _ => control
  }

  function PcAfter(step: TaskStep, task: Task): Pc {
    match step
    case StartOpen(_) => OpenPull
    case StartFetch(_) => Fetching
    case StartProcess(_) => Processing
    case MarkCandidate(_) => CandidateWait
    case TakeGate(_) => if task.Primary? then CandidatePull else HoldsGate
    case StartServing(_) => ServingPull
    case Finish(_) => Finished
  }

  function TasksAfter(f: Floor, cs: Controls, step: TaskStep): Floor
    requires TaskEnabled(f, cs, step)
  {
    f.(tasks := f.tasks[step.id := f.tasks[step.id].(pc := PcAfter(step, f.tasks[step.id]))])
  }

  function ControlsAfter(f: Floor, cs: Controls, step: TaskStep): Controls
    requires TaskEnabled(f, cs, step)
  {
    var task, c := f.tasks[step.id], f.tasks[step.id].ControlId();
    cs.(all := cs.all[c := ControlAfter(cs.all[c], step, task)])
  }

  // ----- The select loop -----

  datatype LoopStep =
    | Process
    | Dispatch(target: TermCampusKey, hint: Kind, watched: bool)
    | DispatchConcurrent(target: TermCampusKey)
    | JoinPrimary(id: nat)
    | JoinConcurrent(id: nat)

  predicate LoopEnabled(s: State, step: LoopStep) {
    var f := s.floor;
    match step
    case Process => s.queue != []
    case Dispatch(t, _, _) => t in s.desk.idle && |f.tasks| < REFRESH_MAX_CONCURRENCY
    case DispatchConcurrent(t) =>
      && t in f.concurrent && !f.concurrent[t].inFlight && |f.tasks| < REFRESH_MAX_CONCURRENCY
      && f.concurrent[t].control in s.controls.all && AllowsServingOpen(s.controls.all[f.concurrent[t].control].phase)
    case JoinPrimary(id) =>
      id in f.tasks && f.tasks[id].Primary? && f.tasks[id].pc == Finished && f.tasks[id].entry.control in s.controls.all
    case JoinConcurrent(id) => id in f.tasks && f.tasks[id].Concurrent? && f.tasks[id].pc == Finished
  }

  /** A command meets the desk: a resting coordinator is changed in place, an absent one later. */
  function DeskAfter(d: Desk, cmd: Command, freshControl: nat): Desk {
    var t := cmd.target;
    match cmd
    case Register(_, m) => if t in d.idle then d else d.(idle := d.idle[t := Entry(m, t in d.desired, freshControl)])
    case Reclassify(_, m) =>
      if t in d.idle then d.(idle := d.idle[t := d.idle[t].(manual := m)])
      else d.(reclassified := d.reclassified[t := m])
    case ActivateOpen(_) =>
      d.(desired := d.desired + {t},
         idle := if t in d.idle then d.idle[t := d.idle[t].(demand := true)] else d.idle)
    case ManualRetry(_, _) => d
    case ReleaseProductDemand(_) =>
      d.(desired := d.desired - {t},
         idle := if t in d.idle then d.idle[t := d.idle[t].(demand := false)] else d.idle)
    case RemoveTarget(_) =>
      Desk(d.idle - {t}, if t in d.idle then d.removed else d.removed + {t}, d.reclassified - {t}, d.desired - {t})
  }

  function ControlsRegistered(cs: Controls, d: Desk, cmd: Command): Controls {
    if cmd.Register? && cmd.target !in d.idle then
      Controls(cs.all[cs.next := Control(cmd.target, Idle, None)], cs.next + 1)
    else cs
  }

  /** A coordinator comes back: dropped if its target was removed, else reconciled and put to rest. */
  function Return(d: Desk, t: TermCampusKey, entry: Entry): Desk {
    if t in d.removed then d.(removed := d.removed - {t}, reclassified := d.reclassified - {t})
    else
      var manual := if t in d.reclassified then d.reclassified[t] else entry.manual;
      d.(reclassified := d.reclassified - {t}, idle := d.idle[t := Entry(manual, t in d.desired, entry.control)])
  }

  function AfterDispatch(f: Floor, t: TermCampusKey, entry: Entry, hint: Kind, watched: bool): Floor {
    f.(away := f.away[t := Away(entry, f.nextTask)],
       tasks := f.tasks[f.nextTask := Primary(t, entry, hint, NotStarted)], nextTask := f.nextTask + 1,
       concurrent :=
         if hint == Catalog && watched then f.concurrent[t := ConcurrentOpen(false, entry.control, 0)]
         else f.concurrent)
  }

  function AfterDispatchConcurrent(f: Floor, t: TermCampusKey): Floor
    requires t in f.concurrent
  {
    var c := f.concurrent[t].control;
    f.(concurrent := f.concurrent[t := ConcurrentOpen(true, c, f.nextTask)],
       tasks := f.tasks[f.nextTask := Concurrent(t, c, WaitGate)], nextTask := f.nextTask + 1)
  }

  /** Whether a finished primary workflow has to wait for its concurrent Open. */
  predicate Defers(f: Floor, task: Task) {
    task.Primary? && task.hint == Catalog && task.target in f.concurrent && f.concurrent[task.target].inFlight
  }

  function AfterJoinPrimary(f: Floor, id: nat): Floor
    requires id in f.tasks && f.tasks[id].Primary?
  {
    var task := f.tasks[id];
    if Defers(f, task) then f.(tasks := f.tasks - {id}, pending := f.pending[task.target := task.entry])
    else f.(tasks := f.tasks - {id}, away := f.away - {task.target},
            concurrent := if task.hint == Catalog then f.concurrent - {task.target} else f.concurrent)
  }

  function AfterJoinConcurrent(f: Floor, id: nat): Floor
    requires id in f.tasks && f.tasks[id].Concurrent?
  {
    var t := f.tasks[id].target;
    if t in f.pending then
      f.(tasks := f.tasks - {id}, away := f.away - {t}, pending := f.pending - {t}, concurrent := f.concurrent - {t})
    else
      f.(tasks := f.tasks - {id},
         concurrent := if t in f.concurrent then f.concurrent[t := f.concurrent[t].(inFlight := false)]
             else f.concurrent)
  }

  function AfterLoop(s: State, step: LoopStep): State
    requires LoopEnabled(s, step)
  {
    match step
    case Process =>
      s.(queue := s.queue[1..], desk := DeskAfter(s.desk, s.queue[0], s.controls.next),
         controls := ControlsRegistered(s.controls, s.desk, s.queue[0]))
    case Dispatch(t, hint, watched) =>
      s.(desk := s.desk.(idle := s.desk.idle - {t}), floor := AfterDispatch(s.floor, t, s.desk.idle[t], hint, watched))
    case DispatchConcurrent(t) => s.(floor := AfterDispatchConcurrent(s.floor, t))
    case JoinPrimary(id) =>
      var task := s.floor.tasks[id];
      var c := task.entry.control;
      s.(floor := AfterJoinPrimary(s.floor, id),
         controls := s.controls.(all := s.controls.all[c := s.controls.all[c].(phase := Idle)]),
         desk := if Defers(s.floor, task) then s.desk else Return(s.desk, task.target, task.entry))
    case JoinConcurrent(id) =>
      var t := s.floor.tasks[id].target;
      s.(floor := AfterJoinConcurrent(s.floor, id),
         desk := if t in s.floor.pending then Return(s.desk, t, s.floor.pending[t]) else s.desk)
  }

  // ----- Runs -----

  datatype Step = Handle(call: HandleStep) | Loop(loop: LoopStep) | Work(work: TaskStep)

  predicate Enabled(s: State, step: Step) {
    match step
    case Handle(c) => HandleEnabled(s.handle, c)
    case Loop(l) => LoopEnabled(s, l)
    case Work(w) => TaskEnabled(s.floor, s.controls, w)
  }

  function After(s: State, step: Step): State
    requires Enabled(s, step)
  {
    match step
    case Handle(c) => s.(handle := AfterCall(s.handle, c).0, queue := s.queue + AfterCall(s.handle, c).1)
    case Loop(l) => AfterLoop(s, l)
    case Work(w) => s.(floor := TasksAfter(s.floor, s.controls, w), controls := ControlsAfter(s.floor, s.controls, w))
  }

  /** The step does not take up a registration of a target still marked as removed. */
  predicate Calm(s: State, step: Step) {
    step == Loop(Process) && s.queue != [] && s.queue[0].Register? ==> s.queue[0].target !in s.desk.removed
  }

  ghost predicate Run(states: seq<State>, steps: seq<Step>) {
    && |states| == |steps| + 1
    && Init(states[0])
    && forall i | 0 <= i < |steps| :: Enabled(states[i], steps[i]) && states[i + 1] == After(states[i], steps[i])
  }

  /** A run that has been calm until it reached `states[i]`. */
  ghost predicate CalmUntil(states: seq<State>, steps: seq<Step>, i: nat) {
    Run(states, steps) && i < |states| && forall j | 0 <= j < i :: Calm(states[j], steps[j])
  }

  ghost predicate CalmRun(states: seq<State>, steps: seq<Step>) {
    Run(states, steps) && forall i | 0 <= i < |steps| :: Calm(states[i], steps[i])
  }
}
