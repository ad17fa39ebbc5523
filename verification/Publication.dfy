/**
  The publication-barrier protocol of the prepared serving cache, as a transition system.

  Writers bracket each store transaction with a dirty ticket. One worker collects the committed
  tickets, rebuilds from the store, publishes a new generation by compare-and-swap and only then
  clears the tickets it took. Readers bind the current generation when no ticket closes admission.
  Every interleaving of the steps below is a run.
 */
module Publication {
  import opened Common
  import opened DirtyTickets

  // ----- The store -----

  /** One separately versioned part of the authoritative store. `Ready(t)` is a target's readiness,
      which an Open transaction can raise; `OpenState(t)` is its Open batch state. The first three
      make up the foundation of a generation, `OpenState` its overlay. */
  datatype Resource =
    | Discovery
    | Catalog(target: TermCampusKey)
    | Ready(target: TermCampusKey)
    | OpenState(target: TermCampusKey)

  predicate IsFoundation(r: Resource) {
    !r.OpenState?
  }

  type Versions = map<Resource, nat>

  function V(m: Versions, r: Resource): nat {
    if r in m then m[r] else 0
  }

  function Bump(m: Versions, touched: set<Resource>): (m': Versions)
    ensures forall r :: V(m', r) == V(m, r) + if r in touched then 1 else 0
  {
    m + map r | r in touched :: V(m, r) + 1
  }

  /** What an Open transaction of `t` may move. */
  function TargetResources(t: TermCampusKey): set<Resource> {
    {Ready(t), OpenState(t)}
  }

  function Restrict(m: Versions, rs: set<Resource>): (m': Versions)
    ensures forall r :: V(m', r) == if r in rs then V(m, r) else 0
  {
    map r | r in rs :: V(m, r)
  }

  // ----- The protocol state -----

  datatype BarrierPhase =
    | Begun
    | StoreCommitted
    | StoreCommittedAsOpen(target: TermCampusKey)
    | TicketCommitted

  /** A published generation, stamped with the versions it was projected from. */
  datatype Snapshot = Snapshot(id: nat, foundation: Versions, open: map<TermCampusKey, nat>)

  datatype Owner = Worker | Bystander

  datatype Scope = WholeCatalog | Overlays(targets: set<TermCampusKey>)

  /** A rebuild in progress, holding the rebuild guard. `checked` are the targets whose Catalog and
      readiness have been looked at, `open` those whose Open state has been read after that. */
  datatype Build = Build(owner: Owner, scope: Scope, expected: Option<nat>, foundation: Option<Versions>,
                         checked: set<TermCampusKey>, open: map<TermCampusKey, nat>)

  /** The batch the worker has taken; `covered` once a generation reflecting it is published. `seen` are the
      parts of the foundation that, after a failed rebuild, were found to be those served. */
  datatype Execution = Resting | Executing(batch: set<Ticket>, covered: bool, seen: set<Resource> := {})

  /**
    `need` is a history variable: the versions a rebuild must reflect before the ticket may go.
    `waived` is another: the tickets the failed-rebuild fallback has let go on an unmoved foundation,
    without any overlay having been read for them.
   */
  datatype State = State(
    store: Versions,
    dirty: Dirty,
    need: map<Ticket, Versions>,
    barriers: map<Ticket, BarrierPhase>,
    channel: seq<Ticket>,
    pending: set<Ticket>,
    exec: Execution,
    build: Option<Build>,
    current: Option<Snapshot>,
    published: nat,
    accepting: bool,
    workerAlive: bool,
    shutdown: bool,
    waived: set<Ticket>)

  function Need(need: map<Ticket, Versions>, k: Ticket): Versions {
    if k in need then need[k] else map[]
  }

  function CurrentId(s: State): Option<nat> {
    if s.current.Some? then Some(s.current.value.id) else None
  }

  function BatchOf(e: Execution): set<Ticket> {
    if e.Executing? then e.batch else {}
  }

  /** What the worker takes next: every pending Full ticket, or else every pending Open ticket. */
  function NextBatch(pending: set<Ticket>): set<Ticket> {
    var full := set k | k in pending && k.Full?;
    if full != {} then full else pending
  }

  function ScopeOf(batch: set<Ticket>): Scope {
    if exists k | k in batch :: k.Full? then WholeCatalog
    else Overlays(set k | k in batch && k.Open? :: k.target)
  }

  ghost predicate Init(s: State) {
    && s.dirty == Dirty(0, map[])
    && s.need == map[] && s.barriers == map[] && s.channel == [] && s.pending == {}
    && s.exec == Resting && s.build == None && s.current == None && s.published == 0
    && s.accepting && s.workerAlive && !s.shutdown && s.waived == {}
  }

  // ----- Steps -----

  datatype WriterStep =
    | BeginFull
    | BeginOpen(target: TermCampusKey)
    | CommitStore(ticket: Ticket, touched: set<Resource>)
    | CommitStoreAsOpen(ticket: Ticket, target: TermCampusKey, touched: set<Resource>)
    | CommitBarrier(ticket: Ticket)
    | NarrowBarrier(ticket: Ticket)
    | SendRequest(ticket: Ticket)
    | DropBarrier(ticket: Ticket)

  datatype WorkerStep =
    | Merge
    | Take
    | Requeue
    | PromoteBatch
    | LookAt(resource: Resource)
    | FallbackMatch
    | ClearTickets(done: set<Ticket>)
    | StopAccepting
    | RequestShutdown
    | DropBatch
    | WorkerExit

  datatype BuildStep =
    | BeginBuild(owner: Owner, scope: Scope)
    | ReadFoundation
    | CheckOverlay(target: TermCampusKey)
    | ReadOverlay(target: TermCampusKey)
    | Publish
    | AbandonBuild

  datatype Step = Write(writer: WriterStep) | Work(worker: WorkerStep) | Rebuild(build: BuildStep)

  predicate WorkerBuilding(s: State) {
    s.build.Some? && s.build.value.owner == Worker
  }

  predicate FreshEpochLeft(s: State) {
    s.dirty.nextEpoch < U64_MAX
  }

  ghost predicate Complete(b: Build) {
    match b.scope
    case WholeCatalog => b.foundation.Some?
    case Overlays(targets) => b.open.Keys == targets
  }

  /** Every part of the served foundation was found unmoved: the last of them now, the others one by one before. */
  ghost predicate FoundationSeen(s: State) {
    && s.exec.Executing? && s.current.Some?
    && forall r | IsFoundation(r) && r !in s.exec.seen :: V(s.current.value.foundation, r) == V(s.store, r)
  }

  ghost predicate WriterEnabled(s: State, step: WriterStep) {
    match step
    case BeginFull => s.accepting && FreshEpochLeft(s)
    case BeginOpen(t) => s.accepting && FreshEpochLeft(s)
    case CommitStore(k, touched) =>
      && k in s.barriers && s.barriers[k] == Begun
      && (k.Open? ==> touched <= TargetResources(k.target))
    case CommitStoreAsOpen(k, t, touched) =>
      && k in s.barriers && s.barriers[k] == Begun && k.Full?
      && touched <= TargetResources(t)
    case CommitBarrier(k) =>
      && k in s.barriers && s.barriers[k] == StoreCommitted
      && CommitTicket(s.dirty, k).Ok?
    case NarrowBarrier(k) =>
      && k in s.barriers && s.barriers[k].StoreCommittedAsOpen? && FreshEpochLeft(s)
      && Narrow(s.dirty, k.epoch, s.barriers[k].target).Ok?
    case SendRequest(k) => k in s.barriers && s.barriers[k] == TicketCommitted
    case DropBarrier(k) => k in s.barriers && s.barriers[k] == Begun
  }

  /** The ticket a step puts into the table: a fresh one, or the heir of a narrowed one. */
  function NewTicket(s: State, step: WriterStep): Ticket
    requires
      || step.BeginFull? || step.BeginOpen?
      || (step.NarrowBarrier? && step.ticket in s.barriers && s.barriers[step.ticket].StoreCommittedAsOpen?)
  {
    match step
    case BeginFull => Full(NextEpoch(s.dirty))
    case BeginOpen(t) => Open(t, NextEpoch(s.dirty))
    case NarrowBarrier(k) => Open(s.barriers[k].target, NextEpoch(s.dirty))
  }

  ghost function DirtyAfter(s: State, step: WriterStep): Dirty
    requires WriterEnabled(s, step)
  {
    match step
    case BeginFull => MarkFull(s.dirty)
    case BeginOpen(t) => MarkOpen(s.dirty, t)
    case CommitBarrier(k) => CommitTicket(s.dirty, k).value
    case NarrowBarrier(k) => Narrow(s.dirty, k.epoch, s.barriers[k].target).value
    case DropBarrier(k) => Rollback(s.dirty, k)
    case _ => s.dirty
  }

  ghost function BarriersAfter(s: State, step: WriterStep): map<Ticket, BarrierPhase>
    requires WriterEnabled(s, step)
  {
    match step
    case BeginFull => s.barriers[NewTicket(s, step) := Begun]
    case BeginOpen(_) => s.barriers[NewTicket(s, step) := Begun]
    case CommitStore(k, _) => s.barriers[k := StoreCommitted]
    case CommitStoreAsOpen(k, t, _) => s.barriers[k := StoreCommittedAsOpen(t)]
    case CommitBarrier(k) => s.barriers[k := TicketCommitted]
    case NarrowBarrier(k) => (s.barriers - {k})[NewTicket(s, step) := TicketCommitted]
    case SendRequest(k) => s.barriers - {k}
    case DropBarrier(k) => s.barriers - {k}
  }

  function StoreAfter(s: State, step: WriterStep): Versions {
    match step
    case CommitStore(_, touched) => Bump(s.store, touched)
    case CommitStoreAsOpen(_, _, touched) => Bump(s.store, touched)
    case _ => s.store
  }

  ghost function NeedAfter(s: State, step: WriterStep): map<Ticket, Versions>
    requires WriterEnabled(s, step)
  {
    match step
    case BeginFull => s.need[NewTicket(s, step) := map[]]
    case BeginOpen(_) => s.need[NewTicket(s, step) := map[]]
    case CommitStore(k, _) =>
      s.need[k := if k.Full? then StoreAfter(s, step) else Restrict(StoreAfter(s, step), TargetResources(k.target))]
    case CommitStoreAsOpen(k, t, _) => s.need[k := Restrict(StoreAfter(s, step), TargetResources(t))]
    case NarrowBarrier(k) => s.need[NewTicket(s, step) := Need(s.need, k)]
    case _ => s.need
  }

  function ChannelAfter(s: State, step: WriterStep): seq<Ticket> {
    if step.SendRequest? && s.workerAlive then s.channel + [step.ticket] else s.channel
  }

  ghost function AfterWriter(s: State, step: WriterStep): State
    requires WriterEnabled(s, step)
  {
    s.(store := StoreAfter(s, step), dirty := DirtyAfter(s, step), barriers := BarriersAfter(s, step),
       need := NeedAfter(s, step), channel := ChannelAfter(s, step))
  }

  /** Version `v` of the Open state of `t` is late enough for every ticket the fallback let go. */
  ghost predicate MeetsWaived(s: State, t: TermCampusKey, v: nat) {
    forall k | k in s.waived :: V(Need(s.need, k), OpenState(t)) <= v
  }

  ghost predicate WorkerEnabled(s: State, step: WorkerStep) {
    match step
    case Merge => s.workerAlive && s.exec == Resting && s.channel != []
    case Take => s.workerAlive && s.exec == Resting && s.pending != {}
    case Requeue => s.exec.Executing? && !s.exec.covered && !WorkerBuilding(s)
    case PromoteBatch =>
      && s.exec.Executing? && !s.exec.covered && !WorkerBuilding(s)
      && ScopeOf(s.exec.batch).Overlays? && FreshEpochLeft(s)
      && Promote(s.dirty, s.exec.batch).Ok?
    case LookAt(r) =>
      && s.exec.Executing? && !s.exec.covered && !WorkerBuilding(s)
      && IsFoundation(r) && s.current.Some? && V(s.current.value.foundation, r) == V(s.store, r)
    case FallbackMatch =>
      && s.exec.Executing? && !s.exec.covered && !WorkerBuilding(s)
      && ScopeOf(s.exec.batch) == WholeCatalog && FoundationSeen(s)
    case ClearTickets(done) => s.exec.Executing? && s.exec.covered && done != {} && done <= s.exec.batch
    case StopAccepting => true
    case RequestShutdown => true
    case DropBatch => s.shutdown && s.exec.Executing? && !s.exec.covered && !WorkerBuilding(s)
    case WorkerExit => true
  }

  ghost function AfterWorker(s: State, step: WorkerStep): State
    requires WorkerEnabled(s, step)
  {
    match step
    case Merge => s.(channel := s.channel[1..], pending := s.pending + {s.channel[0]})
    case Take =>
      var batch := NextBatch(s.pending);
      s.(pending := s.pending - batch, exec := Executing(batch, false))
    case Requeue => s.(pending := s.pending + s.exec.batch, exec := Resting)
    case PromoteBatch =>
      var k := Full(NextEpoch(s.dirty));
      s.(dirty := Promote(s.dirty, s.exec.batch).value, pending := s.pending + {k}, exec := Resting,
         need := s.need[k := s.store])
    case LookAt(r) => s.(exec := s.exec.(seen := s.exec.seen + {r}))
    case FallbackMatch => s.(exec := s.exec.(covered := true), waived := s.waived + s.exec.batch)
    case ClearTickets(done) =>
      s.(dirty := Clear(s.dirty, done),
         exec := if s.exec.batch == done then Resting else Executing(s.exec.batch - done, true, s.exec.seen))
    case StopAccepting => s.(accepting := false)
    case RequestShutdown => s.(shutdown := true)
    case DropBatch => s.(exec := Resting)
    case WorkerExit =>
      s.(workerAlive := false, shutdown := true, accepting := false, channel := [], pending := {}, exec := Resting,
         build := if s.build.Some? then Some(s.build.value.(owner := Bystander)) else None)
  }

  predicate IsRead(step: BuildStep) {
    step.ReadFoundation? || step.CheckOverlay? || step.ReadOverlay?
  }

  /** What a build may read next. An overlay on the served foundation is read only after its Catalog and
      its readiness were seen unmoved; the store may move between that look and the read. */
  ghost predicate ReadEnabled(b: Build, current: Option<Snapshot>, store: Versions, step: BuildStep)
    requires IsRead(step)
  {
    match step
    case ReadFoundation => b.scope == WholeCatalog && b.foundation == None
    case CheckOverlay(t) => (
      match b.scope
      case WholeCatalog => b.foundation.Some?
      case Overlays(targets) =>
        && t in targets && current.Some? && t in current.value.open
        && V(current.value.foundation, Catalog(t)) == V(store, Catalog(t))
        && V(current.value.foundation, Ready(t)) == V(store, Ready(t)))
    case ReadOverlay(t) => t in b.checked
  }

  function AfterRead(b: Build, store: Versions, step: BuildStep): Build
    requires IsRead(step)
  {
    match step
    case ReadFoundation => b.(foundation := Some(store))
    case CheckOverlay(t) => b.(checked := b.checked + {t})
    case ReadOverlay(t) => b.(open := b.open[t := V(store, OpenState(t))])
  }

  ghost predicate BuildEnabled(s: State, step: BuildStep) {
    match step
    case BeginBuild(owner, scope) =>
      && s.build == None
      && (owner == Worker ==> s.exec.Executing? && !s.exec.covered && scope == ScopeOf(s.exec.batch))
      && (scope.Overlays? ==> s.current.Some?)
    case Publish =>
      && s.build.Some? && Complete(s.build.value)
      && s.build.value.expected == CurrentId(s)
      && (s.build.value.scope.Overlays? ==> s.current.Some?)
    case AbandonBuild => s.build.Some?
    case _ => s.build.Some? && ReadEnabled(s.build.value, s.current, s.store, step)
  }

  ghost function NewSnapshot(s: State): Snapshot
    requires BuildEnabled(s, Publish)
  {
    var b := s.build.value;
    match b.scope
    case WholeCatalog => Snapshot(s.published + 1, b.foundation.value, b.open)
    case Overlays(_) => Snapshot(s.published + 1, s.current.value.foundation, s.current.value.open + b.open)
  }

  ghost function AfterBuild(s: State, step: BuildStep): State
    requires BuildEnabled(s, step)
  {
    match step
    case BeginBuild(owner, scope) => s.(build := Some(Build(owner, scope, CurrentId(s), None, {}, map[])))
    case Publish =>
      s.(current := Some(NewSnapshot(s)), published := s.published + 1, build := None,
         exec := if s.build.value.owner == Worker && s.exec.Executing? then s.exec.(covered := true) else s.exec)
    case AbandonBuild => s.(build := None)
    case _ => s.(build := Some(AfterRead(s.build.value, s.store, step)))
  }

  ghost predicate Enabled(s: State, step: Step) {
    match step
    case Write(w) => WriterEnabled(s, w)
    case Work(w) => WorkerEnabled(s, w)
    case Rebuild(b) => BuildEnabled(s, b)
  }

  ghost function After(s: State, step: Step): State
    requires Enabled(s, step)
  {
    match step
    case Write(w) => AfterWriter(s, w)
    case Work(w) => AfterWorker(s, w)
    case Rebuild(b) => AfterBuild(s, b)
  }

  /** A run of the protocol: `states[i + 1]` is reached from `states[i]` by `steps[i]`. */
  ghost predicate Run(states: seq<State>, steps: seq<Step>) {
    && |states| == |steps| + 1
    && Init(states[0])
    && forall i | 0 <= i < |steps| :: Enabled(states[i], steps[i]) && states[i + 1] == After(states[i], steps[i])
  }
}
