/**
  Ticket conservation: where every dirty ticket is, in every reachable state.
 */
module PublicationTickets {
  import opened DirtyTickets
  import opened Publication

  ghost predicate IsCommitted(s: State, k: Ticket) {
    k in s.dirty.tickets && s.dirty.tickets[k] == Committed
  }

  /** The worker's side of the protocol: channel, pending set and executing batch. */
  predicate Held(s: State, k: Ticket) {
    k in s.channel || k in s.pending || k in BatchOf(s.exec)
  }

  /** Every live barrier owns one ticket in the matching phase, and every Precommit ticket has one. */
  ghost predicate BarriersOwnTickets(s: State) {
    && (forall k | k in s.dirty.tickets :: k.epoch <= s.dirty.nextEpoch)
    && (forall k | k in s.barriers ::
          && k in s.dirty.tickets
          && (s.dirty.tickets[k] == Committed <==> s.barriers[k] == TicketCommitted)
          && (s.barriers[k].StoreCommittedAsOpen? ==> k.Full?))
    && (forall k | k in s.dirty.tickets && s.dirty.tickets[k] == Precommit :: k in s.barriers)
    && (forall k | k in s.waived :: k.epoch <= s.dirty.nextEpoch && k !in s.barriers)
  }

  /** The places on the worker's side are disjoint and hold Committed tickets only. */
  ghost predicate PlacesDisjoint(s: State) {
    && (forall i, j | 0 <= i < j < |s.channel| :: s.channel[i] != s.channel[j])
    && (forall k | k in s.channel :: k !in s.pending && k !in BatchOf(s.exec))
    && (forall k | k in s.pending :: k !in BatchOf(s.exec))
    && (forall k | Held(s, k) :: IsCommitted(s, k) && k !in s.barriers)
  }

  /** Before any shutdown request no Committed ticket is lost. */
  ghost predicate NoTicketLost(s: State) {
    && (!s.workerAlive ==> s.shutdown)
    && (!s.shutdown ==> forall k | IsCommitted(s, k) :: k in s.barriers || Held(s, k))
  }

  /** The worker executes one kind of ticket at a time, and builds what its batch asks for. */
  ghost predicate BatchWellFormed(s: State) {
    && (s.exec.Executing? ==>
        s.exec.batch != {} && forall a, b | a in s.exec.batch && b in s.exec.batch :: a.Full? == b.Full?)
    && (WorkerBuilding(s) ==> s.exec.Executing? && !s.exec.covered && s.build.value.scope == ScopeOf(s.exec.batch))
  }

  ghost predicate TicketInv(s: State) {
    BarriersOwnTickets(s) && PlacesDisjoint(s) && NoTicketLost(s) && BatchWellFormed(s)
  }

  lemma BeginKeepsOwners(s: State, step: WriterStep)
    requires TicketInv(s) && WriterEnabled(s, step) && (step.BeginFull? || step.BeginOpen?)
    ensures BarriersOwnTickets(AfterWriter(s, step))
  {
  }

  lemma BeginKeepsPlaces(s: State, step: WriterStep)
    requires TicketInv(s) && WriterEnabled(s, step) && (step.BeginFull? || step.BeginOpen?)
    ensures PlacesDisjoint(AfterWriter(s, step)) && NoTicketLost(AfterWriter(s, step))
            && BatchWellFormed(AfterWriter(s, step))
  {
  }

  lemma BeginKeepsTickets(s: State, step: WriterStep)
    requires TicketInv(s) && WriterEnabled(s, step) && (step.BeginFull? || step.BeginOpen?)
    ensures TicketInv(AfterWriter(s, step))
  {
    BeginKeepsOwners(s, step);
    BeginKeepsPlaces(s, step);
  }

  lemma StoreCommitKeepsOwners(s: State, step: WriterStep)
    requires TicketInv(s) && WriterEnabled(s, step) && (step.CommitStore? || step.CommitStoreAsOpen?)
    ensures BarriersOwnTickets(AfterWriter(s, step))
  {
  }

  lemma StoreCommitKeepsPlaces(s: State, step: WriterStep)
    requires TicketInv(s) && WriterEnabled(s, step) && (step.CommitStore? || step.CommitStoreAsOpen?)
    ensures PlacesDisjoint(AfterWriter(s, step)) && NoTicketLost(AfterWriter(s, step))
            && BatchWellFormed(AfterWriter(s, step))
  {
  }

  lemma StoreCommitKeepsTickets(s: State, step: WriterStep)
    requires TicketInv(s) && WriterEnabled(s, step) && (step.CommitStore? || step.CommitStoreAsOpen?)
    ensures TicketInv(AfterWriter(s, step))
  {
    StoreCommitKeepsOwners(s, step);
    StoreCommitKeepsPlaces(s, step);
  }

  lemma CommitBarrierKeepsTickets(s: State, step: WriterStep)
    requires TicketInv(s) && WriterEnabled(s, step) && step.CommitBarrier?
    ensures TicketInv(AfterWriter(s, step))
  {
  }

  lemma NarrowKeepsOwners(s: State, step: WriterStep)
    requires TicketInv(s) && WriterEnabled(s, step) && step.NarrowBarrier?
    ensures BarriersOwnTickets(AfterWriter(s, step))
  {
  }

  lemma NarrowKeepsPlaces(s: State, step: WriterStep)
    requires TicketInv(s) && WriterEnabled(s, step) && step.NarrowBarrier?
    ensures PlacesDisjoint(AfterWriter(s, step)) && NoTicketLost(AfterWriter(s, step))
            && BatchWellFormed(AfterWriter(s, step))
  {
  }

  lemma NarrowKeepsTickets(s: State, step: WriterStep)
    requires TicketInv(s) && WriterEnabled(s, step) && step.NarrowBarrier?
    ensures TicketInv(AfterWriter(s, step))
  {
    NarrowKeepsOwners(s, step);
    NarrowKeepsPlaces(s, step);
  }

  lemma SendKeepsOwners(s: State, step: WriterStep)
    requires TicketInv(s) && WriterEnabled(s, step) && step.SendRequest?
    ensures BarriersOwnTickets(AfterWriter(s, step))
  {
  }

  lemma SendKeepsPlaces(s: State, step: WriterStep)
    requires TicketInv(s) && WriterEnabled(s, step) && step.SendRequest?
    ensures PlacesDisjoint(AfterWriter(s, step)) && NoTicketLost(AfterWriter(s, step))
            && BatchWellFormed(AfterWriter(s, step))
  {
  }

  lemma SendKeepsTickets(s: State, step: WriterStep)
    requires TicketInv(s) && WriterEnabled(s, step) && step.SendRequest?
    ensures TicketInv(AfterWriter(s, step))
  {
    SendKeepsOwners(s, step);
    SendKeepsPlaces(s, step);
  }

  lemma DropKeepsTickets(s: State, step: WriterStep)
    requires TicketInv(s) && WriterEnabled(s, step) && step.DropBarrier?
    ensures TicketInv(AfterWriter(s, step))
  {
  }

  lemma CollectKeepsTickets(s: State, step: WorkerStep)
    requires TicketInv(s) && WorkerEnabled(s, step) && (step.Merge? || step.Take?)
    ensures TicketInv(AfterWorker(s, step))
  {
  }

  lemma ReturnKeepsTickets(s: State, step: WorkerStep)
    requires TicketInv(s) && WorkerEnabled(s, step)
             && (step.Requeue? || step.DropBatch? || step.LookAt? || step.FallbackMatch?)
    ensures TicketInv(AfterWorker(s, step))
  {
  }

  lemma PromoteKeepsOwners(s: State, step: WorkerStep)
    requires TicketInv(s) && WorkerEnabled(s, step) && step.PromoteBatch?
    ensures BarriersOwnTickets(AfterWorker(s, step))
  {
  }

  lemma PromoteKeepsPlaces(s: State, step: WorkerStep)
    requires TicketInv(s) && WorkerEnabled(s, step) && step.PromoteBatch?
    ensures PlacesDisjoint(AfterWorker(s, step)) && NoTicketLost(AfterWorker(s, step))
            && BatchWellFormed(AfterWorker(s, step))
  {
  }

  lemma PromoteKeepsTickets(s: State, step: WorkerStep)
    requires TicketInv(s) && WorkerEnabled(s, step) && step.PromoteBatch?
    ensures TicketInv(AfterWorker(s, step))
  {
    PromoteKeepsOwners(s, step);
    PromoteKeepsPlaces(s, step);
  }

  lemma ClearKeepsOwners(s: State, step: WorkerStep)
    requires TicketInv(s) && WorkerEnabled(s, step) && step.ClearTickets?
    ensures BarriersOwnTickets(AfterWorker(s, step))
  {
  }

  lemma ClearKeepsPlaces(s: State, step: WorkerStep)
    requires TicketInv(s) && WorkerEnabled(s, step) && step.ClearTickets?
    ensures PlacesDisjoint(AfterWorker(s, step)) && NoTicketLost(AfterWorker(s, step))
            && BatchWellFormed(AfterWorker(s, step))
  {
  }

  lemma ClearKeepsTickets(s: State, step: WorkerStep)
    requires TicketInv(s) && WorkerEnabled(s, step) && step.ClearTickets?
    ensures TicketInv(AfterWorker(s, step))
  {
    ClearKeepsOwners(s, step);
    ClearKeepsPlaces(s, step);
  }

  lemma LifecycleKeepsTickets(s: State, step: WorkerStep)
    requires TicketInv(s) && WorkerEnabled(s, step)
             && (step.StopAccepting? || step.RequestShutdown? || step.WorkerExit?)
    ensures TicketInv(AfterWorker(s, step))
  {
  }

  lemma BuildKeepsTickets(s: State, step: BuildStep)
    requires TicketInv(s) && BuildEnabled(s, step)
    ensures TicketInv(AfterBuild(s, step))
  {
  }

  lemma TicketInvStep(s: State, step: Step)
    requires TicketInv(s) && Enabled(s, step)
    ensures TicketInv(After(s, step))
  {
    match step
    case Write(BeginFull) => BeginKeepsTickets(s, step.writer);
    case Write(BeginOpen(_)) => BeginKeepsTickets(s, step.writer);
    case Write(CommitStore(_, _)) => StoreCommitKeepsTickets(s, step.writer);
    case Write(CommitStoreAsOpen(_, _, _)) => StoreCommitKeepsTickets(s, step.writer);
    case Write(CommitBarrier(_)) => CommitBarrierKeepsTickets(s, step.writer);
    case Write(NarrowBarrier(_)) => NarrowKeepsTickets(s, step.writer);
    case Write(SendRequest(_)) => SendKeepsTickets(s, step.writer);
    case Write(DropBarrier(_)) => DropKeepsTickets(s, step.writer);
    case Work(Merge) => CollectKeepsTickets(s, step.worker);
    case Work(Take) => CollectKeepsTickets(s, step.worker);
    case Work(Requeue) => ReturnKeepsTickets(s, step.worker);
    case Work(DropBatch) => ReturnKeepsTickets(s, step.worker);
    case Work(LookAt(_)) => ReturnKeepsTickets(s, step.worker);
    case Work(FallbackMatch) => ReturnKeepsTickets(s, step.worker);
    case Work(PromoteBatch) => PromoteKeepsTickets(s, step.worker);
    case Work(ClearTickets(_)) => ClearKeepsTickets(s, step.worker);
    case Work(StopAccepting) => LifecycleKeepsTickets(s, step.worker);
    case Work(RequestShutdown) => LifecycleKeepsTickets(s, step.worker);
    case Work(WorkerExit) => LifecycleKeepsTickets(s, step.worker);
    case Rebuild(_) => BuildKeepsTickets(s, step.build);
  }
}
