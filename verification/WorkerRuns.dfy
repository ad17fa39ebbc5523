/**
  What the rebuild worker does with an executed batch is what the publication protocol allows it to do:
  each way of settling is one or two worker steps, and clearing is open only to a covered execution.
 */
module WorkerRuns {
  import opened DirtyTickets
  import opened Publication
  import opened PublicationTickets
  import opened PublicationFreshness
  import opened PublicationTheorems
  import RebuildWorker

  /** What the outcome of a rebuild says about the protocol: a generation was published for the batch, or the
      rebuild is over without one; cancellation and the shutdown the worker has seen were requested. */
  ghost predicate Happened(s: State, outcome: RebuildWorker.Outcome, sourceUnchanged: bool, shutdown: bool) {
    && s.exec.Executing? && !WorkerBuilding(s) && (outcome == RebuildWorker.Published <==> s.exec.covered)
    && (sourceUnchanged ==> FoundationSeen(s))
    && (shutdown || outcome == RebuildWorker.Cancelled ==> s.shutdown)
  }

  predicate ExecutesFull(batch: set<Ticket>) {
    exists k | k in batch :: k.Full?
  }

  /** The batch as it stands once it is settled: nothing is executing any more. */
  ghost predicate Rested(s: State, s': State, after: Dirty, pendingAfter: set<Ticket>) {
    && s'.dirty == after && s'.pending == pendingAfter && s'.exec == Resting
    && s'.current == s.current && s'.store == s.store
  }

  lemma ClearsAll(s: State) returns (s': State)
    requires Reachable(s) && s.exec.Executing? && s.exec.covered && s.exec.batch != {}
    ensures Reachable(s') && Rested(s, s', Clear(s.dirty, s.exec.batch), s.pending)
  {
    ReachableStep(s, Work(ClearTickets(s.exec.batch)));
    s' := AfterWorker(s, ClearTickets(s.exec.batch));
  }

  lemma FallsBackAndClears(s: State) returns (s': State)
    requires Reachable(s) && WorkerEnabled(s, FallbackMatch) && s.exec.batch != {}
    ensures Reachable(s') && Rested(s, s', Clear(s.dirty, s.exec.batch), s.pending)
  {
    ReachableStep(s, Work(FallbackMatch));
    s' := ClearsAll(AfterWorker(s, FallbackMatch));
  }

  lemma ReachableBatch(s: State)
    requires Reachable(s) && s.exec.Executing?
    ensures s.exec.batch != {} && Promote(s.dirty, s.exec.batch).Ok?
  {
    var states, steps :| Run(states, steps) && states[|steps|] == s;
    RunKeepsInv(states, steps, |steps|);
    RegistryCallsSucceed(states, steps, |steps|);
  }

  /** Whatever came of the rebuild, settling it takes the protocol from one reachable state to another. */
  lemma SettlingIsRun(s: State, outcome: RebuildWorker.Outcome, sourceUnchanged: bool, shutdown: bool, after: Dirty,
                      pendingAfter: set<Ticket>) returns (s': State)
    requires Reachable(s) && FreshEpochLeft(s) && Happened(s, outcome, sourceUnchanged, shutdown)
    requires RebuildWorker.Settled(s.dirty, s.pending, s.exec.batch, ExecutesFull(s.exec.batch), outcome,
                                   sourceUnchanged, shutdown, after, pendingAfter)
    ensures Reachable(s') && Rested(s, s', after, pendingAfter)
  {
    ReachableBatch(s);
    if outcome == RebuildWorker.Published {
      s' := ClearsAll(s);
    } else if RebuildWorker.MayClear(ExecutesFull(s.exec.batch), outcome, sourceUnchanged, shutdown) {
      s' := FallsBackAndClears(s);
    } else if shutdown || outcome == RebuildWorker.Cancelled {
      ReachableStep(s, Work(DropBatch));
      s' := AfterWorker(s, DropBatch);
    } else if outcome == RebuildWorker.NotPrepared && !ExecutesFull(s.exec.batch) {
      ReachableStep(s, Work(PromoteBatch));
      s' := AfterWorker(s, PromoteBatch);
    } else {
      ReachableStep(s, Work(Requeue));
      s' := AfterWorker(s, Requeue);
    }
  }

  /** The worker can clear a batch at once exactly when a generation reflects it or the fallback has let it go. */
  lemma OnlyCoveredIsCleared(s: State)
    requires s.exec.Executing? && s.exec.batch != {}
    ensures WorkerEnabled(s, ClearTickets(s.exec.batch)) <==> s.exec.covered
  {
  }
}
