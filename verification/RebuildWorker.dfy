/**
  The rebuild worker's own state: the two collections it merges requests into, and what it does with
  an executed batch once the rebuild has returned. Both are tied to sets of tickets, so that each
  method below is one worker step of the protocol in `Publication`.
 */
module RebuildWorker {
  import opened Common
  import opened DirtyTickets
  import Publication

  datatype Request =
    | FullRequest(epoch: nat)
    | OpenRequest(target: TermCampusKey, epoch: nat)
    | ShutdownRequest

  function TicketsIn(requests: seq<Request>): set<Ticket> {
    (set r | r in requests && r.FullRequest? :: Full(r.epoch))
    + (set r | r in requests && r.OpenRequest? :: Open(r.target, r.epoch))
  }

  ghost function FullTickets(epochs: set<nat>): set<Ticket> {
    set e | e in epochs :: Full(e)
  }

  /** How the rebuild of one batch ended. */
  datatype Outcome =
    | Published
    | Superseded // the store moved, or another generation won the swap
    | Cancelled
    | NotPrepared // an overlay cannot be rebuilt on the current foundation
    | Failed // a storage or build error, or a lost task

  datatype Fate = ClearTickets | Requeue | PromoteToFull | LeaveDirty

  /** What becomes of an executed batch. */
  function FateOf(executedFull: bool, outcome: Outcome, sourceUnchanged: bool, shutdown: bool): Fate {
    match outcome
    case Published => ClearTickets
    case Cancelled => LeaveDirty
    case Superseded => if shutdown then LeaveDirty else Requeue
    case NotPrepared =>
      if shutdown then LeaveDirty
      else if !executedFull then PromoteToFull
      else if sourceUnchanged then ClearTickets
      else Requeue
    case Failed =>
      if shutdown then LeaveDirty
      else if executedFull && sourceUnchanged then ClearTickets
      else Requeue
  }

  function EpochsIn(batch: map<TermCampusKey, set<nat>>, target: TermCampusKey): set<nat> {
    if target in batch then batch[target] else {}
  }

  predicate NoEmptyEntry(batch: map<TermCampusKey, set<nat>>) {
    forall t | t in batch :: batch[t] != {}
  }

  /** Puts an executed Open batch back, target by target. */
  method RequeueOpenTickets(pending: map<TermCampusKey, set<nat>>, executed: map<TermCampusKey, set<nat>>)
    returns (merged: map<TermCampusKey, set<nat>>)
    requires NoEmptyEntry(pending) && NoEmptyEntry(executed)
    ensures NoEmptyEntry(merged) && TicketsOf(merged) == TicketsOf(pending) + TicketsOf(executed)
  {
    merged := pending;
    var rest := executed.Keys;
    while rest != {}
      invariant MergedExcept(pending, executed, rest, merged)
      decreases |rest|
    {
      var t :| t in rest;
      MergeOneMore(pending, executed, rest, merged, t);
      merged := merged[t := EpochsIn(merged, t) + executed[t]];
      rest := rest - {t};
    }
    MergedTickets(pending, executed, merged);
  }

  /** `merged` holds both batches, except what the targets in `rest` have executed. */
  ghost predicate MergedExcept(pending: map<TermCampusKey, set<nat>>, executed: map<TermCampusKey, set<nat>>,
                               rest: set<TermCampusKey>, merged: map<TermCampusKey, set<nat>>)
  {
    && rest <= executed.Keys
    && (forall t :: t in merged <==> t in pending || (t in executed && t !in rest))
    && (forall t | t in merged && t in rest :: merged[t] == EpochsIn(pending, t))
    && (forall t | t in merged && t !in rest :: merged[t] == EpochsIn(pending, t) + EpochsIn(executed, t))
  }

  lemma MergeOneMore(pending: map<TermCampusKey, set<nat>>, executed: map<TermCampusKey, set<nat>>,
                     rest: set<TermCampusKey>, merged: map<TermCampusKey, set<nat>>, t: TermCampusKey)
    requires MergedExcept(pending, executed, rest, merged) && t in rest
    ensures MergedExcept(pending, executed, rest - {t}, merged[t := EpochsIn(merged, t) + executed[t]])
  {
    assert EpochsIn(merged, t) == EpochsIn(pending, t);
  }

  lemma PromotableHasTickets(d: Dirty, batch: map<TermCampusKey, set<nat>>)
    requires NoEmptyEntry(batch)
    ensures Promote(d, TicketsOf(batch)).Ok? ==> batch.Keys <= MaskedTargets(d)
  {
    forall t | t in batch && Promote(d, TicketsOf(batch)).Ok? ensures t in MaskedTargets(d) {
      var e :| e in batch[t];
      assert Open(t, e) in TicketsOf(batch);
    }
  }

  lemma MergedTickets(a: map<TermCampusKey, set<nat>>, b: map<TermCampusKey, set<nat>>, m: map<TermCampusKey, set<nat>>)
    requires forall t :: t in m <==> t in a || t in b
    requires forall t | t in m :: m[t] == EpochsIn(a, t) + EpochsIn(b, t)
    ensures TicketsOf(m) == TicketsOf(a) + TicketsOf(b)
    ensures NoEmptyEntry(a) && NoEmptyEntry(b) ==> NoEmptyEntry(m)
  {
    forall k ensures k in TicketsOf(m) <==> k in TicketsOf(a) + TicketsOf(b) {
      assert forall x :: k in TicketsOf(x) <==> k.Open? && k.epoch in EpochsIn(x, k.target);
    }
    forall t | t in m && NoEmptyEntry(a) && NoEmptyEntry(b) ensures m[t] != {} {
      var e :| e in EpochsIn(a, t) + EpochsIn(b, t);
      assert e in m[t];
    }
  }

  /** The batch may be let go: something that reflects it is served, or a failed Full rebuild changed nothing. */
  predicate MayClear(executedFull: bool, outcome: Outcome, sourceUnchanged: bool, shutdown: bool) {
    || outcome == Published
    || (executedFull && (outcome == NotPrepared || outcome == Failed) && sourceUnchanged && !shutdown)
  }

  /** One Full ticket, Committed and pending, stands for the whole batch. */
  ghost predicate Replaced(before: Dirty, pendingBefore: set<Ticket>, batch: set<Ticket>, after: Dirty,
                           pendingAfter: set<Ticket>)
  {
    && Promote(before, batch) == Ok(after) && pendingAfter == pendingBefore + {Full(NextEpoch(before))}
  }

  /** What settling leaves of a batch, by what happened to its rebuild. */
  ghost predicate Settled(before: Dirty, pendingBefore: set<Ticket>, batch: set<Ticket>, executedFull: bool,
                          outcome: Outcome, sourceUnchanged: bool, shutdown: bool, after: Dirty,
                          pendingAfter: set<Ticket>)
  {
    if MayClear(executedFull, outcome, sourceUnchanged, shutdown) then
      after == Clear(before, batch) && pendingAfter == pendingBefore
    else if shutdown || outcome == Cancelled then
      after == before && pendingAfter == pendingBefore
    else if outcome == NotPrepared && !executedFull && Promote(before, batch).Ok? then
      Replaced(before, pendingBefore, batch, after, pendingAfter)
    else
      after == before && pendingAfter == pendingBefore + batch
  }

  /** A ticket of the batch leaves the table in three ways only; one that stays is pending, except in shutdown. */
  lemma SettledTickets(before: Dirty, pendingBefore: set<Ticket>, batch: set<Ticket>, executedFull: bool,
                       outcome: Outcome, sourceUnchanged: bool, shutdown: bool, after: Dirty, pendingAfter: set<Ticket>,
                       k: Ticket)
    requires Settled(before, pendingBefore, batch, executedFull, outcome, sourceUnchanged, shutdown, after,
                     pendingAfter)
    requires k in batch && Has(before, k, Committed) && k.epoch <= before.nextEpoch < U64_MAX
    ensures k !in after.tickets ==>
              || outcome == Published
              || (executedFull && outcome in {NotPrepared, Failed} && sourceUnchanged && !shutdown)
              || (!executedFull && outcome == NotPrepared && !shutdown
                  && Has(after, Full(before.nextEpoch + 1), Committed) && Full(before.nextEpoch + 1) in pendingAfter)
    ensures k in after.tickets ==> Has(after, k, Committed) && (k in pendingAfter || shutdown || outcome == Cancelled)
  {
  }

  class RebuildQueue {
    var fullEpochs: set<nat>
    var openTargets: map<TermCampusKey, set<nat>>

    ghost var pending: set<Ticket>

    /** `pending` is both collections as one set of tickets; no target keeps an empty entry. */
    ghost predicate Valid()
      reads this
    {
      && pending == FullTickets(fullEpochs) + TicketsOf(openTargets)
      && NoEmptyEntry(openTargets)
    }

    constructor ()
      ensures Valid() && pending == {}
    {
      fullEpochs, openTargets := {}, map[];
      pending := {};
    }

    method MergeRequest(request: Request) returns (shutdown: bool)
      requires Valid()
      modifies this
      ensures Valid() && shutdown == request.ShutdownRequest?
      ensures pending == old(pending) + TicketsIn([request])
      ensures match request
              case FullRequest(e) => pending == old(pending) + {Full(e)}
              case OpenRequest(t, e) => pending == old(pending) + {Open(t, e)}
              case ShutdownRequest => pending == old(pending)
    {
      match request
      case FullRequest(epoch) =>
        fullEpochs := fullEpochs + {epoch};
        pending := pending + {Full(epoch)};
        shutdown := false;
      case OpenRequest(target, epoch) =>
        openTargets := openTargets[target := EpochsIn(openTargets, target) + {epoch}];
        pending := pending + {Open(target, epoch)};
        shutdown := false;
      case ShutdownRequest =>
        shutdown := true;
    }

    /** Merges everything waiting in the channel. */
    method DrainChannel(waiting: seq<Request>, shutdownBefore: bool) returns (shutdown: bool)
      requires Valid()
      modifies this
      ensures Valid() && pending == old(pending) + TicketsIn(waiting)
      ensures shutdown == (shutdownBefore || ShutdownRequest in waiting)
    {
      shutdown := shutdownBefore;
      for i := 0 to |waiting|
        invariant Valid() && pending == old(pending) + TicketsIn(waiting[..i])
        invariant shutdown == (shutdownBefore || ShutdownRequest in waiting[..i])
      {
        var stop := MergeRequest(waiting[i]);
        assert waiting[..i + 1] == waiting[..i] + [waiting[i]];
        assert TicketsIn(waiting[..i + 1]) == TicketsIn(waiting[..i]) + TicketsIn([waiting[i]]);
        shutdown := shutdown || stop;
      }
      assert waiting[..|waiting|] == waiting;
    }

    /** Takes every pending Full ticket, or else every pending Open ticket. */
    method TakeBatch() returns (full: set<nat>, open: map<TermCampusKey, set<nat>>)
      requires Valid()
      modifies this
      ensures Valid() && NoEmptyEntry(open) && (full != {} ==> open == map[])
      ensures FullTickets(full) + TicketsOf(open) == Publication.NextBatch(old(pending))
      ensures pending == old(pending) - Publication.NextBatch(old(pending))
      ensures forall e :: e in full <==> Full(e) in old(pending)
      ensures full == {} ==> TicketsOf(open) == old(pending) && pending == {}
      ensures full != {} ==> forall k :: k in pending <==> k in old(pending) && k.Open?
      ensures full == {} && open == map[] ==> old(pending) == {}
    {
      full, fullEpochs := fullEpochs, {};
      pending := pending - Publication.NextBatch(pending);
      assert FullTickets(full) == set k | k in old(pending) && k.Full?;
      if full != {} {
        ghost var e :| e in full;
        assert Full(e) in FullTickets(full);
        open := map[];
      } else {
        open, openTargets := openTargets, map[];
      }
    }

    /** Removes an executed Open batch from the registry, target by target. */
    method ClearExecutedOpen(registry: PreparedServingRegistry, executed: map<TermCampusKey, set<nat>>)
      requires registry.Valid()
      modifies registry
      ensures registry.Valid() && registry.table == Clear(old(registry.table), TicketsOf(executed))
    {
      var rest := executed.Keys;
      ghost var gone: set<Ticket> := {};
      while rest != {}
        invariant rest <= executed.Keys && registry.Valid()
        invariant forall k :: k in gone <==>
                    k.Open? && k.target in executed.Keys - rest && k.epoch in executed[k.target]
        invariant registry.table == Clear(old(registry.table), gone)
        decreases |rest|
      {
        var t :| t in rest;
        ghost var before := registry.table;
        ghost var cleared := set e | e in executed[t] :: Open(t, e);
        registry.ClearOpenTickets(t, executed[t]);
        assert Clear(before, cleared).tickets == Clear(old(registry.table), gone + cleared).tickets;
        gone := gone + cleared;
        rest := rest - {t};
      }
      assert gone == TicketsOf(executed);
    }

    /**
      Settles an executed batch. A ticket of it leaves the table only when a generation was published, when
      a failed Full rebuild found its source unchanged, or when one pending Full ticket replaces the batch;
      unless the worker is shutting down, a ticket that stays is pending again.
     */
    method Settle(registry: PreparedServingRegistry, full: set<nat>, open: map<TermCampusKey, set<nat>>,
                  outcome: Outcome, sourceUnchanged: bool, shutdown: bool)
      requires Valid() && registry.Valid()
      requires NoEmptyEntry(open) && (full == {} || open == map[])
      modifies this, registry
      ensures Valid() && registry.Valid()
      ensures Settled(old(registry.table), old(pending), FullTickets(full) + TicketsOf(open), full != {},
                      outcome, sourceUnchanged, shutdown, registry.table, pending)
      ensures var batch := FullTickets(full) + TicketsOf(open);
              var before := old(registry.table);
              forall k | k in batch && Has(before, k, Committed) && k !in registry.table.tickets ::
                || outcome == Published
                || (full != {} && outcome in {NotPrepared, Failed} && sourceUnchanged && !shutdown)
                || (full == {} && outcome == NotPrepared && !shutdown
                    && Has(registry.table, Full(NextEpoch(before)), Committed) && Full(NextEpoch(before)) in pending)
      ensures var batch := FullTickets(full) + TicketsOf(open);
              var before := old(registry.table);
              !shutdown && outcome != Cancelled
              && (forall k | k in batch :: k in before.tickets && before.tickets[k] == Committed)
              ==> forall k | k in batch && k in registry.table.tickets :: k in pending
    {
      ghost var batch := FullTickets(full) + TicketsOf(open);
      if full != {} {
        assert batch == FullTickets(full);
      } else {
        assert batch == TicketsOf(open);
      }
      var fate := FateOf(full != {}, outcome, sourceUnchanged, shutdown);
      match fate
      case ClearTickets =>
        if full != {} {
          registry.ClearFullTickets(full);
        } else {
          ClearExecutedOpen(registry, open);
        }
      case Requeue =>
        if full != {} {
          fullEpochs := fullEpochs + full;
          pending := pending + FullTickets(full);
        } else {
          openTargets := RequeueOpenTickets(openTargets, open);
          pending := pending + TicketsOf(open);
        }
      case PromoteToFull =>
        PromotableHasTickets(registry.table, open);
        var promoted := registry.PromoteOpenTicketsToFull(open);
        if promoted.Ok? {
          fullEpochs := fullEpochs + {promoted.value};
          pending := pending + {Full(promoted.value)};
        } else {
          openTargets := RequeueOpenTickets(openTargets, open);
          pending := pending + TicketsOf(open);
        }
      case LeaveDirty =>
    }
  }
}
