/**
  The dirty-ticket table behind prepared-serving admission.

  `Dirty` is the table as one flat map from tickets to phases, with the registry's
  operations as functions on it. `PreparedServingRegistry` is the table as it is
  stored: one map of Full epochs and, per target, one map of Open epochs.
 */
module DirtyTickets {
  import opened Common

  datatype DirtyPhase = Precommit | Committed

  datatype Ticket =
    | Full(epoch: nat)
    | Open(target: TermCampusKey, epoch: nat)

  datatype Dirty = Dirty(nextEpoch: nat, tickets: map<Ticket, DirtyPhase>)

  datatype ServingError = SnapshotUnavailable | SnapshotRebuilding | PublicationBarrierUnavailable

  /** A bound generation and the targets whose Open evidence it must not use. */
  datatype Binding<+S> = Binding(snapshot: S, forcedOpenUnavailable: set<TermCampusKey>)

  // ----- Operations on the flat table -----

  function NextEpoch(d: Dirty): nat {
    if d.nextEpoch < U64_MAX then d.nextEpoch + 1 else d.nextEpoch
  }

  function MarkFull(d: Dirty): Dirty {
    Dirty(NextEpoch(d), d.tickets[Full(NextEpoch(d)) := Precommit])
  }

  function MarkOpen(d: Dirty, target: TermCampusKey): Dirty {
    Dirty(NextEpoch(d), d.tickets[Open(target, NextEpoch(d)) := Precommit])
  }

  function CommitTicket(d: Dirty, k: Ticket): Result<Dirty, ServingError> {
    if k in d.tickets then Ok(d.(tickets := d.tickets[k := Committed])) else Err(PublicationBarrierUnavailable)
  }

  function Rollback(d: Dirty, k: Ticket): Dirty {
    if k in d.tickets && d.tickets[k] == Precommit then d.(tickets := d.tickets - {k}) else d
  }

  /** Replaces one Precommit Full ticket by one Committed Open ticket of a fresh epoch. */
  function Narrow(d: Dirty, epoch: nat, target: TermCampusKey): Result<Dirty, ServingError> {
    if Full(epoch) in d.tickets && d.tickets[Full(epoch)] == Precommit then
      Ok(Dirty(NextEpoch(d), (d.tickets - {Full(epoch)})[Open(target, NextEpoch(d)) := Committed]))
    else
      Err(PublicationBarrierUnavailable)
  }

  /** Removes the completed tickets, except those still in their Precommit window. */
  function Clear(d: Dirty, completed: set<Ticket>): Dirty {
    d.(tickets := map k | k in d.tickets && (k !in completed || d.tickets[k] == Precommit) :: d.tickets[k])
  }

  /** Replaces a batch of Committed Open tickets by one Committed Full ticket, all or nothing. */
  function Promote(d: Dirty, batch: set<Ticket>): Result<Dirty, ServingError> {
    if forall k | k in batch :: k in d.tickets && d.tickets[k] == Committed then
      Ok(Dirty(NextEpoch(d), (d.tickets - batch)[Full(NextEpoch(d)) := Committed]))
    else
      Err(PublicationBarrierUnavailable)
  }

  /** Any Full ticket, or any Committed Open ticket, closes new bindings. */
  predicate AdmissionBlocked(d: Dirty) {
    exists k | k in d.tickets :: k.Full? || d.tickets[k] == Committed
  }

  function MaskedTargets(d: Dirty): set<TermCampusKey> {
    set k | k in d.tickets && k.Open? :: k.target
  }

  function Bind<S>(d: Dirty, current: Option<S>): Result<Binding<S>, ServingError> {
    if AdmissionBlocked(d) then Err(SnapshotRebuilding)
    else if current.None? then Err(SnapshotUnavailable)
    else Ok(Binding(current.value, MaskedTargets(d)))
  }

  // ----- What the operations do to a ticket -----

  /** The ticket is in the table, in this phase. */
  predicate Has(d: Dirty, x: Ticket, phase: DirtyPhase) {
    x in d.tickets && d.tickets[x] == phase
  }

  /** Beginning adds one Precommit ticket of a fresh epoch; committing turns a known one, in place. */
  lemma BeginAndCommit(d: Dirty, target: TermCampusKey, k: Ticket, x: Ticket, phase: DirtyPhase)
    ensures var e := NextEpoch(d);
            && (Has(MarkFull(d), x, phase) <==> if x == Full(e) then phase == Precommit else Has(d, x, phase))
            && (Has(MarkOpen(d, target), x, phase) <==>
                  if x == Open(target, e) then phase == Precommit else Has(d, x, phase))
    ensures CommitTicket(d, k).Ok? <==> Has(d, k, Precommit) || Has(d, k, Committed)
    ensures CommitTicket(d, k).Ok? ==>
              (Has(CommitTicket(d, k).value, x, phase) <==> if x == k then phase == Committed else Has(d, x, phase))
  {
  }

  /** Only a Precommit ticket is rolled back, only a Committed one is cleared. */
  lemma RollbackAndClear(d: Dirty, k: Ticket, done: set<Ticket>, x: Ticket, phase: DirtyPhase)
    ensures Has(Rollback(d, k), x, phase) <==> Has(d, x, phase) && !(x == k && phase == Precommit)
    ensures Has(Clear(d, done), x, phase) <==> Has(d, x, phase) && !(x in done && phase == Committed)
  {
  }

  /** Narrowing trades one Precommit Full ticket, and promotion a batch of Committed ones, for one Committed heir. */
  lemma NarrowAndPromote(d: Dirty, epoch: nat, target: TermCampusKey, batch: set<Ticket>, x: Ticket, phase: DirtyPhase)
    ensures Narrow(d, epoch, target).Ok? <==> Has(d, Full(epoch), Precommit)
    ensures Narrow(d, epoch, target).Ok? ==>
              (Has(Narrow(d, epoch, target).value, x, phase) <==>
                 if x == Open(target, NextEpoch(d)) then phase == Committed else Has(d, x, phase) && x != Full(epoch))
    ensures Promote(d, batch).Ok? <==> forall k | k in batch :: Has(d, k, Committed)
    ensures Promote(d, batch).Ok? ==>
              (Has(Promote(d, batch).value, x, phase) <==>
                 if x == Full(NextEpoch(d)) then phase == Committed else Has(d, x, phase) && x !in batch)
  {
  }

  /** Binding is open exactly while every ticket is an Open one still in its Precommit window, and then masks
      exactly the targets those tickets name. */
  lemma BindExactly<S>(d: Dirty, current: Option<S>)
    ensures Bind(d, current).Ok? <==>
              current.Some? && forall k | k in d.tickets :: k.Open? && d.tickets[k] == Precommit
    ensures Bind(d, current).Ok? ==> Bind(d, current).value.snapshot == current.value
    ensures Bind(d, current).Ok? ==>
              forall t :: t in Bind(d, current).value.forcedOpenUnavailable <==> exists e :: Open(t, e) in d.tickets
  {
    if Bind(d, current).Ok? {
      forall t ensures t in Bind(d, current).value.forcedOpenUnavailable <==> exists e :: Open(t, e) in d.tickets {
        if k :| k in d.tickets && k.Open? && k.target == t {
          assert k == Open(t, k.epoch);
        }
      }
    }
  }

  // ----- The table as stored -----

  /** The Open tickets a worker-side batch stands for. */
  ghost function TicketsOf(batch: map<TermCampusKey, set<nat>>): set<Ticket> {
    set t, e | t in batch && e in batch[t] :: Open(t, e)
  }

  class PreparedServingRegistry {
    var nextEpoch: nat
    var fullEpochs: map<nat, DirtyPhase>
    var openEpochs: map<TermCampusKey, map<nat, DirtyPhase>>

    ghost var table: Dirty

    predicate Stored(k: Ticket)
      reads this
    {
      match k
      case Full(e) => e in fullEpochs
      case Open(t, e) => t in openEpochs && e in openEpochs[t]
    }

    function PhaseOf(k: Ticket): DirtyPhase
      requires Stored(k)
      reads this
    {
      match k
      case Full(e) => fullEpochs[e]
      case Open(t, e) => openEpochs[t][e]
    }

    ghost predicate Represents(d: Dirty)
      reads this
    {
      && d.nextEpoch == nextEpoch
      && (forall k: Ticket :: k in d.tickets <==> Stored(k))
      && (forall k: Ticket | k in d.tickets :: d.tickets[k] == PhaseOf(k))
    }

    /** `table` is the stored maps laid flat. No target keeps an empty epoch map, because the
        key set of `openEpochs` is the serving mask. */
    ghost predicate Valid()
      reads this
    {
      && Represents(table)
      && (forall t | t in openEpochs :: openEpochs[t] != map[])
    }

    constructor ()
      ensures Valid() && table == Dirty(0, map[])
    {
      nextEpoch, fullEpochs, openEpochs := 0, map[], map[];
      table := Dirty(0, map[]);
    }

    /** The next epoch, saturating at the top of the 64-bit range. */
    method NextDirtyEpoch() returns (epoch: nat)
      modifies this`nextEpoch
      ensures epoch == nextEpoch == old(if nextEpoch < U64_MAX then nextEpoch + 1 else nextEpoch)
    {
      if nextEpoch < U64_MAX {
        nextEpoch := nextEpoch + 1;
      }
      epoch := nextEpoch;
    }

    method MarkFullDirty() returns (epoch: nat)
      requires Valid()
      modifies this
      ensures Valid() && epoch == old(NextEpoch(table)) && table == MarkFull(old(table))
    {
      epoch := NextDirtyEpoch();
      fullEpochs := fullEpochs[epoch := Precommit];
      table := MarkFull(table);
    }

    /** The epochs of one target, empty for an unknown target. */
    function EpochsOf(target: TermCampusKey): map<nat, DirtyPhase>
      reads this
    {
      if target in openEpochs then openEpochs[target] else map[]
    }

    /** Stores a target's epoch map, dropping the target once its last epoch is gone. */
    method PutEpochs(target: TermCampusKey, epochs: map<nat, DirtyPhase>)
      modifies this`openEpochs
      ensures openEpochs == if epochs == map[] then old(openEpochs) - {target} else old(openEpochs)[target := epochs]
      ensures forall e :: Stored(Open(target, e)) <==> e in epochs
      ensures forall k: Ticket | !(k.Open? && k.target == target) ::
                Stored(k) == old(Stored(k)) && (Stored(k) ==> PhaseOf(k) == old(PhaseOf(k)))
    {
      if |epochs| == 0 {
        openEpochs := openEpochs - {target};
      } else {
        openEpochs := openEpochs[target := epochs];
      }
    }

    method MarkOpenDirty(target: TermCampusKey) returns (epoch: nat)
      requires Valid()
      modifies this
      ensures Valid() && epoch == old(NextEpoch(table)) && table == MarkOpen(old(table), target)
    {
      epoch := NextDirtyEpoch();
      var epochs := EpochsOf(target)[epoch := Precommit];
      assert epoch in epochs;
      openEpochs := openEpochs[target := epochs];
      table := MarkOpen(table, target);
    }

    method CommitFullDirty(epoch: nat) returns (ok: bool)
      requires Valid()
      modifies this
      ensures Valid() && ok == CommitTicket(old(table), Full(epoch)).Ok?
      ensures table == if ok then CommitTicket(old(table), Full(epoch)).value else old(table)
    {
      ok := epoch in fullEpochs;
      assert ok == Stored(Full(epoch));
      if ok {
        fullEpochs := fullEpochs[epoch := Committed];
        table := CommitTicket(table, Full(epoch)).value;
      }
    }

    method CommitOpenDirty(target: TermCampusKey, epoch: nat) returns (ok: bool)
      requires Valid()
      modifies this
      ensures Valid() && ok == CommitTicket(old(table), Open(target, epoch)).Ok?
      ensures table == if ok then CommitTicket(old(table), Open(target, epoch)).value else old(table)
    {
      ok := target in openEpochs && epoch in openEpochs[target];
      assert ok == Stored(Open(target, epoch));
      if ok {
        var epochs := EpochsOf(target)[epoch := Committed];
        assert epoch in epochs;
        openEpochs := openEpochs[target := epochs];
        table := CommitTicket(table, Open(target, epoch)).value;
      }
    }

    method RollbackFullDirty(epoch: nat)
      requires Valid()
      modifies this
      ensures Valid() && table == Rollback(old(table), Full(epoch))
    {
      assert Stored(Full(epoch)) == (epoch in fullEpochs);
      if epoch in fullEpochs && fullEpochs[epoch] == Precommit {
        fullEpochs := fullEpochs - {epoch};
        table := Rollback(table, Full(epoch));
      }
    }

    method RollbackOpenDirty(target: TermCampusKey, epoch: nat)
      requires Valid()
      modifies this
      ensures Valid() && table == Rollback(old(table), Open(target, epoch))
    {
      assert Stored(Open(target, epoch)) == (target in openEpochs && epoch in openEpochs[target]);
      if target in openEpochs && epoch in openEpochs[target] && openEpochs[target][epoch] == Precommit {
        PutEpochs(target, openEpochs[target] - {epoch});
        table := Rollback(table, Open(target, epoch));
      }
    }

    /** Adds an Open ticket that is Committed from the start. */
    method AddCommittedOpen(target: TermCampusKey) returns (epoch: nat)
      requires Valid()
      modifies this
      ensures Valid() && epoch == old(NextEpoch(table))
      ensures table == Dirty(epoch, old(table).tickets[Open(target, epoch) := Committed])
    {
      epoch := NextDirtyEpoch();
      var epochs := EpochsOf(target)[epoch := Committed];
      assert epoch in epochs;
      openEpochs := openEpochs[target := epochs];
      table := Dirty(epoch, table.tickets[Open(target, epoch) := Committed]);
    }

    method ConvertFullDirtyToOpen(fullEpoch: nat, target: TermCampusKey)
      returns (r: Result<nat, ServingError>)
      requires Valid()
      modifies this
      ensures Valid() && r.Ok? == Narrow(old(table), fullEpoch, target).Ok?
      ensures r.Ok? ==> r.value == old(NextEpoch(table))
      ensures table == if r.Ok? then Narrow(old(table), fullEpoch, target).value else old(table)
    {
      assert Stored(Full(fullEpoch)) == (fullEpoch in fullEpochs);
      if fullEpoch !in fullEpochs {
        return Err(PublicationBarrierUnavailable);
      }
      var phase := fullEpochs[fullEpoch];
      fullEpochs := fullEpochs - {fullEpoch};
      if phase != Precommit {
        fullEpochs := fullEpochs[fullEpoch := phase];
        assert fullEpochs == old(fullEpochs);
        return Err(PublicationBarrierUnavailable);
      }
      table := table.(tickets := table.tickets - {Full(fullEpoch)});
      var openEpoch := AddCommittedOpen(target);
      r := Ok(openEpoch);
    }

    method ClearFullTickets(completed: set<nat>)
      requires Valid()
      modifies this
      ensures Valid() && table == Clear(old(table), set e | e in completed :: Full(e))
    {
      fullEpochs := map e | e in fullEpochs && (e !in completed || fullEpochs[e] == Precommit) :: fullEpochs[e];
      table := Clear(table, set e | e in completed :: Full(e));
    }

    method ClearOpenTickets(target: TermCampusKey, completed: set<nat>)
      requires Valid()
      modifies this
      ensures Valid() && table == Clear(old(table), set e | e in completed :: Open(target, e))
    {
      if target in openEpochs {
        var epochs := openEpochs[target];
        PutEpochs(target, map e | e in epochs && (e !in completed || epochs[e] == Precommit) :: epochs[e]);
      }
      table := Clear(table, set e | e in completed :: Open(target, e));
    }

    /** The keys of the nested map are the targets with a ticket. */
    lemma MaskIsStored(target: TermCampusKey)
      requires Valid()
      ensures target in openEpochs <==> target in MaskedTargets(table)
    {
      if target in openEpochs {
        var e :| e in openEpochs[target];
        assert Stored(Open(target, e));
      }
    }

    /** True when the target has tickets and every executed epoch of it is still a Committed one. */
    method AllCommitted(target: TermCampusKey, epochs: set<nat>) returns (all: bool)
      requires Valid()
      ensures all <==> target in MaskedTargets(table) && forall e | e in epochs ::
                         Open(target, e) in table.tickets && table.tickets[Open(target, e)] == Committed
    {
      MaskIsStored(target);
      all := target in openEpochs &&
             forall e | e in epochs :: e in openEpochs[target] && openEpochs[target][e] == Committed;
      assert forall e :: Stored(Open(target, e)) <==> target in openEpochs && e in openEpochs[target];
    }

    /** Removes one executed target's tickets. */
    method RemoveExecuted(target: TermCampusKey, epochs: set<nat>)
      requires Valid()
      modifies this`openEpochs, this`table
      ensures Valid() && table == old(table).(tickets := old(table).tickets - set e | e in epochs :: Open(target, e))
    {
      if target in openEpochs {
        var active := openEpochs[target];
        PutEpochs(target, map e | e in active && e !in epochs :: active[e]);
      }
      table := table.(tickets := table.tickets - set e | e in epochs :: Open(target, e));
    }

    /** True when every executed target has tickets and every executed ticket is still Committed. */
    method ExecutedCommitted(executed: map<TermCampusKey, set<nat>>) returns (all: bool)
      requires Valid()
      ensures all <==> executed.Keys <= MaskedTargets(table) && Promote(table, TicketsOf(executed)).Ok?
    {
      var rest := executed.Keys;
      while rest != {}
        invariant rest <= executed.Keys
        invariant forall t | t in executed.Keys - rest :: t in MaskedTargets(table)
        invariant forall t, e | t in executed.Keys - rest && e in executed[t] ::
                    Open(t, e) in table.tickets && table.tickets[Open(t, e)] == Committed
        decreases |rest|
      {
        var t :| t in rest;
        all := AllCommitted(t, executed[t]);
        if !all {
          if t in MaskedTargets(table) {
            ghost var e :| e in executed[t] && !(Open(t, e) in table.tickets && table.tickets[Open(t, e)] == Committed);
            assert Open(t, e) in TicketsOf(executed);
          }
          return;
        }
        rest := rest - {t};
      }
      all := true;
    }

    method RemoveAllExecuted(executed: map<TermCampusKey, set<nat>>)
      requires Valid()
      modifies this`openEpochs, this`table
      ensures Valid() && table == old(table).(tickets := old(table).tickets - TicketsOf(executed))
    {
      var rest := executed.Keys;
      ghost var gone: set<Ticket> := {};
      while rest != {}
        invariant rest <= executed.Keys && Valid()
        invariant forall k :: k in gone <==>
                    k.Open? && k.target in executed.Keys - rest && k.epoch in executed[k.target]
        invariant table == old(table).(tickets := old(table).tickets - gone)
        decreases |rest|
      {
        var t :| t in rest;
        ghost var before := table.tickets;
        ghost var removed := set e | e in executed[t] :: Open(t, e);
        RemoveExecuted(t, executed[t]);
        assert before - removed == old(table).tickets - (gone + removed);
        gone := gone + removed;
        rest := rest - {t};
      }
      assert gone == TicketsOf(executed);
    }

    /** Adds a Full ticket that is Committed from the start. */
    method AddCommittedFull() returns (epoch: nat)
      requires Valid()
      modifies this
      ensures Valid() && epoch == old(NextEpoch(table))
      ensures table == Dirty(epoch, old(table).tickets[Full(epoch) := Committed])
    {
      epoch := NextDirtyEpoch();
      fullEpochs := fullEpochs[epoch := Committed];
      table := Dirty(epoch, table.tickets[Full(epoch) := Committed]);
    }

    /** Replaces the executed Open tickets by one Full ticket, or changes nothing. A target listed without
        epochs still has to have some ticket. */
    method PromoteOpenTicketsToFull(executed: map<TermCampusKey, set<nat>>) returns (r: Result<nat, ServingError>)
      requires Valid()
      modifies this
      ensures Valid()
      ensures r.Ok? <==> executed.Keys <= MaskedTargets(old(table)) && Promote(old(table), TicketsOf(executed)).Ok?
      ensures r.Ok? ==> r.value == old(NextEpoch(table))
      ensures table == if r.Ok? then Promote(old(table), TicketsOf(executed)).value else old(table)
    {
      var all := ExecutedCommitted(executed);
      if !all {
        return Err(PublicationBarrierUnavailable);
      }
      RemoveAllExecuted(executed);
      var epoch := AddCommittedFull();
      r := Ok(epoch);
    }

    /** Binds the current generation without waiting. */
    method Snapshot<S>(current: Option<S>) returns (r: Result<Binding<S>, ServingError>)
      requires Valid()
      ensures r == Bind(table, current)
      ensures r.Ok? <==> current.Some? && forall k | k in table.tickets :: k.Open? && table.tickets[k] == Precommit
      ensures r.Ok? ==> r.value.snapshot == current.value
      ensures r.Ok? ==> forall t :: t in r.value.forcedOpenUnavailable <==> exists e :: Open(t, e) in table.tickets
      ensures r == Err(SnapshotRebuilding) <==>
                exists k | k in table.tickets :: k.Full? || table.tickets[k] == Committed
    {
      BindExactly(table, current);
      var blocked := |fullEpochs| != 0 ||
                     exists t | t in openEpochs :: exists e | e in openEpochs[t] :: openEpochs[t][e] == Committed;
      assert blocked == AdmissionBlocked(table) by {
        if |fullEpochs| != 0 {
          var e :| e in fullEpochs;
          assert Stored(Full(e));
        }
        if t, e :| t in openEpochs && e in openEpochs[t] && openEpochs[t][e] == Committed {
          assert Stored(Open(t, e));
        }
      }
      if blocked {
        return Err(SnapshotRebuilding);
      }
      if current.None? {
        return Err(SnapshotUnavailable);
      }
      assert openEpochs.Keys == MaskedTargets(table) by {
        forall t | t in openEpochs ensures t in MaskedTargets(table) {
          var e :| e in openEpochs[t];
          assert Stored(Open(t, e));
        }
      }
      r := Ok(Binding(current.value, openEpochs.Keys));
    }
  }
}
