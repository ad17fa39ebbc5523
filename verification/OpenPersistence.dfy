/**
  The persistence object of one Open pull. It opens a publication barrier before each terminal store
  transaction and closes it according to what the transaction did. Storage itself is a parameter: each
  method takes the outcome its transaction will have.
 */
module OpenPersistence {
  import opened Common
  import opened DirtyTickets
  import opened RebuildWorker

  function TicketFor(r: Request): Ticket
    requires !r.ShutdownRequest?
  {
    match r
    case FullRequest(e) => Full(e)
    case OpenRequest(t, e) => Open(t, e)
  }

  ghost predicate EpochsBounded(d: Dirty) {
    forall k | k in d.tickets :: k.epoch <= d.nextEpoch
  }

  // ----- Barriers -----

  /** What a writer holds: the registry, the lifecycle gate and the sending end of the worker's channel. */
  class PublicationDemand {
    const registry: PreparedServingRegistry
    var accepting: bool
    var activeAdmissions: nat
    var channel: seq<Request>
    var channelOpen: bool

    ghost predicate Valid()
      reads this, registry
    {
      registry.Valid() && EpochsBounded(registry.table)
    }

    constructor (registry: PreparedServingRegistry)
      requires registry.Valid() && EpochsBounded(registry.table)
      ensures Valid() && this.registry == registry && accepting && activeAdmissions == 0 && channel == [] && channelOpen
    {
      this.registry := registry;
      accepting, activeAdmissions, channel, channelOpen := true, 0, [], true;
    }

    /** The lifecycle gate: counts one admission, or refuses. */
    method Admit() returns (admitted: bool)
      modifies this`activeAdmissions
      ensures admitted == accepting
      ensures activeAdmissions == old(activeAdmissions) + if admitted && old(activeAdmissions) < USIZE_MAX then 1 else 0
    {
      if accepting && activeAdmissions < USIZE_MAX {
        activeAdmissions := activeAdmissions + 1;
      }
      admitted := accepting;
    }

    method Release()
      modifies this`activeAdmissions
      ensures activeAdmissions == if old(activeAdmissions) > 0 then old(activeAdmissions) - 1 else 0
    {
      if activeAdmissions > 0 {
        activeAdmissions := activeAdmissions - 1;
      }
    }

    method Send(request: Request)
      modifies this`channel
      ensures channel == old(channel) + if channelOpen then [request] else []
    {
      if channelOpen {
        channel := channel + [request];
      }
    }

    method BeginPublication() returns (epoch: Option<nat>)
      requires Valid()
      modifies this`activeAdmissions, registry
      ensures Valid() && epoch.Some? == accepting
      ensures epoch.Some? ==>
                epoch.value == old(NextEpoch(registry.table)) && registry.table == MarkFull(old(registry.table))
      ensures epoch.None? ==> registry.table == old(registry.table) && activeAdmissions == old(activeAdmissions)
      ensures epoch.Some? && old(activeAdmissions) < USIZE_MAX ==> activeAdmissions == old(activeAdmissions) + 1
    {
      var admitted := Admit();
      if !admitted {
        return None;
      }
      var e := registry.MarkFullDirty();
      epoch := Some(e);
    }

    method BeginOpenPublication(target: TermCampusKey) returns (epoch: Option<nat>)
      requires Valid()
      modifies this`activeAdmissions, registry
      ensures Valid() && epoch.Some? == accepting
      ensures epoch.Some? ==>
                epoch.value == old(NextEpoch(registry.table)) && registry.table == MarkOpen(old(registry.table), target)
      ensures epoch.None? ==> registry.table == old(registry.table) && activeAdmissions == old(activeAdmissions)
      ensures epoch.Some? && old(activeAdmissions) < USIZE_MAX ==> activeAdmissions == old(activeAdmissions) + 1
    {
      var admitted := Admit();
      if !admitted {
        return None;
      }
      var e := registry.MarkOpenDirty(target);
      epoch := Some(e);
    }

    /** Commits a Full barrier and queues its rebuild. */
    method CommitFull(epoch: nat)
      requires Valid()
      modifies this`activeAdmissions, this`channel, registry
      ensures Valid() && activeAdmissions == old(if activeAdmissions > 0 then activeAdmissions - 1 else 0)
      ensures match CommitTicket(old(registry.table), Full(epoch))
              case Ok(d) => registry.table == d
                && channel == old(channel) + if channelOpen then [FullRequest(epoch)] else []
              case Err(_) => registry.table == old(registry.table) && channel == old(channel)
    {
      var ok := registry.CommitFullDirty(epoch);
      if ok {
        Send(FullRequest(epoch));
      }
      Release();
    }

    method CommitOpen(target: TermCampusKey, epoch: nat)
      requires Valid()
      modifies this`activeAdmissions, this`channel, registry
      ensures Valid() && activeAdmissions == old(if activeAdmissions > 0 then activeAdmissions - 1 else 0)
      ensures match CommitTicket(old(registry.table), Open(target, epoch))
              case Ok(d) => registry.table == d
                && channel == old(channel) + if channelOpen then [OpenRequest(target, epoch)] else []
              case Err(_) => registry.table == old(registry.table) && channel == old(channel)
    {
      var ok := registry.CommitOpenDirty(target, epoch);
      if ok {
        Send(OpenRequest(target, epoch));
      }
      Release();
    }

    /** Narrows a Full barrier to one target's Open ticket; on failure asks for a Full rebuild instead. */
    method CommitAsOpen(epoch: nat, target: TermCampusKey)
      requires Valid()
      modifies this`activeAdmissions, this`channel, registry
      ensures Valid() && activeAdmissions == old(if activeAdmissions > 0 then activeAdmissions - 1 else 0)
      ensures match Narrow(old(registry.table), epoch, target)
              case Ok(d) =>
                && registry.table == d
                && channel == old(channel)
                  + if channelOpen then [OpenRequest(target, old(NextEpoch(registry.table)))] else []
              case Err(_) =>
                registry.table == old(registry.table)
                  && channel == old(channel) + if channelOpen then [FullRequest(epoch)] else []
    {
      var narrowed := registry.ConvertFullDirtyToOpen(epoch, target);
      match narrowed {
        case Ok(openEpoch) => Send(OpenRequest(target, openEpoch));
        case Err(_) => Send(FullRequest(epoch));
      }
      Release();
    }

    method DropFull(epoch: nat)
      requires Valid()
      modifies this`activeAdmissions, registry
      ensures Valid() && registry.table == Rollback(old(registry.table), Full(epoch))
      ensures activeAdmissions == old(if activeAdmissions > 0 then activeAdmissions - 1 else 0)
    {
      registry.RollbackFullDirty(epoch);
      Release();
    }

    method DropOpen(target: TermCampusKey, epoch: nat)
      requires Valid()
      modifies this`activeAdmissions, registry
      ensures Valid() && registry.table == Rollback(old(registry.table), Open(target, epoch))
      ensures activeAdmissions == old(if activeAdmissions > 0 then activeAdmissions - 1 else 0)
    {
      registry.RollbackOpenDirty(target, epoch);
      Release();
    }
  }

  // ----- The persistence object -----

  /** A terminal transaction that committed, and whether it published a Catalog. */
  datatype Terminal = Terminal(target: TermCampusKey, published: bool)

  datatype SuccessOutcome = StorageFailed | StorageCommitted(catalogPublished: bool)

  datatype ServiceCall =
    | BeginCall(target: TermCampusKey, commits: bool)
    | SuccessCall(storage: SuccessOutcome, fallbackCommits: bool)
    | FailureCall(commits: bool)

  datatype Parked = Parked(target: TermCampusKey, epoch: nat)

  /** The request that answers a terminal: Full exactly when a Catalog was published. */
  predicate Answers(t: Terminal, r: Request) {
    if t.published then r.FullRequest? else r.OpenRequest? && r.target == t.target
  }

  predicate AllAnswered(terminals: seq<Terminal>, sent: seq<Request>) {
    |terminals| == |sent| && forall i | 0 <= i < |sent| :: Answers(terminals[i], sent[i])
  }

  predicate NoShutdown(sent: seq<Request>) {
    forall r | r in sent :: !r.ShutdownRequest?
  }

  /** The dirty tickets once each request's ticket has been added as Committed. */
  function MarkAll(tickets: map<Ticket, DirtyPhase>, sent: seq<Request>): map<Ticket, DirtyPhase>
    requires NoShutdown(sent)
  {
    if sent == [] then tickets
    else MarkAll(tickets, sent[..|sent| - 1])[TicketFor(sent[|sent| - 1]) := Committed]
  }

  /** Each terminal left exactly one Committed ticket of the right kind, queued in order; nothing else changed. */
  ghost predicate Bracketed(before: map<Ticket, DirtyPhase>, after: map<Ticket, DirtyPhase>,
                            queueBefore: seq<Request>, queueAfter: seq<Request>, queueOpen: bool,
                            terminals: seq<Terminal>, sent: seq<Request>)
  {
    && NoShutdown(sent) && AllAnswered(terminals, sent)
    && after == MarkAll(before, sent)
    && queueAfter == queueBefore + if queueOpen then sent else []
  }

  lemma BracketedOne(before: map<Ticket, DirtyPhase>, queue: seq<Request>, queueOpen: bool, t: Terminal, r: Request)
    requires !r.ShutdownRequest? && Answers(t, r)
    ensures Bracketed(before, before[TicketFor(r) := Committed], queue, queue + if queueOpen then [r] else [],
              queueOpen, [t], [r])
  {
    assert [r][..0] == [];
  }

  lemma BracketedCompose(a: map<Ticket, DirtyPhase>, b: map<Ticket, DirtyPhase>, c: map<Ticket, DirtyPhase>,
                         qa: seq<Request>, qb: seq<Request>, qc: seq<Request>, queueOpen: bool,
                         ts: seq<Terminal>, rs: seq<Request>, ts': seq<Terminal>, rs': seq<Request>)
    requires Bracketed(a, b, qa, qb, queueOpen, ts, rs) && Bracketed(b, c, qb, qc, queueOpen, ts', rs')
    ensures Bracketed(a, c, qa, qc, queueOpen, ts + ts', rs + rs')
  {
    MarkAllAppend(a, rs, rs');
    AnsweredConcat(ts, rs, ts', rs');
    assert qa + rs + rs' == qa + (rs + rs');
  }

  lemma AnsweredConcat(ts: seq<Terminal>, rs: seq<Request>, ts': seq<Terminal>, rs': seq<Request>)
    requires AllAnswered(ts, rs) && AllAnswered(ts', rs') && NoShutdown(rs) && NoShutdown(rs')
    ensures AllAnswered(ts + ts', rs + rs') && NoShutdown(rs + rs')
  {
    forall i | 0 <= i < |rs + rs'| ensures Answers((ts + ts')[i], (rs + rs')[i]) {
      if i >= |rs| {
        assert (ts + ts')[i] == ts'[i - |rs|] && (rs + rs')[i] == rs'[i - |rs|];
      }
    }
  }

  lemma {:induction false} MarkAllAppend(tickets: map<Ticket, DirtyPhase>, a: seq<Request>, b: seq<Request>)
    requires NoShutdown(a) && NoShutdown(b)
    ensures MarkAll(tickets, a + b) == MarkAll(MarkAll(tickets, a), b)
  {
    if b == [] {
      assert a + b == a;
    } else {
      var n := |b| - 1;
      assert (a + b)[..|a + b| - 1] == a + b[..n];
      MarkAllAppend(tickets, a, b[..n]);
    }
  }

  /** The three ways a live Full barrier ends. */
  lemma ClosedTickets(d: Dirty, before: map<Ticket, DirtyPhase>, epoch: nat, target: TermCampusKey)
    requires d.tickets == before[Full(epoch) := Precommit] && Full(epoch) !in before
    ensures Rollback(d, Full(epoch)).tickets == before
    ensures CommitTicket(d, Full(epoch)).Ok?
            && CommitTicket(d, Full(epoch)).value.tickets == before[Full(epoch) := Committed]
    ensures Narrow(d, epoch, target).Ok?
    ensures Narrow(d, epoch, target).value.tickets == before[Open(target, NextEpoch(d)) := Committed]
  {
    assert d.tickets - {Full(epoch)} == before;
  }

  // ----- What a list of calls amounts to -----

  /** The setting of a persistence object: its candidate, and whether barriers can be opened where needed. */
  datatype Setting = Setting(candidate: Option<TermCampusKey>, admits: bool)

  /** The target of the attempt under way after a call. */
  function AttemptAfter(p: Setting, attempt: Option<TermCampusKey>, call: ServiceCall): Option<TermCampusKey> {
    match call
    case BeginCall(target, commits) =>
      if !commits then None else if p.candidate.None? then Some(target) else attempt
    case SuccessCall(storage, _) =>
      if p.admits && storage.StorageCommitted? && (p.candidate.None? ==> attempt.Some?) then None else attempt
    case FailureCall(commits) =>
      if p.admits && commits && (p.candidate.None? ==> attempt.Some?) then None else attempt
  }

  /** The target whose terminal a call can record: the candidate's, or the one a begun attempt is for. */
  function TerminalTarget(p: Setting, attempt: Option<TermCampusKey>): Option<TermCampusKey> {
    if p.candidate.Some? then p.candidate else attempt
  }

  /** The terminal a call commits, if any. */
  function CommittedBy(p: Setting, attempt: Option<TermCampusKey>, call: ServiceCall): seq<Terminal> {
    match TerminalTarget(p, attempt)
    case None => []
    case Some(t) =>
      if !p.admits then []
      else
        match call
        case BeginCall(_, _) => []
        case SuccessCall(StorageCommitted(published), _) => [Terminal(t, published && p.candidate.Some?)]
        case SuccessCall(StorageFailed, fallback) => if fallback && p.candidate.Some? then [Terminal(t, false)] else []
        case FailureCall(commits) => if commits then [Terminal(t, false)] else []
  }

  /** The target of the attempt under way after the first `n` calls. */
  function AttemptAt(p: Setting, attempt: Option<TermCampusKey>, calls: seq<ServiceCall>, n: nat): Option<TermCampusKey>
    requires n <= |calls|
  {
    if n == 0 then attempt else AttemptAfter(p, AttemptAt(p, attempt, calls, n - 1), calls[n - 1])
  }

  /** The terminals the first `n` calls commit, in order. */
  function CommittedOver(p: Setting, attempt: Option<TermCampusKey>, calls: seq<ServiceCall>, n: nat): seq<Terminal>
    requires n <= |calls|
  {
    if n == 0 then []
    else CommittedOver(p, attempt, calls, n - 1) + CommittedBy(p, AttemptAt(p, attempt, calls, n - 1), calls[n - 1])
  }

  class ShortLockOpenPersistence {
    const candidate: Option<TermCampusKey>
    const prepared: bool // whether a prepared cache is attached; without one no barrier is ever opened
    const demand: PublicationDemand
    var committedCatalog: bool
    var parked: Option<Parked>
    var attemptTarget: Option<TermCampusKey>

    /** The terminal transactions that committed, in order. */
    ghost var terminals: seq<Terminal>

    ghost predicate Valid()
      reads this, demand, demand.registry
    {
      && demand.Valid()
      && (parked.Some? ==>
            && prepared && candidate.None? && demand.activeAdmissions > 0
            && Live(Open(parked.value.target, parked.value.epoch)))
    }

    /** `k` is a barrier's ticket whose transaction has not been decided. */
    ghost predicate Live(k: Ticket)
      reads demand, demand.registry
    {
      k in demand.registry.table.tickets && demand.registry.table.tickets[k] == Precommit
    }

    /** The dirty tickets other than the parked barrier's own. */
    ghost function Tickets(): map<Ticket, DirtyPhase>
      reads this, demand, demand.registry
    {
      demand.registry.table.tickets
      - if parked.Some? then {Open(parked.value.target, parked.value.epoch)} else {}
    }

    /** Lifecycle admissions held by anyone else. */
    ghost function OtherAdmissions(): int
      reads this, demand
    {
      demand.activeAdmissions - if parked.Some? then 1 else 0
    }

    ghost predicate Room(calls: nat)
      reads this, demand, demand.registry
    {
      demand.registry.table.nextEpoch + 2 * calls <= U64_MAX && OtherAdmissions() + 2 <= USIZE_MAX
    }

    constructor (candidate: Option<TermCampusKey>, prepared: bool, demand: PublicationDemand)
      requires demand.Valid()
      ensures Valid() && this.demand == demand && this.prepared == prepared && this.candidate == candidate
      ensures parked == None && attemptTarget == None && !committedCatalog && terminals == []
    {
      this.candidate, this.prepared, this.demand := candidate, prepared, demand;
      committedCatalog, parked, attemptTarget, terminals := false, None, None, [];
    }

    /** A store transaction runs only while its barrier's ticket is live. */
    method Transact(ghost barrier: Ticket, commits: bool, ghost terminal: Terminal)
      requires prepared ==> Live(barrier)
      modifies this`terminals
      ensures terminals == old(terminals) + if commits then [terminal] else []
    {
      if commits {
        terminals := terminals + [terminal];
      }
    }

    method BeginAttempt(target: TermCampusKey, commits: bool)
      requires Valid()
      modifies this`attemptTarget
      ensures Valid()
      ensures attemptTarget == if !commits then None else if candidate.None? then Some(target) else old(attemptTarget)
    {
      if candidate.None? {
        attemptTarget := Some(target);
      }
      if !commits {
        attemptTarget := None;
      }
    }

    /** Opens the Open barrier of a serving pull and parks it, rolling back one left by a failed call. */
    method ParkBarrier(target: TermCampusKey) returns (ok: bool)
      requires Valid() && prepared && candidate.None? && Room(1)
      modifies this`parked, demand`activeAdmissions, demand.registry
      ensures Valid() && ok == demand.accepting
      ensures Tickets() == old(Tickets()) && OtherAdmissions() == old(OtherAdmissions())
      ensures ok ==> parked == Some(Parked(target, old(NextEpoch(demand.registry.table))))
      ensures !ok ==> parked == old(parked)
      ensures demand.registry.table.nextEpoch <= old(demand.registry.table.nextEpoch) + 1
    {
      var epoch := demand.BeginOpenPublication(target);
      if epoch.None? {
        return false;
      }
      if parked.Some? {
        demand.DropOpen(parked.value.target, parked.value.epoch);
      }
      parked := Some(Parked(target, epoch.value));
      ok := true;
    }

    /** Takes the parked barrier and commits it. */
    method CommitParked(ghost terminal: Terminal) returns (ghost sent: seq<Request>)
      requires Valid() && parked.Some? && terminal == Terminal(parked.value.target, false)
      modifies this`parked, demand`activeAdmissions, demand`channel, demand.registry
      ensures Valid() && parked == None && OtherAdmissions() == old(OtherAdmissions())
      ensures demand.registry.table.nextEpoch == old(demand.registry.table.nextEpoch)
      ensures Bracketed(old(Tickets()), Tickets(), old(demand.channel), demand.channel, demand.channelOpen, [terminal],
                sent)
    {
      var barrier := parked.value;
      sent := [OpenRequest(barrier.target, barrier.epoch)];
      demand.CommitOpen(barrier.target, barrier.epoch);
      parked := None;
      assert Tickets() == old(Tickets())[Open(barrier.target, barrier.epoch) := Committed];
      BracketedOne(old(Tickets()), old(demand.channel), demand.channelOpen, terminal, sent[0]);
    }

    /** Takes the parked barrier, if any, and rolls it back. */
    method DropParked()
      requires Valid()
      modifies this`parked, demand`activeAdmissions, demand.registry
      ensures Valid() && parked == None && OtherAdmissions() == old(OtherAdmissions()) && Tickets() == old(Tickets())
      ensures demand.registry.table.nextEpoch == old(demand.registry.table.nextEpoch)
      ensures old(parked).None? ==> demand.registry.table == old(demand.registry.table)
    {
      if parked.Some? {
        demand.DropOpen(parked.value.target, parked.value.epoch);
        parked := None;
      }
    }

    /** The success path of a serving pull: an Open barrier around one Open transaction. */
    method FinishServingSuccess(storage: SuccessOutcome)
      returns (ok: bool, ghost done: seq<Terminal>, ghost sent: seq<Request>)
      requires Valid() && candidate.None? && Room(1)
      modifies this`parked, this`attemptTarget, this`terminals, this`committedCatalog, demand, demand.registry
      ensures Valid() && demand.accepting == old(demand.accepting) && demand.channelOpen == old(demand.channelOpen)
      ensures ok <==> old(attemptTarget).Some? && (prepared ==> demand.accepting) && storage.StorageCommitted?
      ensures terminals == old(terminals) + done
      ensures done == if ok then [Terminal(old(attemptTarget).value, false)] else []
      ensures ok ==> parked == None && attemptTarget == None && !committedCatalog
      ensures !ok ==> attemptTarget == old(attemptTarget) && committedCatalog == old(committedCatalog)
      ensures prepared ==> Bracketed(old(Tickets()), Tickets(), old(demand.channel), demand.channel, demand.channelOpen,
                                     done, sent)
      ensures !prepared ==> demand.registry.table == old(demand.registry.table) && demand.channel == old(demand.channel)
      ensures OtherAdmissions() == old(OtherAdmissions())
      ensures demand.registry.table.nextEpoch <= old(demand.registry.table.nextEpoch) + 2
    {
      done, sent := [], [];
      if attemptTarget.None? {
        return false, [], [];
      }
      var target := attemptTarget.value;
      if prepared {
        var begun := ParkBarrier(target);
        if !begun {
          return false, [], [];
        }
      } else {
        parked := None;
      }
      Transact(Open(target, if parked.Some? then parked.value.epoch else 0), storage.StorageCommitted?,
          Terminal(target, false));
      if storage.StorageFailed? {
        return false, [], [];
      }
      done := [Terminal(target, false)];
      if parked.Some? {
        sent := CommitParked(Terminal(target, false));
      }
      attemptTarget := None;
      committedCatalog := false;
      ok := true;
    }

    /** Closes a candidate's Full barrier, if one was opened: commit, narrow, or roll back. */
    method CloseFull(epoch: Option<nat>, ghost before: map<Ticket, DirtyPhase>, target: TermCampusKey, committed: bool,
                     published: bool)
      returns (ghost sent: seq<Request>)
      requires Valid() && parked == None
      requires epoch.Some? ==>
                 && demand.activeAdmissions > 0 && demand.registry.table.nextEpoch < U64_MAX
                 && Full(epoch.value) !in before
                    && demand.registry.table.tickets == before[Full(epoch.value) := Precommit]
      modifies demand`activeAdmissions, demand`channel, demand.registry
      ensures Valid() && demand.activeAdmissions == old(demand.activeAdmissions) - if epoch.Some? then 1 else 0
      ensures demand.registry.table.nextEpoch <= old(demand.registry.table.nextEpoch) + 1
      ensures epoch.Some? ==> Bracketed(before, Tickets(), old(demand.channel), demand.channel, demand.channelOpen,
                                        if committed then [Terminal(target, published)] else [], sent)
      ensures epoch.None? ==>
                demand.registry.table == old(demand.registry.table) && demand.channel == old(demand.channel)
    {
      sent := [];
      if epoch.None? {
        return;
      }
      ClosedTickets(demand.registry.table, before, epoch.value, target);
      ghost var terminal, queue := Terminal(target, published), demand.channel;
      if !committed {
        demand.DropFull(epoch.value);
      } else if published {
        demand.CommitFull(epoch.value);
        sent := [FullRequest(epoch.value)];
        BracketedOne(before, queue, demand.channelOpen, terminal, sent[0]);
      } else {
        sent := [OpenRequest(target, NextEpoch(demand.registry.table))];
        demand.CommitAsOpen(epoch.value, target);
        BracketedOne(before, queue, demand.channelOpen, terminal, sent[0]);
      }
      assert Tickets() == demand.registry.table.tickets;
    }

    /**
      The success path of a Catalog candidate: a Full barrier around the combined transaction. If that
      fails, the failure terminal is recorded inside the same barrier.
     */
    method FinishCandidateSuccess(storage: SuccessOutcome, fallbackCommits: bool)
      returns (ok: bool, ghost done: seq<Terminal>, ghost sent: seq<Request>)
      requires Valid() && candidate.Some? && Room(1)
      modifies this`attemptTarget, this`terminals, this`committedCatalog, demand, demand.registry
      ensures Valid() && demand.accepting == old(demand.accepting) && demand.channelOpen == old(demand.channelOpen)
      ensures ok <==> (prepared ==> demand.accepting) && storage.StorageCommitted?
      ensures terminals == old(terminals) + done
      ensures done == if ok then [Terminal(candidate.value, storage.catalogPublished)]
                      else if (prepared ==> demand.accepting) && fallbackCommits then [Terminal(candidate.value, false)]
                      else []
      ensures committedCatalog == if ok then storage.catalogPublished else old(committedCatalog)
      ensures attemptTarget == if ok then None else old(attemptTarget)
      ensures prepared ==> Bracketed(old(Tickets()), Tickets(), old(demand.channel), demand.channel, demand.channelOpen,
                                     done, sent)
      ensures !prepared ==> demand.registry.table == old(demand.registry.table) && demand.channel == old(demand.channel)
      ensures OtherAdmissions() == old(OtherAdmissions())
      ensures demand.registry.table.nextEpoch <= old(demand.registry.table.nextEpoch) + 2
    {
      done, sent := [], [];
      var target, epoch := candidate.value, None;
      ghost var before := demand.registry.table.tickets;
      assert Tickets() == before;
      if prepared {
        epoch := demand.BeginPublication();
        if epoch.None? {
          return false, [], [];
        }
      }
      ghost var barrier := Full(if epoch.Some? then epoch.value else 0);
      var published := storage.StorageCommitted? && storage.catalogPublished;
      var committed := storage.StorageCommitted?;
      Transact(barrier, committed, Terminal(target, published));
      if storage.StorageFailed? {
        Transact(barrier, fallbackCommits, Terminal(target, false));
        committed := fallbackCommits;
      }
      sent := CloseFull(epoch, before, target, committed, published);
      done := if committed then [Terminal(target, published)] else [];
      if storage.StorageFailed? {
        return false, done, sent;
      }
      attemptTarget := None;
      committedCatalog := published;
      ok := true;
    }

    /** Closes a candidate's Open barrier, if one was opened. */
    method CloseOpen(epoch: Option<nat>, ghost before: map<Ticket, DirtyPhase>, target: TermCampusKey, committed: bool)
      returns (ghost sent: seq<Request>)
      requires Valid() && parked == None
      requires epoch.Some? ==>
                 && demand.activeAdmissions > 0 && Open(target, epoch.value) !in before
                 && demand.registry.table.tickets == before[Open(target, epoch.value) := Precommit]
      modifies demand`activeAdmissions, demand`channel, demand.registry
      ensures Valid() && demand.activeAdmissions == old(demand.activeAdmissions) - if epoch.Some? then 1 else 0
      ensures demand.registry.table.nextEpoch == old(demand.registry.table.nextEpoch)
      ensures epoch.Some? ==> Bracketed(before, Tickets(), old(demand.channel), demand.channel, demand.channelOpen,
                                        if committed then [Terminal(target, false)] else [], sent)
      ensures epoch.None? ==>
                demand.registry.table == old(demand.registry.table) && demand.channel == old(demand.channel)
    {
      sent := [];
      if epoch.None? {
        return;
      }
      ghost var k := Open(target, epoch.value);
      assert before[k := Precommit] - {k} == before && before[k := Precommit][k := Committed] == before[k := Committed];
      if committed {
        demand.CommitOpen(target, epoch.value);
        sent := [OpenRequest(target, epoch.value)];
        BracketedOne(before, old(demand.channel), demand.channelOpen, Terminal(target, false), sent[0]);
      } else {
        demand.DropOpen(target, epoch.value);
      }
      assert Tickets() == demand.registry.table.tickets;
    }

    /** The failure terminal of a Catalog candidate, inside an Open barrier of its own. */
    method FinishCandidateFailure(commits: bool) returns (ok: bool, ghost done: seq<Terminal>, ghost sent: seq<Request>)
      requires Valid() && candidate.Some? && Room(1)
      modifies this`attemptTarget, this`terminals, demand, demand.registry
      ensures Valid() && demand.accepting == old(demand.accepting) && demand.channelOpen == old(demand.channelOpen)
      ensures ok <==> (prepared ==> demand.accepting) && commits
      ensures terminals == old(terminals) + done && done == if ok then [Terminal(candidate.value, false)] else []
      ensures attemptTarget == if ok then None else old(attemptTarget)
      ensures prepared ==>
                Bracketed(old(Tickets()), Tickets(), old(demand.channel), demand.channel, demand.channelOpen, done,
                    sent)
      ensures !prepared ==> demand.registry.table == old(demand.registry.table) && demand.channel == old(demand.channel)
      ensures OtherAdmissions() == old(OtherAdmissions())
      ensures demand.registry.table.nextEpoch <= old(demand.registry.table.nextEpoch) + 2
    {
      done, sent := [], [];
      var target, epoch := candidate.value, None;
      ghost var before := demand.registry.table.tickets;
      assert Tickets() == before;
      if prepared {
        epoch := demand.BeginOpenPublication(target);
        if epoch.None? {
          return false, [], [];
        }
      }
      Transact(Open(target, if epoch.Some? then epoch.value else 0), commits, Terminal(target, false));
      sent := CloseOpen(epoch, before, target, commits);
      if commits {
        attemptTarget := None;
        done := [Terminal(target, false)];
      }
      ok := commits;
    }

    /** The failure terminal of a serving pull, inside the parked Open barrier. */
    method FinishServingFailure(commits: bool) returns (ok: bool, ghost done: seq<Terminal>, ghost sent: seq<Request>)
      requires Valid() && candidate.None? && Room(1)
      modifies this`parked, this`attemptTarget, this`terminals, demand, demand.registry
      ensures Valid() && demand.accepting == old(demand.accepting) && demand.channelOpen == old(demand.channelOpen)
      ensures ok <==> old(attemptTarget).Some? && (prepared ==> demand.accepting) && commits
      ensures terminals == old(terminals) + done
              && done == if ok then [Terminal(old(attemptTarget).value, false)] else []
      ensures attemptTarget == if ok then None else old(attemptTarget)
      ensures old(attemptTarget).Some? && (prepared ==> demand.accepting) ==> parked == None
      ensures prepared ==>
                Bracketed(old(Tickets()), Tickets(), old(demand.channel), demand.channel, demand.channelOpen, done,
                    sent)
      ensures !prepared ==> demand.registry.table == old(demand.registry.table) && demand.channel == old(demand.channel)
      ensures OtherAdmissions() == old(OtherAdmissions())
      ensures demand.registry.table.nextEpoch <= old(demand.registry.table.nextEpoch) + 2
    {
      done, sent := [], [];
      if attemptTarget.None? {
        return false, [], [];
      }
      var target := attemptTarget.value;
      if prepared {
        var begun := ParkBarrier(target);
        if !begun {
          return false, [], [];
        }
      } else {
        parked := None;
      }
      Transact(Open(target, if parked.Some? then parked.value.epoch else 0), commits, Terminal(target, false));
      if !commits {
        DropParked();
        return false, [], [];
      }
      done := [Terminal(target, false)];
      if parked.Some? {
        sent := CommitParked(Terminal(target, false));
      }
      attemptTarget := None;
      ok := true;
    }

    method FinishSuccess(storage: SuccessOutcome, fallbackCommits: bool)
      returns (ok: bool, ghost done: seq<Terminal>, ghost sent: seq<Request>)
      requires Valid() && Room(1)
      modifies this`parked, this`attemptTarget, this`terminals, this`committedCatalog, demand, demand.registry
      ensures Valid() && demand.accepting == old(demand.accepting) && demand.channelOpen == old(demand.channelOpen)
      ensures terminals == old(terminals) + done
      ensures ok <==> storage.StorageCommitted? && (prepared ==> demand.accepting)
                      && (candidate.None? ==> old(attemptTarget).Some?)
      ensures done == if ok && candidate.Some? then [Terminal(candidate.value, storage.catalogPublished)]
                      else if ok then [Terminal(old(attemptTarget).value, false)]
                      else if candidate.Some? && (prepared ==> demand.accepting) && fallbackCommits
                      then [Terminal(candidate.value, false)]
                      else []
      ensures committedCatalog == if ok then done[0].published else old(committedCatalog)
      ensures attemptTarget == if ok then None else old(attemptTarget)
      ensures prepared ==>
                Bracketed(old(Tickets()), Tickets(), old(demand.channel), demand.channel, demand.channelOpen, done,
                    sent)
      ensures !prepared ==> demand.registry.table == old(demand.registry.table) && demand.channel == old(demand.channel)
      ensures OtherAdmissions() == old(OtherAdmissions())
      ensures demand.registry.table.nextEpoch <= old(demand.registry.table.nextEpoch) + 2
    {
      if candidate.Some? {
        ok, done, sent := FinishCandidateSuccess(storage, fallbackCommits);
      } else {
        ok, done, sent := FinishServingSuccess(storage);
      }
    }

    method FinishFailure(commits: bool) returns (ok: bool, ghost done: seq<Terminal>, ghost sent: seq<Request>)
      requires Valid() && Room(1)
      modifies this`parked, this`attemptTarget, this`terminals, demand, demand.registry
      ensures Valid() && demand.accepting == old(demand.accepting) && demand.channelOpen == old(demand.channelOpen)
      ensures terminals == old(terminals) + done
      ensures ok <==> commits && (prepared ==> demand.accepting) && (candidate.None? ==> old(attemptTarget).Some?)
      ensures done == if !ok then []
                      else [Terminal(if candidate.Some? then candidate.value else old(attemptTarget).value, false)]
      ensures attemptTarget == if ok then None else old(attemptTarget)
      ensures prepared ==>
                Bracketed(old(Tickets()), Tickets(), old(demand.channel), demand.channel, demand.channelOpen, done,
                    sent)
      ensures !prepared ==> demand.registry.table == old(demand.registry.table) && demand.channel == old(demand.channel)
      ensures OtherAdmissions() == old(OtherAdmissions())
      ensures demand.registry.table.nextEpoch <= old(demand.registry.table.nextEpoch) + 2
    {
      if candidate.Some? {
        ok, done, sent := FinishCandidateFailure(commits);
      } else {
        ok, done, sent := FinishServingFailure(commits);
      }
    }

    ghost function Where(): Setting
      reads this, demand
    {
      Setting(candidate, prepared ==> demand.accepting)
    }

    /** One call made by the Open service, with the storage outcome it will meet. */
    method Call(call: ServiceCall) returns (ghost done: seq<Terminal>, ghost sent: seq<Request>)
      requires Valid() && Room(1)
      modifies this`parked, this`attemptTarget, this`terminals, this`committedCatalog, demand, demand.registry
      ensures Valid() && demand.accepting == old(demand.accepting) && demand.channelOpen == old(demand.channelOpen)
      ensures terminals == old(terminals) + done && done == CommittedBy(Where(), old(attemptTarget), call)
      ensures attemptTarget == AttemptAfter(Where(), old(attemptTarget), call)
      ensures prepared ==>
                Bracketed(old(Tickets()), Tickets(), old(demand.channel), demand.channel, demand.channelOpen, done,
                    sent)
      ensures OtherAdmissions() == old(OtherAdmissions())
      ensures demand.registry.table.nextEpoch <= old(demand.registry.table.nextEpoch) + 2
    {
      var ok;
      match call
      case BeginCall(target, commits) =>
        BeginAttempt(target, commits);
        done, sent := [], [];
      case SuccessCall(storage, fallbackCommits) =>
        ok, done, sent := FinishSuccess(storage, fallbackCommits);
      case FailureCall(commits) =>
        ok, done, sent := FinishFailure(commits);
    }

    /** Any calls, any storage outcomes: the terminals committed are those the calls and outcomes determine. */
    method Calls(calls: seq<ServiceCall>) returns (ghost done: seq<Terminal>, ghost sent: seq<Request>)
      requires Valid() && Room(|calls|)
      modifies this`parked, this`attemptTarget, this`terminals, this`committedCatalog, demand, demand.registry
      ensures Valid() && demand.accepting == old(demand.accepting) && demand.channelOpen == old(demand.channelOpen)
      ensures terminals == old(terminals) + done
      ensures done == CommittedOver(Where(), old(attemptTarget), calls, |calls|)
      ensures prepared ==>
                Bracketed(old(Tickets()), Tickets(), old(demand.channel), demand.channel, demand.channelOpen, done,
                          sent)
      ensures OtherAdmissions() == old(OtherAdmissions())
    {
      done, sent := [], [];
      ghost var before, p, first := Tickets(), Where(), attemptTarget;
      for i := 0 to |calls|
        invariant Valid() && Room(|calls| - i)
        invariant demand.channelOpen == old(demand.channelOpen) && OtherAdmissions() == old(OtherAdmissions())
        invariant demand.accepting == old(demand.accepting) && terminals == old(terminals) + done && Where() == p
        invariant done == CommittedOver(p, first, calls, i) && attemptTarget == AttemptAt(p, first, calls, i)
        invariant prepared ==>
                    Bracketed(before, Tickets(), old(demand.channel), demand.channel, demand.channelOpen, done, sent)
      {
        ghost var tickets, queue := Tickets(), demand.channel;
        ghost var done', sent' := Call(calls[i]);
        if prepared {
          BracketedCompose(before, tickets, Tickets(), old(demand.channel), queue, demand.channel, demand.channelOpen,
                           done, sent, done', sent');
        }
        done, sent := done + done', sent + sent';
      }
    }

    /**
      The object's whole life: any calls, any storage outcomes, then the drop. The terminals committed are
      those the calls and outcomes determine, and afterwards the new dirty tickets are exactly one Committed
      ticket per committed terminal, Full exactly where a Catalog was published and queued in that order; no
      ticket of the object is left in its Precommit window.
     */
    method Session(calls: seq<ServiceCall>) returns (ghost done: seq<Terminal>, ghost sent: seq<Request>)
      requires Valid() && parked == None && Room(|calls|)
      modifies this`parked, this`attemptTarget, this`terminals, this`committedCatalog, demand, demand.registry
      ensures Valid() && parked == None
      ensures terminals == old(terminals) + done
      ensures done == CommittedOver(Where(), old(attemptTarget), calls, |calls|)
      ensures prepared ==> Bracketed(old(demand.registry.table.tickets), demand.registry.table.tickets,
                                     old(demand.channel), demand.channel, demand.channelOpen, done, sent)
      ensures demand.activeAdmissions == old(demand.activeAdmissions)
    {
      UnparkedTickets();
      done, sent := Calls(calls);
      DropParked();
      UnparkedTickets();
    }

    lemma UnparkedTickets()
      requires parked == None
      ensures Tickets() == demand.registry.table.tickets
    {
    }
  }
}
