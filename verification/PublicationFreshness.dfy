/**
  Serving freshness: what every published generation, and every build in progress, reflects.
 */
module PublicationFreshness {
  import opened Common
  import opened DirtyTickets
  import opened Publication
  import opened PublicationTickets

  ghost predicate FoundationLeq(a: Versions, b: Versions) {
    forall r | IsFoundation(r) :: V(a, r) <= V(b, r)
  }

  /** No ticket asks for more than the store holds. */
  ghost predicate NeedsWithin(s: State) {
    && (forall k, r | k in s.dirty.tickets :: V(Need(s.need, k), r) <= V(s.store, r))
    && (forall k, r | k in s.waived :: V(Need(s.need, k), r) <= V(s.store, r))
  }

  /** A ticket asks for nothing before its transaction, and an Open one asks about its target only. */
  ghost predicate NeedsLocal(s: State) {
    && (forall k, r | k in s.dirty.tickets && k.Open? && r !in TargetResources(k.target) :: V(Need(s.need, k), r) == 0)
    && (forall k | k in s.barriers && s.barriers[k] == Begun :: Need(s.need, k) == map[])
    && (forall k, r | k in s.barriers && s.barriers[k].StoreCommittedAsOpen?
                      && r !in TargetResources(s.barriers[k].target) :: V(Need(s.need, k), r) == 0)
  }

  ghost predicate NeedsBounded(s: State) {
    NeedsWithin(s) && NeedsLocal(s)
  }

  ghost predicate SnapshotBounded(s: State, foundation: Versions, open: map<TermCampusKey, nat>) {
    && FoundationLeq(foundation, s.store)
    && (forall t | t in open :: open[t] <= V(s.store, OpenState(t)))
  }

  /** A build reads between the generation it will replace and the store. */
  ghost predicate BuildBounded(s: State, b: Build) {
    && b.expected == CurrentId(s)
    && b.open.Keys <= b.checked
    && (b.scope.Overlays? ==>
          && s.current.Some? && b.foundation == None
          && b.checked <= b.scope.targets && b.checked <= s.current.value.open.Keys)
    && (b.foundation.Some? ==> FoundationLeq(b.foundation.value, s.store))
    && (b.foundation.Some? && s.current.Some? ==> FoundationLeq(s.current.value.foundation, b.foundation.value))
    && (forall t | t in b.open :: b.open[t] <= V(s.store, OpenState(t)))
    && (s.current.Some? ==>
          forall t | t in b.open && t in s.current.value.open :: s.current.value.open[t] <= b.open[t])
  }

  ghost predicate Bounded(s: State) {
    && NeedsBounded(s)
    && (s.current.Some? ==> s.current.value.id <= s.published
                            && SnapshotBounded(s, s.current.value.foundation, s.current.value.open))
    && (s.build.Some? ==> BuildBounded(s, s.build.value))
  }

  /** The versions read by a build meet what the executing batch needs. */
  ghost predicate BuildMeetsNeed(s: State, b: Build, k: Ticket) {
    && (b.foundation.Some? ==> FoundationLeq(Need(s.need, k), b.foundation.value))
    && (forall t | t in b.open && (b.owner == Worker || MeetsWaived(s, t, b.open[t])) ::
          V(Need(s.need, k), OpenState(t)) <= b.open[t])
    && (b.scope.Overlays? && b.owner == Worker && k.Open? && k.target in b.checked ==>
          s.current.Some? && V(Need(s.need, k), Ready(k.target)) <= V(s.current.value.foundation, Ready(k.target)))
  }

  ghost predicate CurrentMeetsNeed(s: State, k: Ticket) {
    && s.current.Some?
    && FoundationLeq(Need(s.need, k), s.current.value.foundation)
    && (forall t | t in s.current.value.open && MeetsWaived(s, t, s.current.value.open[t]) ::
          V(Need(s.need, k), OpenState(t)) <= s.current.value.open[t])
  }

  ghost predicate NeedsMet(s: State) {
    forall k | k in BatchOf(s.exec) ::
      && (s.exec.covered ==> CurrentMeetsNeed(s, k))
      && (s.build.Some? && (s.exec.covered || s.build.value.owner == Worker) ==> BuildMeetsNeed(s, s.build.value, k))
  }

  /** What was found unmoved meets what the executing batch needs of it. */
  ghost predicate SeenMeets(s: State) {
    s.exec.Executing? ==>
      && (forall r | r in s.exec.seen :: IsFoundation(r) && s.current.Some?)
      && (forall k, r | k in s.exec.batch && r in s.exec.seen ::
            V(Need(s.need, k), r) <= V(s.current.value.foundation, r))
  }

  lemma KeepsSeen(s: State, s': State)
    requires SeenMeets(s) && s'.exec.Executing?
    requires
      || s'.exec.seen == {}
      || (s.exec.Executing? && s'.exec.batch <= s.exec.batch && s'.exec.seen == s.exec.seen
          && (forall k | k in s.exec.batch :: Need(s'.need, k) == Need(s.need, k))
          && (s.current.Some? ==>
                s'.current.Some? && FoundationLeq(s.current.value.foundation, s'.current.value.foundation)))
    ensures SeenMeets(s')
  {
  }

  /** A live ticket whose transaction was the last to move this resource. */
  ghost predicate Covers(s: State, k: Ticket, r: Resource) {
    k in s.dirty.tickets && V(Need(s.need, k), r) == V(s.store, r)
  }

  ghost predicate Tracked(s: State, r: Resource, v: nat) {
    v == V(s.store, r) || exists k :: Covers(s, k, r)
  }

  ghost predicate FoundationFresh(s: State) {
    && (s.current.Some? ==> forall r | IsFoundation(r) :: Tracked(s, r, V(s.current.value.foundation, r)))
    && (s.build.Some? && s.build.value.foundation.Some? ==>
          forall r | IsFoundation(r) :: Tracked(s, r, V(s.build.value.foundation.value, r)))
  }

  /** An overlay late enough for whatever the fallback let go is the latest, or a live ticket answers for it. */
  ghost predicate OpenFresh(s: State) {
    && (s.current.Some? ==>
          forall t | t in s.current.value.open && MeetsWaived(s, t, s.current.value.open[t]) ::
            Tracked(s, OpenState(t), s.current.value.open[t]))
    && (s.build.Some? ==>
          forall t | t in s.build.value.open && MeetsWaived(s, t, s.build.value.open[t]) ::
            Tracked(s, OpenState(t), s.build.value.open[t]))
  }

  ghost predicate Inv(s: State) {
    TicketInv(s) && Bounded(s) && NeedsMet(s) && SeenMeets(s) && FoundationFresh(s) && OpenFresh(s)
  }

  // ----- Steps that move tickets about without touching the store or a stamp -----

  ghost predicate EmptyBuild(s: State, b: Build) {
    b.foundation == None && b.checked == {} && b.open == map[] && b.expected == CurrentId(s)
      && (b.scope.Overlays? ==> s.current.Some?)
  }

  ghost predicate SameReads(s: State, s': State) {
    s.build.Some? && s'.build.Some? && s'.build.value.(owner := s.build.value.owner) == s.build.value
    && (s'.build.value.owner == s.build.value.owner || s'.build.value.owner == Bystander)
  }

  ghost predicate TicketsGrow(s: State, s': State) {
    && (forall k | k in s.dirty.tickets :: k in s'.dirty.tickets)
    && (forall k | k in s.dirty.tickets :: Need(s'.need, k) == Need(s.need, k))
    && (forall k | k in s.waived :: Need(s'.need, k) == Need(s.need, k))
    && (forall k | k in s'.dirty.tickets && k !in s.dirty.tickets :: Need(s'.need, k) == map[])
    && (forall k | k in s'.barriers && (s'.barriers[k] == Begun || s'.barriers[k].StoreCommittedAsOpen?) ::
          (k in s.barriers && s.barriers[k] == s'.barriers[k]) || Need(s'.need, k) == map[])
  }

  ghost predicate Frame(s: State, s': State) {
    && s'.store == s.store && s'.current == s.current && s'.published == s.published
    && s'.waived == s.waived
    && TicketsGrow(s, s')
    && (s'.build.Some? ==> SameReads(s, s') || EmptyBuild(s', s'.build.value))
    && (s'.exec.Executing? ==>
          || s'.exec == s.exec
          || (!s'.exec.covered && s'.exec.seen == {}
             && (s'.build.Some? ==> EmptyBuild(s', s'.build.value) || s'.build.value.owner == Bystander)))
  }

  lemma SameWaived(s: State, s': State)
    requires s'.waived == s.waived && forall k | k in s.waived :: Need(s'.need, k) == Need(s.need, k)
    ensures forall t, v: nat :: MeetsWaived(s, t, v) <==> MeetsWaived(s', t, v)
  {
  }

  lemma FrameKeepsNeedsBounded(s: State, s': State)
    requires BarriersOwnTickets(s) && BarriersOwnTickets(s') && NeedsBounded(s)
    requires s'.store == s.store && s'.waived == s.waived && TicketsGrow(s, s')
    ensures NeedsBounded(s')
  {
    assert NeedsWithin(s');
  }

  lemma FrameKeepsStamps(s: State, s': State)
    requires Bounded(s) && Frame(s, s') && NeedsBounded(s')
    ensures Bounded(s')
  {
  }

  /** The needs of `k`, and of every ticket the fallback let go, are the same in both states. */
  ghost predicate SameNeed(s: State, s': State, k: Ticket) {
    && s'.current == s.current && s'.waived == s.waived && Need(s'.need, k) == Need(s.need, k)
    && forall k' | k' in s.waived :: Need(s'.need, k') == Need(s.need, k')
  }

  lemma SameNeedKeepsCurrent(s: State, s': State, k: Ticket)
    requires SameNeed(s, s', k) && CurrentMeetsNeed(s, k)
    ensures CurrentMeetsNeed(s', k)
  {
    SameWaived(s, s');
  }

  lemma SameNeedKeepsBuild(s: State, s': State, b: Build, b': Build, k: Ticket)
    requires SameNeed(s, s', k) && BuildMeetsNeed(s, b, k)
    requires b'.(owner := b.owner) == b && (b'.owner == b.owner || b'.owner == Bystander)
    ensures BuildMeetsNeed(s', b', k)
  {
    SameWaived(s, s');
  }

  lemma FrameKeepsNeedsMet(s: State, s': State)
    requires PlacesDisjoint(s) && NeedsMet(s) && Frame(s, s')
    ensures NeedsMet(s')
  {
    forall k | k in BatchOf(s'.exec)
      ensures s'.exec.covered ==> CurrentMeetsNeed(s', k)
      ensures s'.build.Some? && (s'.exec.covered || s'.build.value.owner == Worker) ==>
                BuildMeetsNeed(s', s'.build.value, k)
    {
      if s'.exec == s.exec {
        assert Held(s, k);
        assert SameNeed(s, s', k);
        if s.exec.covered {
          SameNeedKeepsCurrent(s, s', k);
        }
        if SameReads(s, s') && (s.exec.covered || s.build.value.owner == Worker) {
          SameNeedKeepsBuild(s, s', s.build.value, s'.build.value, k);
        }
      }
    }
  }

  lemma FrameKeepsTracking(s: State, s': State, r: Resource, v: nat)
    requires s'.store == s.store && TicketsGrow(s, s') && Tracked(s, r, v)
    ensures Tracked(s', r, v)
  {
    if v != V(s.store, r) {
      var k :| Covers(s, k, r);
      assert Covers(s', k, r);
    }
  }

  lemma FrameKeepsFresh(s: State, s': State)
    requires Frame(s, s')
    ensures FoundationFresh(s) ==> FoundationFresh(s')
    ensures OpenFresh(s) ==> OpenFresh(s')
  {
    SameWaived(s, s');
    forall r: Resource, v: nat | Tracked(s, r, v) ensures Tracked(s', r, v) {
      FrameKeepsTracking(s, s', r, v);
    }
  }

  lemma FrameKeepsSeen(s: State, s': State)
    requires PlacesDisjoint(s) && SeenMeets(s) && Frame(s, s')
    ensures SeenMeets(s')
  {
    if s'.exec.Executing? {
      assert forall k | k in BatchOf(s.exec) :: Held(s, k);
      KeepsSeen(s, s');
    }
  }

  lemma FrameKeepsInv(s: State, s': State)
    requires Inv(s) && TicketInv(s') && Frame(s, s')
    ensures Inv(s')
  {
    FrameKeepsNeedsBounded(s, s');
    FrameKeepsStamps(s, s');
    FrameKeepsNeedsMet(s, s');
    FrameKeepsSeen(s, s');
    FrameKeepsFresh(s, s');
  }

  lemma BeginTable(s: State, step: WriterStep)
    requires BarriersOwnTickets(s) && (step.BeginFull? || step.BeginOpen?) && WriterEnabled(s, step)
    ensures var s', k := AfterWriter(s, step), NewTicket(s, step);
            && k !in s.dirty.tickets && k !in s.waived && s'.dirty.tickets == s.dirty.tickets[k := Precommit]
            && s'.need == s.need[k := map[]] && s'.barriers == s.barriers[k := Begun]
  {
  }

  lemma BeginIsFrame(s: State, step: WriterStep)
    requires BarriersOwnTickets(s) && (step.BeginFull? || step.BeginOpen?) && WriterEnabled(s, step)
    ensures Frame(s, AfterWriter(s, step))
  {
    BeginTable(s, step);
  }

  lemma WriterIsFrame(s: State, step: WriterStep)
    requires BarriersOwnTickets(s) && (step.CommitBarrier? || step.SendRequest?) && WriterEnabled(s, step)
    ensures Frame(s, AfterWriter(s, step))
  {
  }

  lemma CollectIsFrame(s: State, step: WorkerStep)
    requires BatchWellFormed(s) && (step.Merge? || step.Take?) && WorkerEnabled(s, step)
    ensures Frame(s, AfterWorker(s, step))
  {
  }

  lemma ReturnIsFrame(s: State, step: WorkerStep)
    requires (step.Requeue? || step.DropBatch?) && WorkerEnabled(s, step)
    ensures Frame(s, AfterWorker(s, step))
  {
  }

  lemma LifecycleIsFrame(s: State, step: WorkerStep)
    requires (step.StopAccepting? || step.RequestShutdown? || step.WorkerExit?) && WorkerEnabled(s, step)
    ensures Frame(s, AfterWorker(s, step))
  {
  }

  lemma BuildIsFrame(s: State, step: BuildStep)
    requires BatchWellFormed(s) && (step.BeginBuild? || step.AbandonBuild?) && BuildEnabled(s, step)
    ensures Frame(s, AfterBuild(s, step))
  {
  }

  // ----- Store commits -----

  /** A commit moves the touched resources and makes its own ticket answer for them. */
  ghost predicate Commits(s: State, s': State, k: Ticket, touched: set<Resource>) {
    && k in s.dirty.tickets && k in s.barriers && s.barriers[k] == Begun
    && s'.store == Bump(s.store, touched) && s'.dirty == s.dirty
    && (forall k' | k' in s.dirty.tickets && k' != k :: Need(s'.need, k') == Need(s.need, k'))
    && (forall k' | k' in s.waived :: Need(s'.need, k') == Need(s.need, k'))
    && (forall r | r in touched :: V(Need(s'.need, k), r) == V(s'.store, r))
    && (forall r :: V(Need(s'.need, k), r) <= V(s'.store, r))
    && s'.current == s.current && s'.build == s.build && s'.exec == s.exec && s'.published == s.published
    && s'.waived == s.waived
  }

  lemma CommitKeepsTracking(s: State, s': State, k: Ticket, touched: set<Resource>, r: Resource, v: nat)
    requires NeedsBounded(s) && Commits(s, s', k, touched) && v <= V(s.store, r) && Tracked(s, r, v)
    ensures Tracked(s', r, v)
  {
    if r in touched {
      assert Covers(s', k, r);
    } else if v != V(s.store, r) {
      var k' :| Covers(s, k', r);
      assert Need(s.need, k) == map[];
      assert Covers(s', k', r);
    }
  }

  lemma CommitKeepsFresh(s: State, s': State, k: Ticket, touched: set<Resource>)
    requires BarriersOwnTickets(s) && Bounded(s) && Commits(s, s', k, touched)
    ensures FoundationFresh(s) ==> FoundationFresh(s')
    ensures OpenFresh(s) ==> OpenFresh(s')
  {
    SameWaived(s, s');
    forall r: Resource, v: nat | v <= V(s.store, r) && Tracked(s, r, v) ensures Tracked(s', r, v) {
      CommitKeepsTracking(s, s', k, touched, r, v);
    }
  }

  lemma CommitKeepsNeedsMet(s: State, s': State, k: Ticket, touched: set<Resource>)
    requires TicketInv(s) && NeedsMet(s) && Commits(s, s', k, touched)
    ensures NeedsMet(s')
  {
    SameWaived(s, s');
    assert forall k' | k' in BatchOf(s.exec) :: Held(s, k') && k' != k;
  }

  lemma CommitKeepsStamps(s: State, s': State, k: Ticket, touched: set<Resource>)
    requires Bounded(s) && Commits(s, s', k, touched) && NeedsBounded(s')
    ensures Bounded(s')
  {
  }

  lemma CommitStoreCommits(s: State, k: Ticket, touched: set<Resource>)
    requires BarriersOwnTickets(s) && WriterEnabled(s, CommitStore(k, touched))
    ensures Commits(s, AfterWriter(s, CommitStore(k, touched)), k, touched)
    ensures CommitsLocally(s, AfterWriter(s, CommitStore(k, touched)), k)
  {
    var s' := AfterWriter(s, CommitStore(k, touched));
    assert Need(s'.need, k) == if k.Full? then s'.store else Restrict(s'.store, TargetResources(k.target));
  }

  lemma CommitStoreAsOpenCommits(s: State, k: Ticket, t: TermCampusKey, touched: set<Resource>)
    requires BarriersOwnTickets(s) && WriterEnabled(s, CommitStoreAsOpen(k, t, touched))
    ensures Commits(s, AfterWriter(s, CommitStoreAsOpen(k, t, touched)), k, touched)
    ensures CommitsLocally(s, AfterWriter(s, CommitStoreAsOpen(k, t, touched)), k)
  {
    var s' := AfterWriter(s, CommitStoreAsOpen(k, t, touched));
    assert Need(s'.need, k) == Restrict(s'.store, TargetResources(t));
  }

  /** The committing ticket asks only for what its kind may ask for. */
  ghost predicate CommitsLocally(s: State, s': State, k: Ticket) {
    && s'.barriers.Keys == s.barriers.Keys && k in s.barriers
    && (forall k' | k' in s.barriers && k' != k :: s'.barriers[k'] == s.barriers[k'])
    && s'.barriers[k] != Begun
    && (k.Open? ==> forall r | r !in TargetResources(k.target) :: V(Need(s'.need, k), r) == 0)
    && (s'.barriers[k].StoreCommittedAsOpen? ==>
          forall r | r !in TargetResources(s'.barriers[k].target) :: V(Need(s'.need, k), r) == 0)
  }

  lemma CommitKeepsNeedsWithin(s: State, s': State, k: Ticket, touched: set<Resource>)
    requires NeedsWithin(s) && Commits(s, s', k, touched)
    ensures NeedsWithin(s')
  {
  }

  lemma CommitKeepsNeedsLocal(s: State, s': State, k: Ticket, touched: set<Resource>)
    requires BarriersOwnTickets(s) && NeedsLocal(s) && Commits(s, s', k, touched) && CommitsLocally(s, s', k)
    ensures NeedsLocal(s')
  {
  }

  lemma CommitKeepsInv(s: State, s': State, k: Ticket, touched: set<Resource>)
    requires Inv(s) && TicketInv(s') && Commits(s, s', k, touched) && CommitsLocally(s, s', k)
    ensures Inv(s')
  {
    CommitKeepsNeedsWithin(s, s', k, touched);
    CommitKeepsNeedsLocal(s, s', k, touched);
    CommitKeepsStamps(s, s', k, touched);
    CommitKeepsNeedsMet(s, s', k, touched);
    if s.exec.Executing? {
      assert forall k' | k' in BatchOf(s.exec) :: Held(s, k') && k' != k;
      KeepsSeen(s, s');
    }
    CommitKeepsFresh(s, s', k, touched);
  }

  lemma CommitStoreStep(s: State, k: Ticket, touched: set<Resource>)
    requires Inv(s) && WriterEnabled(s, CommitStore(k, touched))
    ensures Inv(AfterWriter(s, CommitStore(k, touched)))
  {
    var s' := AfterWriter(s, CommitStore(k, touched));
    StoreCommitKeepsTickets(s, CommitStore(k, touched));
    CommitStoreCommits(s, k, touched);
    CommitKeepsInv(s, s', k, touched);
  }

  lemma CommitStoreAsOpenStep(s: State, k: Ticket, t: TermCampusKey, touched: set<Resource>)
    requires Inv(s) && WriterEnabled(s, CommitStoreAsOpen(k, t, touched))
    ensures Inv(AfterWriter(s, CommitStoreAsOpen(k, t, touched)))
  {
    var s' := AfterWriter(s, CommitStoreAsOpen(k, t, touched));
    StoreCommitKeepsTickets(s, CommitStoreAsOpen(k, t, touched));
    CommitStoreAsOpenCommits(s, k, t, touched);
    CommitKeepsInv(s, s', k, touched);
  }

  // ----- Steps that replace or remove tickets -----

  /** The store and every stamp stay; the tickets in `gone` may go and `heir`, if any, replaces them. */
  ghost predicate Hands(s: State, s': State, gone: set<Ticket>) {
    && s'.store == s.store && s'.current == s.current && s'.build == s.build && s'.published == s.published
    && s'.waived == s.waived
    && (forall k | k in s.dirty.tickets && k !in gone :: k in s'.dirty.tickets)
    && (forall k | k in s.dirty.tickets :: Need(s'.need, k) == Need(s.need, k))
    && (forall k | k in s.waived :: Need(s'.need, k) == Need(s.need, k))
    && (forall k | k in s'.barriers && s'.barriers[k] != TicketCommitted ::
          k in s.barriers && s.barriers[k] == s'.barriers[k])
    && BatchOf(s'.exec) <= BatchOf(s.exec)
    && (s'.exec.Executing? ==>
          s.exec.Executing? && s'.exec.covered == s.exec.covered && s'.exec.seen == s.exec.seen)
  }

  /** Tickets new to the table ask for no more than they may. */
  ghost predicate HeirsBounded(s: State, s': State) {
    forall k, r | k in s'.dirty.tickets && k !in s.dirty.tickets ::
      V(Need(s'.need, k), r) <= V(s.store, r)
        && (k.Open? && r !in TargetResources(k.target) ==> V(Need(s'.need, k), r) == 0)
  }

  lemma HandsKeepsNeedsWithin(s: State, s': State, gone: set<Ticket>)
    requires NeedsWithin(s) && Hands(s, s', gone) && HeirsBounded(s, s')
    ensures NeedsWithin(s')
  {
    forall k, r | k in s'.dirty.tickets ensures V(Need(s'.need, k), r) <= V(s'.store, r) {
      if k in s.dirty.tickets {
        assert V(Need(s.need, k), r) <= V(s.store, r);
      }
    }
  }

  lemma HandsKeepsNeedsLocal(s: State, s': State, gone: set<Ticket>)
    requires BarriersOwnTickets(s) && NeedsLocal(s) && Hands(s, s', gone) && HeirsBounded(s, s')
    ensures NeedsLocal(s')
  {
  }

  lemma HandsKeepsBounded(s: State, s': State, gone: set<Ticket>)
    requires BarriersOwnTickets(s) && Bounded(s) && Hands(s, s', gone) && HeirsBounded(s, s')
    ensures Bounded(s')
  {
    HandsKeepsNeedsWithin(s, s', gone);
    HandsKeepsNeedsLocal(s, s', gone);
  }

  lemma HandsKeepsNeedsMet(s: State, s': State, gone: set<Ticket>)
    requires PlacesDisjoint(s) && NeedsMet(s) && Hands(s, s', gone)
    ensures NeedsMet(s')
  {
    SameWaived(s, s');
    assert forall k | k in BatchOf(s.exec) :: Held(s, k);
  }

  lemma HandsKeepsSeen(s: State, s': State, gone: set<Ticket>)
    requires PlacesDisjoint(s) && SeenMeets(s) && Hands(s, s', gone)
    ensures SeenMeets(s')
  {
    if s'.exec.Executing? {
      assert forall k | k in BatchOf(s.exec) :: Held(s, k);
      KeepsSeen(s, s');
    }
  }

  lemma HandsKeepsFresh(s: State, s': State, gone: set<Ticket>)
    requires Bounded(s) && Hands(s, s', gone)
    requires forall k, r, v: nat | k in gone && v <= V(s.store, r) && Covers(s, k, r) :: Tracked(s', r, v)
    ensures FoundationFresh(s) ==> FoundationFresh(s')
    ensures OpenFresh(s) ==> OpenFresh(s')
  {
    SameWaived(s, s');
    forall r: Resource, v: nat | v <= V(s.store, r) && Tracked(s, r, v) ensures Tracked(s', r, v) {
      if v != V(s.store, r) {
        var k :| Covers(s, k, r);
        if k !in gone {
          assert Covers(s', k, r);
        }
      }
    }
  }

  /** Whatever a removed ticket answered for, its heir answers for. */
  lemma HeirKeepsFresh(s: State, s': State, gone: set<Ticket>, heir: Ticket)
    requires Bounded(s) && Hands(s, s', gone) && heir in s'.dirty.tickets
    requires forall k, r | k in gone && Covers(s, k, r) :: V(Need(s'.need, heir), r) == V(s.store, r)
    ensures FoundationFresh(s) ==> FoundationFresh(s')
    ensures OpenFresh(s) ==> OpenFresh(s')
  {
    forall k, r, v: nat | k in gone && v <= V(s.store, r) && Covers(s, k, r) ensures Tracked(s', r, v) {
      assert Covers(s', heir, r);
    }
    HandsKeepsFresh(s, s', gone);
  }

  lemma HeirKeepsInv(s: State, s': State, gone: set<Ticket>, heir: Ticket)
    requires Inv(s) && TicketInv(s') && Hands(s, s', gone) && HeirsBounded(s, s') && heir in s'.dirty.tickets
    requires forall k, r | k in gone && Covers(s, k, r) :: V(Need(s'.need, heir), r) == V(s.store, r)
    ensures Inv(s')
  {
    HandsKeepsBounded(s, s', gone);
    HandsKeepsNeedsMet(s, s', gone);
    HandsKeepsSeen(s, s', gone);
    HeirKeepsFresh(s, s', gone, heir);
  }

  lemma NarrowTable(s: State, k: Ticket) returns (heir: Ticket)
    requires BarriersOwnTickets(s) && WriterEnabled(s, NarrowBarrier(k))
    ensures heir == Open(s.barriers[k].target, NextEpoch(s.dirty)) && heir !in s.dirty.tickets && heir !in s.waived
    ensures var s' := AfterWriter(s, NarrowBarrier(k));
            && s'.dirty.tickets.Keys == s.dirty.tickets.Keys - {k} + {heir}
            && s'.need == s.need[heir := Need(s.need, k)] && s'.barriers == (s.barriers - {k})[heir := TicketCommitted]
  {
    heir := Open(s.barriers[k].target, NextEpoch(s.dirty));
  }

  lemma NarrowHands(s: State, k: Ticket) returns (heir: Ticket)
    requires BarriersOwnTickets(s) && WriterEnabled(s, NarrowBarrier(k))
    ensures heir == Open(s.barriers[k].target, NextEpoch(s.dirty)) && heir !in s.dirty.tickets
    ensures var s' := AfterWriter(s, NarrowBarrier(k));
            && Hands(s, s', {k}) && s'.dirty.tickets.Keys == s.dirty.tickets.Keys - {k} + {heir}
            && Need(s'.need, heir) == Need(s.need, k)
  {
    heir := NarrowTable(s, k);
  }

  /** The heir asks for what the narrowed ticket asked for, which was about its target only. */
  lemma NarrowBounded(s: State, s': State, k: Ticket, heir: Ticket)
    requires BarriersOwnTickets(s) && NeedsBounded(s) && k in s.barriers && s.barriers[k].StoreCommittedAsOpen?
    requires heir.Open? && heir.target == s.barriers[k].target && Need(s'.need, heir) == Need(s.need, k)
    requires s'.dirty.tickets.Keys == s.dirty.tickets.Keys - {k} + {heir}
    ensures HeirsBounded(s, s')
  {
    assert k in s.dirty.tickets;
  }

  lemma NarrowStep(s: State, k: Ticket)
    requires Inv(s) && WriterEnabled(s, NarrowBarrier(k))
    ensures Inv(AfterWriter(s, NarrowBarrier(k)))
  {
    var s' := AfterWriter(s, NarrowBarrier(k));
    NarrowKeepsTickets(s, NarrowBarrier(k));
    var heir := NarrowHands(s, k);
    NarrowBounded(s, s', k, heir);
    HeirKeepsInv(s, s', {k}, heir);
  }

  lemma DropHands(s: State, k: Ticket)
    requires BarriersOwnTickets(s) && WriterEnabled(s, DropBarrier(k))
    ensures var s' := AfterWriter(s, DropBarrier(k));
            Hands(s, s', {k}) && s'.dirty.tickets.Keys == s.dirty.tickets.Keys - {k}
  {
  }

  lemma DroppedAsksNothing(s: State, s': State, k: Ticket)
    requires NeedsLocal(s) && Hands(s, s', {k}) && k in s.barriers && s.barriers[k] == Begun
    ensures forall k', r, v: nat | k' in {k} && v <= V(s.store, r) && Covers(s, k', r) :: Tracked(s', r, v)
  {
    assert Need(s.need, k) == map[];
  }

  lemma DropBarrierStep(s: State, k: Ticket)
    requires Inv(s) && WriterEnabled(s, DropBarrier(k))
    ensures Inv(AfterWriter(s, DropBarrier(k)))
  {
    var s' := AfterWriter(s, DropBarrier(k));
    DropKeepsTickets(s, DropBarrier(k));
    DropHands(s, k);
    DroppedAsksNothing(s, s', k);
    HandsKeepsBounded(s, s', {k});
    HandsKeepsNeedsMet(s, s', {k});
    HandsKeepsSeen(s, s', {k});
    HandsKeepsFresh(s, s', {k});
  }

  lemma PromoteTable(s: State) returns (heir: Ticket)
    requires BarriersOwnTickets(s) && WorkerEnabled(s, PromoteBatch)
    ensures heir == Full(NextEpoch(s.dirty)) && heir !in s.dirty.tickets && heir !in s.waived
    ensures var s' := AfterWorker(s, PromoteBatch);
            && s'.dirty.tickets.Keys == s.dirty.tickets.Keys - s.exec.batch + {heir}
            && s'.need == s.need[heir := s.store] && s'.barriers == s.barriers
  {
    heir := Full(NextEpoch(s.dirty));
  }

  lemma PromoteHands(s: State) returns (heir: Ticket)
    requires BarriersOwnTickets(s) && WorkerEnabled(s, PromoteBatch)
    ensures heir == Full(NextEpoch(s.dirty)) && heir !in s.dirty.tickets
    ensures var s' := AfterWorker(s, PromoteBatch);
            && Hands(s, s', s.exec.batch) && s'.dirty.tickets.Keys == s.dirty.tickets.Keys - s.exec.batch + {heir}
            && Need(s'.need, heir) == s.store
  {
    heir := PromoteTable(s);
  }

  lemma PromoteStep(s: State)
    requires Inv(s) && WorkerEnabled(s, PromoteBatch)
    ensures Inv(AfterWorker(s, PromoteBatch))
  {
    var s' := AfterWorker(s, PromoteBatch);
    PromoteKeepsTickets(s, PromoteBatch);
    var heir := PromoteHands(s);
    HeirKeepsInv(s, s', s.exec.batch, heir);
  }

  /** Every executed ticket is met by the published stamps, so removing it uncovers nothing. */
  lemma ClearKeepsTracking(s: State, s': State, done: set<Ticket>, r: Resource, v: nat)
    requires Hands(s, s', done) && v <= V(s.store, r) && Tracked(s, r, v)
    requires forall k | k in done :: V(Need(s.need, k), r) <= v
    ensures Tracked(s', r, v)
  {
    if v != V(s.store, r) {
      var k :| Covers(s, k, r);
      assert Covers(s', k, r);
    }
  }

  lemma ClearKeepsFoundation(s: State, s': State, done: set<Ticket>)
    requires Bounded(s) && NeedsMet(s) && FoundationFresh(s)
    requires s.exec.Executing? && s.exec.covered && done <= s.exec.batch && Hands(s, s', done)
    ensures FoundationFresh(s')
  {
    assert forall k | k in done :: k in BatchOf(s.exec);
    forall r | IsFoundation(r) && s.current.Some? ensures Tracked(s', r, V(s.current.value.foundation, r)) {
      ClearKeepsTracking(s, s', done, r, V(s.current.value.foundation, r));
    }
    if s.build.Some? && s.build.value.foundation.Some? {
      forall r | IsFoundation(r) ensures Tracked(s', r, V(s.build.value.foundation.value, r)) {
        ClearKeepsTracking(s, s', done, r, V(s.build.value.foundation.value, r));
      }
    }
  }

  lemma ClearKeepsOpen(s: State, s': State, done: set<Ticket>)
    requires Bounded(s) && NeedsMet(s) && OpenFresh(s)
    requires s.exec.Executing? && s.exec.covered && done <= s.exec.batch && Hands(s, s', done)
    ensures OpenFresh(s')
  {
    SameWaived(s, s');
    assert forall k | k in done :: k in BatchOf(s.exec);
    forall t | s.current.Some? && t in s.current.value.open && MeetsWaived(s, t, s.current.value.open[t])
      ensures Tracked(s', OpenState(t), s.current.value.open[t])
    {
      ClearKeepsTracking(s, s', done, OpenState(t), s.current.value.open[t]);
    }
    forall t | s.build.Some? && t in s.build.value.open && MeetsWaived(s, t, s.build.value.open[t])
      ensures Tracked(s', OpenState(t), s.build.value.open[t])
    {
      ClearKeepsTracking(s, s', done, OpenState(t), s.build.value.open[t]);
    }
  }

  lemma ClearHands(s: State, done: set<Ticket>)
    requires BarriersOwnTickets(s) && WorkerEnabled(s, ClearTickets(done))
    ensures var s' := AfterWorker(s, ClearTickets(done));
            Hands(s, s', done) && s'.dirty.tickets.Keys <= s.dirty.tickets.Keys
  {
  }

  lemma ClearStep(s: State, done: set<Ticket>)
    requires Inv(s) && WorkerEnabled(s, ClearTickets(done))
    ensures Inv(AfterWorker(s, ClearTickets(done)))
  {
    var s' := AfterWorker(s, ClearTickets(done));
    ClearKeepsTickets(s, ClearTickets(done));
    ClearHands(s, done);
    HandsKeepsBounded(s, s', done);
    HandsKeepsNeedsMet(s, s', done);
    HandsKeepsSeen(s, s', done);
    ClearKeepsFoundation(s, s', done);
    ClearKeepsOpen(s, s', done);
  }

  // ----- Steps that read or publish -----

  ghost predicate Reads(s: State, s': State) {
    && s.build.Some? && s'.build.Some? && s' == s.(build := s'.build)
    && s'.build.value == s.build.value.(foundation := s'.build.value.foundation, checked := s'.build.value.checked,
                                                open := s'.build.value.open)
  }

  lemma ReadsKeepsTracked(s: State, s': State)
    requires Reads(s, s')
    ensures forall r, v: nat :: Tracked(s, r, v) ==> Tracked(s', r, v)
  {
    forall r, v: nat | Tracked(s, r, v) ensures Tracked(s', r, v) {
      if k :| Covers(s, k, r) {
        assert Covers(s', k, r);
      }
    }
  }

  lemma ReadFoundationKeepsBounded(s: State, s': State)
    requires Bounded(s) && Reads(s, s') && s.build.value.scope == WholeCatalog
    requires s'.build.value == s.build.value.(foundation := Some(s.store))
    ensures Bounded(s')
  {
  }

  lemma ReadFoundationKeepsNeedsMet(s: State, s': State)
    requires PlacesDisjoint(s) && NeedsBounded(s) && NeedsMet(s) && Reads(s, s')
    requires s.build.value.scope == WholeCatalog
    requires s'.build.value == s.build.value.(foundation := Some(s.store))
    ensures NeedsMet(s')
  {
    assert forall k | k in BatchOf(s.exec) :: Held(s, k);
  }

  lemma ReadFoundationFresh(s: State, s': State)
    requires FoundationFresh(s) && Reads(s, s')
    requires s'.build.value == s.build.value.(foundation := Some(s.store))
    ensures FoundationFresh(s')
    ensures OpenFresh(s) ==> OpenFresh(s')
  {
    SameWaived(s, s');
    ReadsKeepsTracked(s, s');
  }

  /** Catalog and readiness of `t` are seen to be those of the served foundation. */
  ghost predicate ChecksOverlay(s: State, s': State, t: TermCampusKey) {
    && Reads(s, s') && s'.build.value == s.build.value.(checked := s.build.value.checked + {t})
    && (s.build.value.scope.Overlays? ==>
          && t in s.build.value.scope.targets && s.current.Some? && t in s.current.value.open
          && V(s.current.value.foundation, Ready(t)) == V(s.store, Ready(t)))
  }

  lemma CheckOverlayKeepsBounded(s: State, s': State, t: TermCampusKey)
    requires Bounded(s) && ChecksOverlay(s, s', t)
    ensures Bounded(s')
  {
  }

  lemma CheckOverlayKeepsNeedsMet(s: State, s': State, t: TermCampusKey)
    requires PlacesDisjoint(s) && NeedsBounded(s) && NeedsMet(s) && ChecksOverlay(s, s', t)
    ensures NeedsMet(s')
  {
    SameWaived(s, s');
    assert forall k | k in BatchOf(s.exec) :: Held(s, k);
  }

  lemma CheckOverlayFresh(s: State, s': State, t: TermCampusKey)
    requires FoundationFresh(s) && OpenFresh(s) && ChecksOverlay(s, s', t)
    ensures FoundationFresh(s') && OpenFresh(s')
  {
    SameWaived(s, s');
    ReadsKeepsTracked(s, s');
  }

  /** The Open state of a checked `t` is read from the store. */
  ghost predicate ReadsOverlay(s: State, s': State, t: TermCampusKey) {
    && Reads(s, s') && t in s.build.value.checked
    && s'.build.value == s.build.value.(open := s.build.value.open[t := V(s.store, OpenState(t))])
  }

  lemma ReadOverlayKeepsBounded(s: State, s': State, t: TermCampusKey)
    requires Bounded(s) && ReadsOverlay(s, s', t)
    ensures Bounded(s')
  {
  }

  lemma ReadOverlayKeepsNeedsMet(s: State, s': State, t: TermCampusKey)
    requires PlacesDisjoint(s) && NeedsBounded(s) && NeedsMet(s) && ReadsOverlay(s, s', t)
    ensures NeedsMet(s')
  {
    SameWaived(s, s');
    assert forall k | k in BatchOf(s.exec) :: Held(s, k);
  }

  lemma ReadOverlayFresh(s: State, s': State, t: TermCampusKey)
    requires FoundationFresh(s) && OpenFresh(s) && ReadsOverlay(s, s', t)
    ensures FoundationFresh(s') && OpenFresh(s')
  {
    SameWaived(s, s');
    ReadsKeepsTracked(s, s');
  }

  lemma ReadsKeepsSeen(s: State, s': State)
    requires SeenMeets(s) && Reads(s, s')
    ensures SeenMeets(s')
  {
  }

  lemma ReadFoundationStep(s: State)
    requires Inv(s) && BuildEnabled(s, ReadFoundation)
    ensures Inv(AfterBuild(s, ReadFoundation))
  {
    BuildKeepsTickets(s, ReadFoundation);
    ReadFoundationKeepsBounded(s, AfterBuild(s, ReadFoundation));
    ReadFoundationKeepsNeedsMet(s, AfterBuild(s, ReadFoundation));
    ReadFoundationFresh(s, AfterBuild(s, ReadFoundation));
    ReadsKeepsSeen(s, AfterBuild(s, ReadFoundation));
  }

  lemma CheckOverlayStep(s: State, t: TermCampusKey)
    requires Inv(s) && BuildEnabled(s, CheckOverlay(t))
    ensures Inv(AfterBuild(s, CheckOverlay(t)))
  {
    BuildKeepsTickets(s, CheckOverlay(t));
    var s' := AfterBuild(s, CheckOverlay(t));
    CheckOverlayKeepsBounded(s, s', t);
    CheckOverlayKeepsNeedsMet(s, s', t);
    CheckOverlayFresh(s, s', t);
    ReadsKeepsSeen(s, s');
  }

  lemma ReadOverlayStep(s: State, t: TermCampusKey)
    requires Inv(s) && BuildEnabled(s, ReadOverlay(t))
    ensures Inv(AfterBuild(s, ReadOverlay(t)))
  {
    BuildKeepsTickets(s, ReadOverlay(t));
    var s' := AfterBuild(s, ReadOverlay(t));
    ReadOverlayKeepsBounded(s, s', t);
    ReadOverlayKeepsNeedsMet(s, s', t);
    ReadOverlayFresh(s, s', t);
    ReadsKeepsSeen(s, s');
  }

  lemma PublishKeepsBounded(s: State)
    requires Bounded(s) && BuildEnabled(s, Publish)
    ensures Bounded(AfterBuild(s, Publish))
  {
  }

  lemma WholeBuildMeetsNeed(s: State, b: Build, k: Ticket, s': State)
    requires BuildMeetsNeed(s, b, k) && b.foundation.Some? && s'.need == s.need && s'.waived == s.waived
    requires s'.current.Some? && s'.current.value.foundation == b.foundation.value && s'.current.value.open == b.open
    ensures CurrentMeetsNeed(s', k)
  {
  }

  lemma OverlayBuildMeetsNeed(s: State, b: Build, k: Ticket, s': State)
    requires NeedsBounded(s) && BuildMeetsNeed(s, b, k) && k in s.dirty.tickets && s.current.Some?
    requires b.open.Keys <= b.checked
    requires if b.owner == Worker then b.scope.Overlays? && k.Open? && k.target in b.open else CurrentMeetsNeed(s, k)
    requires s'.need == s.need && s'.waived == s.waived && s'.current.Some?
    requires s'.current.value.foundation == s.current.value.foundation
    requires s'.current.value.open == s.current.value.open + b.open
    ensures CurrentMeetsNeed(s', k)
  {
  }

  /** What publishing does to the served generation. */
  ghost predicate Publishes(s: State, s': State) {
    && s.build.Some? && s'.current.Some? && s'.need == s.need && s'.waived == s.waived
    && (s.build.value.scope == WholeCatalog ==>
          && s.build.value.foundation.Some? && s'.current.value.foundation == s.build.value.foundation.value
          && s'.current.value.open == s.build.value.open)
    && (s.build.value.scope.Overlays? ==>
          && s.current.Some? && s'.current.value.foundation == s.current.value.foundation
          && s'.current.value.open == s.current.value.open + s.build.value.open
          && s.build.value.scope.targets <= s.build.value.open.Keys)
  }

  lemma PublishPublishes(s: State)
    requires BuildEnabled(s, Publish)
    ensures Publishes(s, AfterBuild(s, Publish))
  {
  }

  lemma PublishMeetsNeed(s: State, s': State, k: Ticket)
    requires BatchWellFormed(s) && Bounded(s) && PlacesDisjoint(s) && NeedsMet(s) && Publishes(s, s')
    requires k in BatchOf(s.exec) && (s.exec.covered || s.build.value.owner == Worker)
    ensures CurrentMeetsNeed(s', k)
  {
    var b := s.build.value;
    assert Held(s, k) && BuildMeetsNeed(s, b, k);
    if b.scope == WholeCatalog {
      WholeBuildMeetsNeed(s, b, k, s');
    } else {
      OverlayBuildMeetsNeed(s, b, k, s');
    }
  }

  lemma PublishKeepsNeedsMet(s: State)
    requires BatchWellFormed(s) && Bounded(s) && PlacesDisjoint(s) && NeedsMet(s) && BuildEnabled(s, Publish)
    ensures NeedsMet(AfterBuild(s, Publish))
  {
    PublishPublishes(s);
    forall k | k in BatchOf(s.exec) && (s.exec.covered || s.build.value.owner == Worker)
      ensures CurrentMeetsNeed(AfterBuild(s, Publish), k)
    {
      PublishMeetsNeed(s, AfterBuild(s, Publish), k);
    }
  }

  lemma PublishKeepsFresh(s: State)
    requires BuildEnabled(s, Publish)
    ensures FoundationFresh(s) ==> FoundationFresh(AfterBuild(s, Publish))
    ensures OpenFresh(s) ==> OpenFresh(AfterBuild(s, Publish))
  {
    var s' := AfterBuild(s, Publish);
    SameWaived(s, s');
    forall r, v: nat | Tracked(s, r, v) ensures Tracked(s', r, v) {
      if k :| Covers(s, k, r) {
        assert Covers(s', k, r);
      }
    }
  }

  lemma PublishStep(s: State)
    requires Inv(s) && BuildEnabled(s, Publish)
    ensures Inv(AfterBuild(s, Publish))
  {
    BuildKeepsTickets(s, Publish);
    PublishKeepsBounded(s);
    PublishKeepsNeedsMet(s);
    if s.exec.Executing? {
      KeepsSeen(s, AfterBuild(s, Publish));
    }
    PublishKeepsFresh(s);
  }

  /** The fallback admits the old generation on its foundation, and records which tickets it lets go. */
  ghost predicate FallsBack(s: State, s': State) {
    && s.exec.Executing? && FoundationSeen(s) && !WorkerBuilding(s)
    && s' == s.(exec := s.exec.(covered := true), waived := s.waived + s.exec.batch)
  }

  lemma FallbackKeepsBounded(s: State, s': State)
    requires PlacesDisjoint(s) && Bounded(s) && FallsBack(s, s')
    ensures Bounded(s')
  {
    assert forall k | k in BatchOf(s.exec) :: Held(s, k);
  }

  lemma FallbackMeets(s: State, s': State, k: Ticket)
    requires NeedsBounded(s) && SeenMeets(s) && FallsBack(s, s') && k in s.exec.batch && k in s.dirty.tickets
    ensures CurrentMeetsNeed(s', k)
  {
    assert k in s'.waived;
  }

  lemma FallbackBuildMeets(s: State, s': State, k: Ticket)
    requires Bounded(s) && SeenMeets(s) && FallsBack(s, s') && k in s.exec.batch && k in s.dirty.tickets
             && s.build.Some?
    ensures BuildMeetsNeed(s', s'.build.value, k)
  {
    assert k in s'.waived;
  }

  lemma FallbackKeepsNeedsMet(s: State, s': State)
    requires PlacesDisjoint(s) && Bounded(s) && SeenMeets(s) && FallsBack(s, s')
    ensures NeedsMet(s')
  {
    forall k | k in BatchOf(s'.exec)
      ensures CurrentMeetsNeed(s', k) && (s'.build.Some? ==> BuildMeetsNeed(s', s'.build.value, k))
    {
      assert Held(s, k);
      FallbackMeets(s, s', k);
      if s.build.Some? {
        FallbackBuildMeets(s, s', k);
      }
    }
  }

  lemma FallbackFresh(s: State, s': State)
    requires FallsBack(s, s')
    ensures FoundationFresh(s) ==> FoundationFresh(s')
    ensures OpenFresh(s) ==> OpenFresh(s')
  {
    assert forall t, v: nat | MeetsWaived(s', t, v) :: MeetsWaived(s, t, v);
    forall r, v: nat | Tracked(s, r, v) ensures Tracked(s', r, v) {
      if k :| Covers(s, k, r) {
        assert Covers(s', k, r);
      }
    }
  }

  /** Looking at one part of the foundation is a step of its own: the store may move before the next. */
  lemma LookAtKeepsSeen(s: State, s': State, r: Resource)
    requires PlacesDisjoint(s) && NeedsBounded(s) && SeenMeets(s) && s.exec.Executing? && IsFoundation(r)
    requires s.current.Some? && V(s.current.value.foundation, r) == V(s.store, r)
    requires s' == s.(exec := s.exec.(seen := s.exec.seen + {r}))
    ensures SeenMeets(s')
  {
    assert forall k | k in BatchOf(s.exec) :: Held(s, k);
  }

  lemma LookAtStep(s: State, r: Resource)
    requires Inv(s) && WorkerEnabled(s, LookAt(r))
    ensures Inv(AfterWorker(s, LookAt(r)))
  {
    var s' := AfterWorker(s, LookAt(r));
    ReturnKeepsTickets(s, LookAt(r));
    LookAtKeepsSeen(s, s', r);
    LookAtKeepsNeedsMet(s, s');
    LookAtKeepsFresh(s, s');
  }

  lemma LookAtKeepsNeedsMet(s: State, s': State)
    requires NeedsMet(s) && s.exec.Executing? && s'.exec.Executing? && s' == s.(exec := s.exec.(seen := s'.exec.seen))
    ensures NeedsMet(s')
  {
    forall k | k in s.exec.batch
      ensures s.exec.covered ==> CurrentMeetsNeed(s', k)
      ensures s.build.Some? && (s.exec.covered || s.build.value.owner == Worker) ==>
                BuildMeetsNeed(s', s.build.value, k)
    {
      assert k in BatchOf(s.exec);
      if s.exec.covered {
        SameNeedKeepsCurrent(s, s', k);
      }
      if s.build.Some? && (s.exec.covered || s.build.value.owner == Worker) {
        SameNeedKeepsBuild(s, s', s.build.value, s.build.value, k);
      }
    }
  }

  lemma LookAtKeepsFresh(s: State, s': State)
    requires FoundationFresh(s) && OpenFresh(s) && s' == s.(exec := s'.exec)
    ensures FoundationFresh(s') && OpenFresh(s')
  {
    SameWaived(s, s');
    forall r, v: nat | Tracked(s, r, v) ensures Tracked(s', r, v) {
      if k :| Covers(s, k, r) {
        assert Covers(s', k, r);
      }
    }
  }

  lemma FallbackStep(s: State)
    requires Inv(s) && WorkerEnabled(s, FallbackMatch)
    ensures Inv(AfterWorker(s, FallbackMatch))
  {
    var s' := AfterWorker(s, FallbackMatch);
    ReturnKeepsTickets(s, FallbackMatch);
    FallbackKeepsBounded(s, s');
    FallbackKeepsNeedsMet(s, s');
    FallbackFresh(s, s');
  }

  lemma WriterStepKeepsInv(s: State, step: WriterStep)
    requires Inv(s) && WriterEnabled(s, step)
    ensures Inv(AfterWriter(s, step))
  {
    match step
    case BeginFull =>
      BeginKeepsTickets(s, step); BeginIsFrame(s, step); FrameKeepsInv(s, AfterWriter(s, step));
    case BeginOpen(_) =>
      BeginKeepsTickets(s, step); BeginIsFrame(s, step); FrameKeepsInv(s, AfterWriter(s, step));
    case CommitStore(k, touched) => CommitStoreStep(s, k, touched);
    case CommitStoreAsOpen(k, t, touched) => CommitStoreAsOpenStep(s, k, t, touched);
    case CommitBarrier(_) =>
      CommitBarrierKeepsTickets(s, step); WriterIsFrame(s, step); FrameKeepsInv(s, AfterWriter(s, step));
    case NarrowBarrier(k) => NarrowStep(s, k);
    case SendRequest(_) =>
      SendKeepsTickets(s, step); WriterIsFrame(s, step); FrameKeepsInv(s, AfterWriter(s, step));
    case DropBarrier(k) => DropBarrierStep(s, k);
  }

  lemma FrameStep(s: State, step: WorkerStep)
    requires Inv(s) && WorkerEnabled(s, step) && Frame(s, AfterWorker(s, step))
    ensures Inv(AfterWorker(s, step))
  {
    TicketInvStep(s, Work(step));
    FrameKeepsInv(s, AfterWorker(s, step));
  }

  lemma WorkerStepKeepsInv(s: State, step: WorkerStep)
    requires Inv(s) && WorkerEnabled(s, step)
    ensures Inv(AfterWorker(s, step))
  {
    match step
    case PromoteBatch => PromoteStep(s);
    case FallbackMatch => FallbackStep(s);
    case ClearTickets(done) => ClearStep(s, done);
    case Merge => CollectIsFrame(s, step); FrameStep(s, step);
    case Take => CollectIsFrame(s, step); FrameStep(s, step);
    case LookAt(r) => LookAtStep(s, r);
    case Requeue => ReturnIsFrame(s, step); FrameStep(s, step);
    case DropBatch => ReturnIsFrame(s, step); FrameStep(s, step);
    case StopAccepting => LifecycleIsFrame(s, step); FrameStep(s, step);
    case RequestShutdown => LifecycleIsFrame(s, step); FrameStep(s, step);
    case WorkerExit => LifecycleIsFrame(s, step); FrameStep(s, step);
  }

  lemma BuildStepKeepsInv(s: State, step: BuildStep)
    requires Inv(s) && BuildEnabled(s, step)
    ensures Inv(AfterBuild(s, step))
  {
    match step
    case ReadFoundation => ReadFoundationStep(s);
    case CheckOverlay(t) => CheckOverlayStep(s, t);
    case ReadOverlay(t) => ReadOverlayStep(s, t);
    case Publish => PublishStep(s);
    case _ =>
      BuildKeepsTickets(s, step);
      BuildIsFrame(s, step);
      FrameKeepsInv(s, AfterBuild(s, step));
  }

  /** One induction step: every step of the protocol keeps the whole invariant. */
  lemma InvStep(s: State, step: Step)
    requires Inv(s) && Enabled(s, step)
    ensures Inv(After(s, step))
  {
    match step
    case Write(w) => WriterStepKeepsInv(s, w);
    case Work(w) => WorkerStepKeepsInv(s, w);
    case Rebuild(b) => BuildStepKeepsInv(s, b);
  }
}
