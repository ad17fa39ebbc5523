/**
  What the byte accounting promises in every run: conservation of bytes in both budgets, ordered
  delivery, one overflow verdict per connection, and nothing held once a connection is gone.
 */
module OutboundTheorems {
  import opened Common
  import opened Outbound

  // ----- Totals -----

  ghost function Total(m: map<nat, nat>): nat
    decreases |m|
  {
    if m == map[] then 0
    else
      var k :| k in m;
      assert |(m - {k}).Keys| == |m.Keys - {k}|;
      m[k] + Total(m - {k})
  }

  lemma {:induction false} TotalAt(m: map<nat, nat>, k: nat)
    requires k in m
    ensures Total(m) == m[k] + Total(m - {k})
    decreases |m|
  {
    var j :| j in m && Total(m) == m[j] + Total(m - {j});
    if j != k {
      assert (m - {j}).Keys == m.Keys - {j} && (m - {k}).Keys == m.Keys - {k};
      TotalAt(m - {j}, k);
      TotalAt(m - {k}, j);
      assert m - {j} - {k} == m - {k} - {j};
    }
  }

  lemma TotalPut(m: map<nat, nat>, k: nat, v: nat)
    ensures Total(m[k := v]) == Total(m) - (if k in m then m[k] else 0) + v
  {
    TotalAt(m[k := v], k);
    assert m[k := v] - {k} == m - {k};
    if k in m {
      TotalAt(m, k);
    } else {
      assert m - {k} == m;
    }
  }

  // ----- Who holds how many bytes -----

  datatype Share = SocketShare | GlobalShare

  /** The bytes a sender holds between its reservations and the moment it hands them on or returns them. */
  function SenderBytes(x: Sender, share: Share): nat {
    match x.pc
    case HoldsSocket => if share == SocketShare then x.frame.bytes else 0
    case GlobalRefused => if share == SocketShare then x.frame.bytes else 0
    case HoldsBoth => x.frame.bytes
    case Undelivered => x.frame.bytes
    case UndeliveredGlobal => if share == GlobalShare then x.frame.bytes else 0
    case _ => 0
  }

  function Weights(senders: map<nat, Sender>, share: Share): map<nat, nat> {
    map id | id in senders :: SenderBytes(senders[id], share)
  }

  ghost function SendersBytes(senders: map<nat, Sender>, share: Share): nat {
    Total(Weights(senders, share))
  }

  function QueueBytes(queue: seq<Item>): nat {
    if queue == [] then 0 else (if queue[0].FrameItem? then queue[0].frame.bytes else 0) + QueueBytes(queue[1..])
  }

  /** The frame the pump has taken from the queue, until it returns that share. */
  function PumpBytes(p: PumpPc, share: Share): nat {
    match p
    case Popped(f) => f.bytes
    case Writing(f) => f.bytes
    case GiveSocket(f, _) => f.bytes
    case DrainSocket(f) => f.bytes
    case GiveGlobal(f, _) => if share == GlobalShare then f.bytes else 0
    case DrainGlobal(f) => if share == GlobalShare then f.bytes else 0
    case _ => 0
  }

  /** Mid-send reservations, queued frames and the frame being written. */
  ghost function Held(c: Connection, share: Share): nat {
    SendersBytes(c.senders, share) + QueueBytes(c.queue) + PumpBytes(c.pump, share)
  }

  lemma SenderMoves(senders: map<nat, Sender>, id: nat, x: Sender, share: Share)
    ensures SendersBytes(senders[id := x], share) ==
            SendersBytes(senders, share) - (if id in senders then SenderBytes(senders[id], share) else 0)
              + SenderBytes(x, share)
  {
    assert Weights(senders[id := x], share) == Weights(senders, share)[id := SenderBytes(x, share)];
    TotalPut(Weights(senders, share), id, SenderBytes(x, share));
  }

  lemma SenderLeaves(senders: map<nat, Sender>, id: nat, share: Share)
    requires id in senders
    ensures SendersBytes(senders - {id}, share) == SendersBytes(senders, share) - SenderBytes(senders[id], share)
  {
    assert Weights(senders - {id}, share) == Weights(senders, share) - {id};
    TotalAt(Weights(senders, share), id);
  }

  lemma {:induction false} QueueAppend(queue: seq<Item>, item: Item)
    ensures QueueBytes(queue + [item]) == QueueBytes(queue) + QueueBytes([item])
  {
    if queue == [] {
      assert queue + [item] == [item];
    } else {
      assert (queue + [item])[1..] == queue[1..] + [item];
      QueueAppend(queue[1..], item);
    }
  }

  /** The socket counter is exact, and the global one is exact given what the other connections hold. */
  ghost predicate Balanced(c: Connection, g: nat, others: nat) {
    c.queued == Held(c, SocketShare) && g == Held(c, GlobalShare) + others
  }

  /** A reservation or a return moves exactly the bytes the sender takes on or gives up. */
  lemma SenderCounts(c: Connection, g: nat, globalLimit: nat, id: nat, step: SenderStep)
    requires SenderEnabled(c, id, step)
    requires SenderBytes(c.senders[id], SocketShare) <= c.queued && SenderBytes(c.senders[id], GlobalShare) <= g
    ensures var x := c.senders[id];
            var next := SenderNext(c, g, globalLimit, x, step);
            var held := (share: Share) => if next.Some? then SenderBytes(x.(pc := next.value), share) else 0;
            && SocketAfter(c, x, step) - c.queued
               == held(SocketShare) - SenderBytes(x, SocketShare) + QueueBytes(Pushed(c, x, step))
            && GlobalAfter(g, globalLimit, x, step) - g
               == held(GlobalShare) - SenderBytes(x, GlobalShare) + QueueBytes(Pushed(c, x, step))
  {
  }

  lemma SendersMoved(senders: map<nat, Sender>, senders': map<nat, Sender>, id: nat, next: Option<SenderPc>,
                     share: Share)
    requires id in senders
    requires senders' == if next.Some? then senders[id := senders[id].(pc := next.value)] else senders - {id}
    ensures SendersBytes(senders', share) == SendersBytes(senders, share) - SenderBytes(senders[id], share)
                                             + if next.Some? then SenderBytes(senders[id].(pc := next.value), share)
                                                 else 0
    ensures SenderBytes(senders[id], share) <= SendersBytes(senders, share)
  {
    SenderLeaves(senders, id, share);
    if next.Some? {
      SenderMoves(senders, id, senders[id].(pc := next.value), share);
    }
  }

  lemma QueuePushed(c: Connection, x: Sender, step: SenderStep)
    ensures QueueBytes(c.queue + Pushed(c, x, step)) == QueueBytes(c.queue) + QueueBytes(Pushed(c, x, step))
  {
    if Pushed(c, x, step) == [] {
      assert c.queue + Pushed(c, x, step) == c.queue;
    } else {
      QueueAppend(c.queue, Pushed(c, x, step)[0]);
    }
  }

  lemma SenderKeepsBalance(c: Connection, g: nat, globalLimit: nat, id: nat, step: SenderStep, others: nat)
    requires SenderEnabled(c, id, step) && Balanced(c, g, others)
    ensures Balanced(AfterSender(c, g, globalLimit, id, step), GlobalAfter(g, globalLimit, c.senders[id], step), others)
  {
    var x, c' := c.senders[id], AfterSender(c, g, globalLimit, id, step);
    var next := SenderNext(c, g, globalLimit, x, step);
    SendersMoved(c.senders, c'.senders, id, next, SocketShare);
    SendersMoved(c.senders, c'.senders, id, next, GlobalShare);
    QueuePushed(c, x, step);
    SenderCounts(c, g, globalLimit, id, step);
  }

  /** The pump takes bytes from the queue, and returns them to the budgets one after the other. */
  lemma PumpCounts(c: Connection, g: nat, step: PumpStep, share: Share)
    requires PumpEnabled(c, step) && PumpBytes(c.pump, share) <= if share == SocketShare then c.queued else g
    ensures var releases := if share == SocketShare then ReleaseSocket else ReleaseGlobal;
            var returned := if step == releases then c.pump.frame.bytes else 0;
            PumpBytes(PumpNext(c, step), share) + QueueBytes(if Takes(c, step) then c.queue[1..] else c.queue)
              + returned
            == PumpBytes(c.pump, share) + QueueBytes(c.queue)
  {
  }

  lemma PumpKeepsBalance(c: Connection, g: nat, step: PumpStep, others: nat)
    requires PumpEnabled(c, step) && Balanced(c, g, others)
    ensures Balanced(AfterPump(c, step), GlobalAfterPump(c, g, step), others)
  {
    PumpCounts(c, g, step, SocketShare);
    PumpCounts(c, g, step, GlobalShare);
  }

  // ----- Delivery -----

  function Frames(queue: seq<Item>): seq<Frame> {
    if queue == [] then [] else (if queue[0].FrameItem? then [queue[0].frame] else []) + Frames(queue[1..])
  }

  lemma {:induction false} FramesAppend(queue: seq<Item>, item: Item)
    ensures Frames(queue + [item]) == Frames(queue) + if item.FrameItem? then [item.frame] else []
  {
    if queue == [] {
      assert queue + [item] == [item];
    } else {
      assert (queue + [item])[1..] == queue[1..] + [item];
      FramesAppend(queue[1..], item);
      var first, rest := if queue[0].FrameItem? then [queue[0].frame] else [], Frames(queue[1..]);
      assert forall last: seq<Frame> :: first + (rest + last) == (first + rest) + last;
    }
  }

  /** Until the pump gives up, it has written every frame it took, but for the one in hand. */
  ghost predicate WrittenFits(c: Connection) {
    match c.pump
    case Connecting => c.popped == c.written
    case Turn => c.popped == c.written
    case Selecting => c.popped == c.written
    case Popped(f) => c.popped == c.written + [f]
    case Writing(f) => c.popped == c.written + [f]
    case GiveSocket(_, Written) => c.popped == c.written
    case GiveGlobal(_, Written) => c.popped == c.written
    case _ => c.written <= c.popped
  }

  predicate Drained(p: PumpPc) {
    p == Draining || p.DrainSocket? || p.DrainGlobal? || p == Gone
  }

  ghost predicate QueueFits(c: Connection) {
    c.accepted == c.popped + Frames(c.queue)
  }

  ghost predicate ClosesLast(c: Connection) {
    (c.closed <==> Drained(c.pump)) && (c.pump == Gone ==> c.queue == [])
  }

  ghost predicate Delivers(c: Connection) {
    QueueFits(c) && WrittenFits(c) && ClosesLast(c)
  }

  lemma SenderKeepsDelivery(c: Connection, g: nat, globalLimit: nat, id: nat, step: SenderStep)
    requires SenderEnabled(c, id, step) && Delivers(c)
    ensures Delivers(AfterSender(c, g, globalLimit, id, step))
  {
    var pushed := Pushed(c, c.senders[id], step);
    if pushed == [] {
      assert c.queue + pushed == c.queue;
    } else {
      FramesAppend(c.queue, pushed[0]);
    }
  }

  lemma PumpKeepsQueue(c: Connection, step: PumpStep)
    requires PumpEnabled(c, step) && QueueFits(c)
    ensures QueueFits(AfterPump(c, step))
  {
    assert Takes(c, step) ==> Frames(c.queue) == TakenFrames(c, step) + Frames(c.queue[1..]);
  }

  lemma PumpKeepsWritten(c: Connection, step: PumpStep)
    requires PumpEnabled(c, step) && WrittenFits(c)
    ensures WrittenFits(AfterPump(c, step))
  {
  }

  lemma PumpKeepsDelivery(c: Connection, step: PumpStep)
    requires PumpEnabled(c, step) && Delivers(c)
    ensures Delivers(AfterPump(c, step))
  {
    PumpKeepsQueue(c, step);
    PumpKeepsWritten(c, step);
  }

  // ----- Verdicts -----

  predicate HasOverflow(verdicts: seq<Verdict>) {
    exists v | v in verdicts :: v.OverflowVerdict?
  }

  lemma OverflowAppend(verdicts: seq<Verdict>, v: Verdict)
    ensures HasOverflow(verdicts + [v]) <==> HasOverflow(verdicts) || v.OverflowVerdict?
  {
    if v.OverflowVerdict? {
      assert v in verdicts + [v];
    } else if u :| u in verdicts && u.OverflowVerdict? {
      assert u in verdicts + [v];
    }
  }

  predicate StillRecording(c: Connection) {
    c.condemner.Some? && c.condemner.value in c.senders && c.senders[c.condemner.value].pc.Recording?
  }

  predicate OneOfEach(verdicts: seq<Verdict>) {
    |verdicts| <= 2 && (|verdicts| == 2 ==> verdicts[0].OverflowVerdict? != verdicts[1].OverflowVerdict?)
  }

  predicate PastTimeout(p: PumpPc) {
    p == Stopping || p == Closing || Drained(p)
  }

  /** Only the sender that set the kill flag counts an overflow, once; the pump counts a timeout at most once. */
  ghost predicate Judged(c: Connection) {
    && (forall id | id in c.senders :: id < c.nextSender)
    && (forall id | id in c.senders && c.senders[id].pc.Recording? :: c.condemner == Some(id))
    && (c.condemner.Some? ==> c.killed && c.condemner.value < c.nextSender)
    && (HasOverflow(c.verdicts) <==> c.condemner.Some? && !StillRecording(c))
    && (TimeoutVerdict in c.verdicts ==> PastTimeout(c.pump))
    && OneOfEach(c.verdicts)
    && (c.raced <==> CountsTimeout(c) && c.condemner.Some?)
  }

  lemma SenderKeepsJudged(c: Connection, g: nat, globalLimit: nat, id: nat, step: SenderStep)
    requires SenderEnabled(c, id, step) && Judged(c)
    ensures Judged(AfterSender(c, g, globalLimit, id, step))
  {
    TwoMeansBoth(c.verdicts);
    if step == Record {
      OverflowAppend(c.verdicts, OverflowVerdict(c.senders[id].pc.verdict));
    } else {
      assert AfterSender(c, g, globalLimit, id, step).verdicts == c.verdicts;
    }
  }

  lemma PumpKeepsJudged(c: Connection, step: PumpStep)
    requires PumpEnabled(c, step) && Judged(c)
    ensures Judged(AfterPump(c, step))
  {
    TwoMeansBoth(c.verdicts);
    if step == CountTimeout {
      OverflowAppend(c.verdicts, TimeoutVerdict);
    } else {
      assert AfterPump(c, step).verdicts == c.verdicts;
    }
  }

  // ----- Whole runs -----

  ghost function GlobalShares(conns: map<nat, Connection>): map<nat, nat> {
    map k | k in conns :: Held(conns[k], GlobalShare)
  }

  ghost predicate ConnectionInv(c: Connection) {
    c.queued == Held(c, SocketShare) && c.queued <= c.limit && Delivers(c) && Judged(c)
  }

  ghost predicate Inv(s: State) {
    && (forall k | k in s.connections :: ConnectionInv(s.connections[k]))
    && s.globalQueued == Total(GlobalShares(s.connections)) && s.globalQueued <= s.globalLimit
  }

  lemma OthersHold(s: State, k: nat)
    requires k in s.connections && s.globalQueued == Total(GlobalShares(s.connections))
    ensures s.globalQueued == Held(s.connections[k], GlobalShare) + Total(GlobalShares(s.connections) - {k})
  {
    TotalAt(GlobalShares(s.connections), k);
  }

  lemma ConnectionPut(conns: map<nat, Connection>, k: nat, c: Connection)
    ensures Total(GlobalShares(conns[k := c])) == Held(c, GlobalShare) + Total(GlobalShares(conns) - {k})
  {
    var m := GlobalShares(conns[k := c]);
    assert m - {k} == GlobalShares(conns) - {k};
    TotalAt(m, k);
  }

  lemma NewSenderKeepsInv(c: Connection, frame: Frame)
    requires ConnectionInv(c)
    ensures var c' := c.(senders := c.senders[c.nextSender := Sender(frame, Started)], nextSender := c.nextSender + 1);
            ConnectionInv(c') && Held(c', GlobalShare) == Held(c, GlobalShare)
  {
    SenderMoves(c.senders, c.nextSender, Sender(frame, Started), SocketShare);
    SenderMoves(c.senders, c.nextSender, Sender(frame, Started), GlobalShare);
  }

  lemma OpenedIsEmpty(limit: nat)
    ensures ConnectionInv(Opened(limit)) && Held(Opened(limit), GlobalShare) == 0
  {
    assert Weights(map[], SocketShare) == map[] && Weights(map[], GlobalShare) == map[];
  }

  lemma SenderKeepsConnection(c: Connection, g: nat, globalLimit: nat, id: nat, step: SenderStep, others: nat)
    requires ConnectionInv(c) && g == Held(c, GlobalShare) + others && SenderEnabled(c, id, step)
    ensures var c' := AfterSender(c, g, globalLimit, id, step);
            ConnectionInv(c') && GlobalAfter(g, globalLimit, c.senders[id], step) == Held(c', GlobalShare) + others
    ensures g <= globalLimit ==> GlobalAfter(g, globalLimit, c.senders[id], step) <= globalLimit
  {
    SenderKeepsBalance(c, g, globalLimit, id, step, others);
    SenderKeepsDelivery(c, g, globalLimit, id, step);
    SenderKeepsJudged(c, g, globalLimit, id, step);
    SendersMoved(c.senders, c.senders - {id}, id, None, SocketShare);
    SendersMoved(c.senders, c.senders - {id}, id, None, GlobalShare);
    SenderWithinLimit(c, g, globalLimit, id, step);
  }

  lemma SenderWithinLimit(c: Connection, g: nat, globalLimit: nat, id: nat, step: SenderStep)
    requires SenderEnabled(c, id, step) && c.queued <= c.limit
    requires SenderBytes(c.senders[id], SocketShare) <= c.queued && SenderBytes(c.senders[id], GlobalShare) <= g
    ensures SocketAfter(c, c.senders[id], step) <= c.limit
    ensures g <= globalLimit ==> GlobalAfter(g, globalLimit, c.senders[id], step) <= globalLimit
  {
  }

  lemma PumpKeepsConnection(c: Connection, g: nat, step: PumpStep, others: nat)
    requires ConnectionInv(c) && g == Held(c, GlobalShare) + others && PumpEnabled(c, step)
    ensures ConnectionInv(AfterPump(c, step))
            && GlobalAfterPump(c, g, step) == Held(AfterPump(c, step), GlobalShare) + others
    ensures GlobalAfterPump(c, g, step) <= g
  {
    PumpKeepsBalance(c, g, step, others);
    PumpKeepsDelivery(c, step);
    PumpKeepsJudged(c, step);
  }

  /** What a step leaves of its connection, given what the other connections hold. */
  ghost predicate Settled(s: State, step: Step, others: nat)
    requires Enabled(s, step)
  {
    && ConnectionInv(ConnectionAfter(s, step)) && CounterAfter(s, step) <= s.globalLimit
    && CounterAfter(s, step) == Held(ConnectionAfter(s, step), GlobalShare) + others
  }

  lemma StepSettles(s: State, step: Step, others: nat)
    requires Enabled(s, step) && !step.Open? && ConnectionInv(s.connections[step.conn])
    requires s.globalQueued == Held(s.connections[step.conn], GlobalShare) + others && s.globalQueued <= s.globalLimit
    ensures Settled(s, step, others)
  {
    var c := s.connections[step.conn];
    match step
    case StartSend(_, frame) => NewSenderKeepsInv(c, frame);
    case SenderTurn(_, id, sender) => SenderKeepsConnection(c, s.globalQueued, s.globalLimit, id, sender, others);
    case PumpTurn(_, pump) => PumpKeepsConnection(c, s.globalQueued, pump, others);
  }

  lemma StepKeepsConnection(s: State, step: Step)
    requires Inv(s) && Enabled(s, step)
    ensures Settled(s, step, Total(GlobalShares(s.connections) - {step.conn}))
  {
    if step.Open? {
      OpenedIsEmpty(step.limit);
      assert GlobalShares(s.connections) - {step.conn} == GlobalShares(s.connections);
    } else {
      OthersHold(s, step.conn);
      StepSettles(s, step, Total(GlobalShares(s.connections) - {step.conn}));
    }
  }

  lemma StepKeepsInv(s: State, step: Step)
    requires Inv(s) && Enabled(s, step)
    ensures Inv(After(s, step))
  {
    StepKeepsConnection(s, step);
    PutKeepsInv(s, step.conn, ConnectionAfter(s, step), CounterAfter(s, step));
  }

  lemma PutKeepsInv(s: State, k: nat, c: Connection, counter: nat)
    requires Inv(s) && ConnectionInv(c) && counter <= s.globalLimit
    requires counter == Held(c, GlobalShare) + Total(GlobalShares(s.connections) - {k})
    ensures Inv(s.(globalQueued := counter, connections := s.connections[k := c]))
  {
    ConnectionPut(s.connections, k, c);
  }

  lemma {:induction false} RunKeepsInv(states: seq<State>, steps: seq<Step>, i: nat)
    requires Run(states, steps) && i < |states|
    ensures Inv(states[i])
  {
    if i == 0 {
      assert GlobalShares(map[]) == map[];
    } else {
      RunKeepsInv(states, steps, i - 1);
      StepKeepsInv(states[i - 1], steps[i - 1]);
    }
  }

  /**
    In every interleaving each counter equals the bytes held by mid-send reservations, queued frames and
    the frame being written, stays within its limit, and covers every share still to be returned.
   */
  lemma ByteConservation(states: seq<State>, steps: seq<Step>, i: nat)
    requires Run(states, steps) && i < |states|
    ensures var s := states[i];
            && s.globalQueued == Total(GlobalShares(s.connections)) <= s.globalLimit
            && forall k | k in s.connections ::
                 && s.connections[k].queued == Held(s.connections[k], SocketShare) <= s.connections[k].limit
                 && Held(s.connections[k], GlobalShare) <= s.globalQueued
  {
    RunKeepsInv(states, steps, i);
    var s := states[i];
    forall k | k in s.connections ensures Held(s.connections[k], GlobalShare) <= s.globalQueued {
      OthersHold(s, k);
    }
  }

  /** A frame is refused its socket share exactly when what the connection holds leaves no room for it. */
  lemma RefusedExactly(states: seq<State>, steps: seq<Step>, i: nat, k: nat, id: nat)
    requires Run(states, steps) && i < |steps| && steps[i] == SenderTurn(k, id, ReserveSocket)
    ensures var c, c' := states[i].connections[k], states[i + 1].connections[k];
            var needed := Held(c, SocketShare) + c.senders[id].frame.bytes;
            && id in c'.senders
            && c'.senders[id].pc
               == (if needed <= c.limit && needed <= USIZE_MAX then HoldsSocket else Refused(SocketOverflow))
            && c'.queued == if needed <= c.limit && needed <= USIZE_MAX then needed else c.queued
  {
    ByteConservation(states, steps, i);
  }

  /** And its process-wide share exactly when what all connections hold together leaves none. */
  lemma RefusedGloballyExactly(states: seq<State>, steps: seq<Step>, i: nat, k: nat, id: nat)
    requires Run(states, steps) && i < |steps| && steps[i] == SenderTurn(k, id, ReserveGlobal)
    ensures var s, s' := states[i], states[i + 1];
            var needed := Total(GlobalShares(s.connections)) + s.connections[k].senders[id].frame.bytes;
            && id in s'.connections[k].senders
            && s'.connections[k].senders[id].pc
               == (if needed <= s.globalLimit && needed <= USIZE_MAX then HoldsBoth else GlobalRefused)
            && s'.globalQueued == if needed <= s.globalLimit && needed <= USIZE_MAX then needed else s.globalQueued
  {
    ByteConservation(states, steps, i);
  }

  /** A return never takes a counter below zero. */
  lemma NoUnderflow(states: seq<State>, steps: seq<Step>, i: nat, k: nat, share: Share)
    requires Run(states, steps) && i < |states| && k in states[i].connections
    ensures var c := states[i].connections[k];
            var counter := if share == SocketShare then c.queued else states[i].globalQueued;
            PumpBytes(c.pump, share) <= counter
              && forall id | id in c.senders :: SenderBytes(c.senders[id], share) <= counter
  {
    ByteConservation(states, steps, i);
    var c := states[i].connections[k];
    forall id | id in c.senders ensures SenderBytes(c.senders[id], share) <= SendersBytes(c.senders, share) {
      SenderLeaves(c.senders, id, share);
    }
  }

  /** The frames written on a connection are a prefix of the frames accepted, in order. */
  lemma OrderedDelivery(states: seq<State>, steps: seq<Step>, i: nat, k: nat)
    requires Run(states, steps) && i < |states| && k in states[i].connections
    ensures states[i].connections[k].written <= states[i].connections[k].accepted
  {
    RunKeepsInv(states, steps, i);
  }

  /** Once the pump is gone and the pending sends have returned, the connection holds nothing. */
  lemma GoneHoldsNothing(states: seq<State>, steps: seq<Step>, i: nat, k: nat)
    requires Run(states, steps) && i < |states| && k in states[i].connections
    requires states[i].connections[k].pump == Gone && states[i].connections[k].senders == map[]
    ensures states[i].connections[k].queued == 0 && Held(states[i].connections[k], GlobalShare) == 0
  {
    RunKeepsInv(states, steps, i);
    assert Weights(map[], SocketShare) == map[] && Weights(map[], GlobalShare) == map[];
  }

  /**
    Each kind of verdict is counted at most once per connection, and an overflow only by the sender
    whose swap found the kill flag unset. Both kinds are due exactly when that swap came after the
    pump had found the connection alive and before it set the flag itself.
   */
  lemma VerdictsPerConnection(states: seq<State>, steps: seq<Step>, i: nat, k: nat)
    requires Run(states, steps) && i < |states| && k in states[i].connections
    ensures var c := states[i].connections[k];
            && OneOfEach(c.verdicts) && |c.verdicts| <= 2
            && (HasOverflow(c.verdicts) ==> c.killed && c.condemner.Some?)
            && (c.raced <==> CountsTimeout(c) && c.condemner.Some?)
            && (!c.raced ==> |c.verdicts| <= 1)
            && (c.raced && c.pump != RecordTimeout && !StillRecording(c) ==> |c.verdicts| == 2)
  {
    RunKeepsInv(states, steps, i);
    var c := states[i].connections[k];
    TwoMeansBoth(c.verdicts);
  }

  lemma TwoMeansBoth(verdicts: seq<Verdict>)
    requires OneOfEach(verdicts)
    ensures |verdicts| == 2 <==> HasOverflow(verdicts) && TimeoutVerdict in verdicts
  {
    if |verdicts| == 2 {
      assert verdicts[0] in verdicts && verdicts[1] in verdicts;
    }
  }

  lemma KilledStays(s: State, step: Step, k: nat)
    requires Enabled(s, step) && k in s.connections
    ensures k in After(s, step).connections && (s.connections[k].killed ==> After(s, step).connections[k].killed)
  {
  }

  /** The kill flag never resets. */
  lemma {:induction false} KilledIsForever(states: seq<State>, steps: seq<Step>, i: nat, j: nat, k: nat)
    requires Run(states, steps) && i <= j < |states| && k in states[i].connections && states[i].connections[k].killed
    ensures k in states[j].connections && states[j].connections[k].killed
  {
    if i < j {
      KilledIsForever(states, steps, i, j - 1, k);
      KilledStays(states[j - 1], steps[j - 1], k);
    }
  }

  /** The connection is dead, and no write timeout of it has been decided on. */
  ghost predicate DeadInTime(s: State, k: nat) {
    k in s.connections && s.connections[k].killed && !CountsTimeout(s.connections[k])
  }

  lemma NoTimeoutStays(s: State, step: Step, k: nat)
    requires Enabled(s, step) && DeadInTime(s, k)
    ensures DeadInTime(After(s, step), k)
  {
  }

  lemma RunStaysInTime(states: seq<State>, steps: seq<Step>, i: nat, k: nat)
    requires Run(states, steps) && i < |steps| && DeadInTime(states[i], k)
    ensures DeadInTime(states[i + 1], k)
  {
    NoTimeoutStays(states[i], steps[i], k);
  }

  /** Once the kill flag is set, a write timeout the pump has not yet decided on is never counted. */
  lemma {:induction false} NoTimeoutOnceKilled(states: seq<State>, steps: seq<Step>, i: nat, j: nat, k: nat)
    requires Run(states, steps) && i <= j < |states| && DeadInTime(states[i], k)
    ensures DeadInTime(states[j], k)
  {
    if i < j {
      NoTimeoutOnceKilled(states, steps, i, j - 1, k);
      RunStaysInTime(states, steps, j - 1, k);
    }
  }

  // ----- A teardown with two verdicts -----

  ghost predicate Reachable(s: State) {
    exists states, steps :: Run(states, steps) && states[|steps|] == s
  }

  lemma ReachableStep(s: State, step: Step)
    requires Reachable(s) && Enabled(s, step)
    ensures Reachable(After(s, step))
  {
    var states, steps :| Run(states, steps) && states[|steps|] == s;
    var states', steps' := states + [After(s, step)], steps + [step];
    forall i | 0 <= i < |steps'|
      ensures Enabled(states'[i], steps'[i]) && states'[i + 1] == After(states'[i], steps'[i]) {
      assert i < |steps| ==> states'[i] == states[i] && steps'[i] == steps[i] && states'[i + 1] == states[i + 1];
    }
    assert Run(states', steps') && states'[|steps'|] == After(s, step);
  }

  /** The state with this one connection. */
  function Only(c: Connection): State {
    State(0, 0, map[0 := c])
  }

  lemma PumpReaches(c: Connection, step: PumpStep)
    requires Reachable(Only(c)) && PumpEnabled(c, step) && step != ReleaseGlobal
    ensures Reachable(Only(AfterPump(c, step)))
  {
    ReachableStep(Only(c), PumpTurn(0, step));
    assert Only(c).connections[0 := AfterPump(c, step)] == Only(AfterPump(c, step)).connections;
  }

  lemma SenderReaches(c: Connection, step: SenderStep)
    requires Reachable(Only(c)) && SenderEnabled(c, 0, step) && step != ReserveGlobal && step != DropGlobalShare
    ensures Reachable(Only(AfterSender(c, 0, 0, 0, step)))
  {
    ReachableStep(Only(c), SenderTurn(0, 0, step));
    assert Only(c).connections[0 := AfterSender(c, 0, 0, 0, step)] == Only(AfterSender(c, 0, 0, 0, step)).connections;
  }

  /** A sender on a fresh connection, whose one byte exceeds the socket budget. */
  lemma RefusedSend() returns (c: Connection)
    ensures Reachable(Only(c))
    ensures c == Opened(0).(senders := map[0 := Sender(Frame("x", 1), Refused(SocketOverflow))], nextSender := 1)
  {
    var s := State(0, 0, map[]);
    var none: seq<Step> := [];
    assert Run([s], none) && [s][|none|] == s;
    ReachableStep(s, Open(0, 0));
    c := Opened(0);
    assert After(s, Open(0, 0)) == Only(c);
    ReachableStep(Only(c), StartSend(0, Frame("x", 1)));
    var c1 := c.(senders := map[0 := Sender(Frame("x", 1), Started)], nextSender := 1);
    assert After(Only(c), StartSend(0, Frame("x", 1))) == Only(c1);
    c := RefusedStart(c1);
  }

  lemma RefusedStart(c: Connection) returns (c': Connection)
    requires c == Opened(0).(senders := map[0 := Sender(Frame("x", 1), Started)], nextSender := 1) && Reachable(Only(c))
    ensures c' == c.(senders := map[0 := Sender(Frame("x", 1), Refused(SocketOverflow))]) && Reachable(Only(c'))
  {
    SenderReaches(c, LoadKilled);
    c' := AfterSender(c, 0, 0, 0, LoadKilled);
    SenderReaches(c', ReserveSocket);
    c' := AfterSender(c', 0, 0, 0, ReserveSocket);
  }

  /** A connected pump's control write times out. */
  lemma TimesOut(c: Connection) returns (c': Connection)
    requires Reachable(Only(c)) && c.pump == Turn && !c.killed
    ensures Reachable(Only(c')) && c' == c.(pump := CheckTimeout)
  {
    PumpReaches(c, TurnCheck);
    c' := AfterPump(c, TurnCheck);
    PumpReaches(c', ControlTimeout);
    c' := AfterPump(c', ControlTimeout);
  }

  /** Beside a refused send, the pump's control write times out. */
  lemma TimeoutBesideSend() returns (c: Connection)
    ensures Reachable(Only(c)) && c.pump == CheckTimeout && !c.killed && c.verdicts == []
    ensures c.senders == map[0 := Sender(Frame("x", 1), Refused(SocketOverflow))]
  {
    c := RefusedSend();
    PumpReaches(c, Connected(true));
    c := AfterPump(c, Connected(true));
    c := TimesOut(c);
  }

  /** Between the pump's look at the kill flag and its count a sender can count an overflow of its own. */
  lemma TwoVerdictsHappen() returns (c: Connection)
    ensures Reachable(Only(c)) && c.verdicts == [OverflowVerdict(SocketOverflow), TimeoutVerdict] && c.raced
  {
    c := TimeoutBesideSend();
    PumpReaches(c, TimeoutCheck);
    c := AfterPump(c, TimeoutCheck);
    SenderReaches(c, SwapKilled);
    c := AfterSender(c, 0, 0, 0, SwapKilled);
    SenderReaches(c, Record);
    c := AfterSender(c, 0, 0, 0, Record);
    PumpReaches(c, CountTimeout);
    c := AfterPump(c, CountTimeout);
  }
}
