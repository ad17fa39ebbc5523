/**
  How a connection comes down: what the kill flag stops and what it lets finish, that the pump stops for a
  reason only, and that a condemned connection is told so through its own queue.
 */
module OutboundTeardown {
  import opened Common
  import opened Outbound
  import OutboundTheorems

  // ----- What the kill flag stops -----

  /**
    What became of a connection that was killed as `was`: the pump turns to no new frame, only a frame it
    was writing can still be written, and senders that came later get nowhere.
   */
  ghost predicate Dying(was: Connection, c: Connection) {
    && c.killed && was.nextSender <= c.nextSender
    && (c.pump == Selecting ==> was.pump == Selecting)
    && (c.pump.Writing? ==> c.pump == was.pump && c.written == was.written)
    && (c.written == was.written || (was.pump.Writing? && c.written == was.written + [was.pump.frame]))
    && (forall id | id in c.senders && id >= was.nextSender :: c.senders[id].pc == Started)
  }

  lemma SenderKeepsDying(was: Connection, c: Connection, g: nat, globalLimit: nat, id: nat, step: SenderStep)
    requires Dying(was, c) && SenderEnabled(c, id, step)
    ensures Dying(was, AfterSender(c, g, globalLimit, id, step))
  {
  }

  lemma PumpKeepsDying(was: Connection, c: Connection, step: PumpStep)
    requires Dying(was, c) && PumpEnabled(c, step)
    ensures Dying(was, AfterPump(c, step))
  {
    assert step != EndWrite(Written) ==> AfterPump(c, step).written == c.written;
  }

  lemma StepKeepsDying(was: Connection, s: State, step: Step, k: nat)
    requires k in s.connections && Dying(was, s.connections[k]) && Enabled(s, step)
    ensures k in After(s, step).connections && Dying(was, After(s, step).connections[k])
  {
    if step.conn == k {
      match step
      case SenderTurn(_, id, sender) =>
        SenderKeepsDying(was, s.connections[k], s.globalQueued, s.globalLimit, id, sender);
      case PumpTurn(_, pump) => PumpKeepsDying(was, s.connections[k], pump);
      case StartSend(_, _) =>
    }
  }

  lemma RunKeepsDying(was: Connection, states: seq<State>, steps: seq<Step>, j: nat, k: nat)
    requires Run(states, steps) && j < |steps| && k in states[j].connections && Dying(was, states[j].connections[k])
    ensures k in states[j + 1].connections && Dying(was, states[j + 1].connections[k])
  {
    StepKeepsDying(was, states[j], steps[j], k);
  }

  /** From the moment the kill flag is set, and for ever. */
  lemma {:induction false} KilledIsDying(states: seq<State>, steps: seq<Step>, i: nat, j: nat, k: nat)
    requires Run(states, steps) && i <= j < |states| && k in states[i].connections && states[i].connections[k].killed
    ensures k in states[j].connections && Dying(states[i].connections[k], states[j].connections[k])
  {
    if i < j {
      KilledIsDying(states, steps, i, j - 1, k);
      RunKeepsDying(states[i].connections[k], states, steps, j - 1, k);
    } else {
      SendersNumbered(states, steps, i, k);
    }
  }

  lemma SendersNumbered(states: seq<State>, steps: seq<Step>, i: nat, k: nat)
    requires Run(states, steps) && i < |states| && k in states[i].connections
    ensures forall id | id in states[i].connections[k].senders :: id < states[i].connections[k].nextSender
  {
    OutboundTheorems.RunKeepsInv(states, steps, i);
    assert OutboundTheorems.Judged(states[i].connections[k]);
  }

  // ----- The pump stops for a reason -----

  /**
    The pump leaves its loop only for a kill flag, a marker taken from the queue, a peer that leaves, a
    counted timeout or a write that did not succeed; after a write that did, it goes on.
   */
  lemma StopsForReason(c: Connection, step: PumpStep)
    requires PumpEnabled(c, step)
    ensures AfterPump(c, step).pump == Stopping <==>
              || (c.killed && step in {TurnCheck, TimeoutCheck})
              || (step == Receive && c.queue[0] == OverflowItem)
              || step in {Leaves, CountTimeout}
              || (step == ReleaseGlobal && c.pump.GiveGlobal? && c.pump.end in {WriteFailed, Doomed})
    ensures step == ReleaseGlobal && c.pump.GiveGlobal? && c.pump.end == Written ==> AfterPump(c, step).pump == Turn
    ensures step == TurnCheck && !c.killed ==> AfterPump(c, step).pump == Selecting
    ensures step == PoppedCheck && !c.killed ==> AfterPump(c, step).pump == Writing(c.pump.frame)
  {
  }

  // ----- A condemned connection is told -----

  /** The sender that set the kill flag has still to put its marker into the queue. */
  predicate Telling(c: Connection) {
    && c.condemner.Some? && c.condemner.value in c.senders
    && (c.senders[c.condemner.value].pc.Recording? || c.senders[c.condemner.value].pc == Marking)
  }

  predicate StoppedOrClosed(c: Connection) {
    c.closed || c.pump == Stopping || c.pump == Closing
  }

  /** A pump past its loop has set the kill flag, and a condemned one finds, or has found, a marker. */
  ghost predicate Told(c: Connection) {
    && (forall id | id in c.senders :: id < c.nextSender)
    && (c.pump == Closing ==> c.killed)
    && (c.pump == Draining || c.pump.DrainSocket? || c.pump.DrainGlobal? || c.pump == Gone ==> c.closed)
    && (c.condemner.Some? ==>
          c.condemner.value < c.nextSender && c.killed && (Telling(c) || OverflowItem in c.queue || StoppedOrClosed(c)))
  }

  lemma SenderKeepsTold(c: Connection, g: nat, globalLimit: nat, id: nat, step: SenderStep)
    requires Told(c) && SenderEnabled(c, id, step)
    ensures Told(AfterSender(c, g, globalLimit, id, step))
  {
    var c' := AfterSender(c, g, globalLimit, id, step);
    if step == PushMarker && !c.closed {
      assert c'.queue[|c.queue|] == OverflowItem;
    }
    if OverflowItem in c.queue {
      var i :| 0 <= i < |c.queue| && c.queue[i] == OverflowItem;
      assert c'.queue[i] == OverflowItem;
    }
  }

  lemma PumpKeepsTold(c: Connection, step: PumpStep)
    requires Told(c) && PumpEnabled(c, step)
    ensures Told(AfterPump(c, step))
  {
    if OverflowItem in c.queue && Takes(c, step) {
      assert c.queue == [c.queue[0]] + c.queue[1..];
    }
  }

  lemma StepKeepsTold(s: State, step: Step, k: nat)
    requires k in s.connections ==> Told(s.connections[k])
    requires Enabled(s, step) && k in After(s, step).connections
    ensures Told(After(s, step).connections[k])
  {
    if step.conn == k {
      match step
      case Open(_, _) =>
      case SenderTurn(_, id, sender) => SenderKeepsTold(s.connections[k], s.globalQueued, s.globalLimit, id, sender);
      case PumpTurn(_, pump) => PumpKeepsTold(s.connections[k], pump);
      case StartSend(_, frame) => NewSenderKeepsTold(s.connections[k], frame);
    }
  }

  lemma NewSenderKeepsTold(c: Connection, frame: Frame)
    requires Told(c)
    ensures Told(c.(senders := c.senders[c.nextSender := Sender(frame, Started)], nextSender := c.nextSender + 1))
  {
  }

  /** In every state of every run. */
  lemma {:induction false} CondemnedIsTold(states: seq<State>, steps: seq<Step>, i: nat, k: nat)
    requires Run(states, steps) && i < |states| && k in states[i].connections
    ensures Told(states[i].connections[k])
  {
    if i > 0 {
      if k in states[i - 1].connections {
        CondemnedIsTold(states, steps, i - 1, k);
      }
      StepKeepsTold(states[i - 1], steps[i - 1], k);
    }
  }
}
