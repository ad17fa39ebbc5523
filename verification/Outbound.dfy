/**
  Outbound byte accounting of the bounded WebSocket pump. Any number of senders and one pump per
  connection share a per-socket and a process-wide byte budget; every atomic operation of them is
  one step, and every interleaving of the steps over any number of connections is a run.
 */
module Outbound {
  import opened Common

  // ----- One budget -----

  /** `checked_add` against the limit; `None` is a refusal that changes nothing. */
  function Reserve(queued: nat, limit: nat, bytes: usize): (r: Option<nat>)
    ensures r.Some? <==> queued + bytes <= limit && queued + bytes <= USIZE_MAX
    ensures r.Some? ==> r.value == queued + bytes
  {
    if queued + bytes <= USIZE_MAX && queued + bytes <= limit then Some(queued + bytes) else None
  }

  type usize = n: nat | n <= USIZE_MAX

  /** `fetch_sub` wraps around below zero. */
  function Release(queued: nat, bytes: usize): nat {
    if bytes <= queued then queued - bytes else queued + USIZE_MAX + 1 - bytes
  }

  class OutboundByteBudget {
    const limitBytes: nat
    var queuedBytes: nat

    constructor (limitBytes: nat)
      ensures this.limitBytes == limitBytes && queuedBytes == 0
    {
      this.limitBytes, queuedBytes := limitBytes, 0;
    }

    method TryReserve(bytes: usize) returns (granted: bool)
      modifies this
      ensures granted <==> old(queuedBytes) + bytes <= limitBytes && old(queuedBytes) + bytes <= USIZE_MAX
      ensures queuedBytes == old(queuedBytes) + if granted then bytes else 0
      ensures granted ==> queuedBytes <= limitBytes
    {
      var next := queuedBytes + bytes;
      granted := next <= USIZE_MAX && next <= limitBytes;
      if granted {
        queuedBytes := next;
      }
    }

    method Drop(bytes: usize)
      modifies this
      ensures bytes <= old(queuedBytes) ==> queuedBytes == old(queuedBytes) - bytes
      ensures bytes > old(queuedBytes) ==> queuedBytes == old(queuedBytes) + 0x1_0000_0000_0000_0000 - bytes
    {
      queuedBytes := Release(queuedBytes, bytes);
    }
  }

  /** Reserves in both budgets or in neither; the error names the budget that refused. */
  method AccountFrame(bytes: usize, socket: OutboundByteBudget, global: OutboundByteBudget)
    returns (r: Result<(), Overflow>)
    requires socket != global
    modifies socket, global
    ensures r.Ok? ==> socket.queuedBytes == old(socket.queuedBytes) + bytes
    ensures r.Ok? ==> global.queuedBytes == old(global.queuedBytes) + bytes
    ensures r.Ok? ==> socket.queuedBytes <= socket.limitBytes && global.queuedBytes <= global.limitBytes
    ensures r.Err? ==> socket.queuedBytes == old(socket.queuedBytes) && global.queuedBytes == old(global.queuedBytes)
    ensures r == Err(SocketOverflow) <==>
              old(socket.queuedBytes) + bytes > socket.limitBytes || old(socket.queuedBytes) + bytes > USIZE_MAX
    ensures r == Err(GlobalOverflow) <==>
              && old(socket.queuedBytes) + bytes <= socket.limitBytes && old(socket.queuedBytes) + bytes <= USIZE_MAX
              && (old(global.queuedBytes) + bytes > global.limitBytes || old(global.queuedBytes) + bytes > USIZE_MAX)
  {
    var granted := socket.TryReserve(bytes);
    if !granted {
      return Err(SocketOverflow);
    }
    granted := global.TryReserve(bytes);
    if !granted {
      socket.Drop(bytes);
      return Err(GlobalOverflow);
    }
    r := Ok(());
  }

  // ----- One connection -----

  datatype Overflow = SocketOverflow | GlobalOverflow

  datatype Verdict = OverflowVerdict(overflow: Overflow) | TimeoutVerdict

  datatype Frame = Frame(text: string, bytes: usize)

  datatype Item = FrameItem(frame: Frame) | OverflowItem

  datatype SenderPc =
    | Started
    | Admitted
    | HoldsSocket
    | HoldsBoth
    | GlobalRefused // still holding its socket share
    | Refused(overflow: Overflow)
    | Undelivered // the channel was closed; both shares still held
    | UndeliveredGlobal
    | Recording(verdict: Overflow)
    | Marking

  datatype Sender = Sender(frame: Frame, pc: SenderPc)

  datatype WriteEnd = Written | WriteFailed | WriteTimedOut | Doomed

  datatype PumpPc =
    | Connecting
    | Turn
    | Selecting
    | Popped(frame: Frame)
    | Writing(frame: Frame)
    | GiveSocket(frame: Frame, end: WriteEnd)
    | GiveGlobal(frame: Frame, end: WriteEnd)
    | CheckTimeout
    | RecordTimeout
    | Stopping
    | Closing
    | Draining
    | DrainSocket(frame: Frame)
    | DrainGlobal(frame: Frame)
    | Gone

  /**
    `accepted`, `popped`, `written`, `verdicts`, `condemner` and `raced` are history variables: what was
    enqueued, taken and written in order, what was counted, which sender first set the kill flag, and
    whether it did so after the pump had decided to count a write timeout.
   */
  datatype Connection = Connection(
    limit: nat,
    queued: nat,
    killed: bool,
    closed: bool,
    queue: seq<Item>,
    senders: map<nat, Sender>,
    nextSender: nat,
    pump: PumpPc,
    accepted: seq<Frame>,
    popped: seq<Frame>,
    written: seq<Frame>,
    verdicts: seq<Verdict>,
    condemner: Option<nat>,
    raced: bool)

  function Opened(limit: nat): Connection {
    Connection(limit, 0, false, false, [], map[], 0, Connecting, [], [], [], [], None, false)
  }

  // ----- Senders -----

  datatype SenderStep =
    | LoadKilled
    | ReserveSocket
    | ReserveGlobal
    | ReturnSocket
    | Enqueue
    | DropSocketShare
    | DropGlobalShare
    | SwapKilled
    | Record
    | PushMarker

  predicate SenderEnabled(c: Connection, id: nat, step: SenderStep) {
    && id in c.senders
    && var pc := c.senders[id].pc;
       match step {
         case LoadKilled => pc == Started
         case ReserveSocket => pc == Admitted
         case ReserveGlobal => pc == HoldsSocket
         case ReturnSocket => pc == GlobalRefused
         case Enqueue => pc == HoldsBoth
         case DropSocketShare => pc == Undelivered
         case DropGlobalShare => pc == UndeliveredGlobal
         case SwapKilled => pc.Refused?
         case Record => pc.Recording?
         case PushMarker => pc == Marking
       }
  }

  /** Where a sender goes next; `None` when its call returns. */
  function SenderNext(c: Connection, g: nat, globalLimit: nat, x: Sender, step: SenderStep): Option<SenderPc> {
    match step
    case LoadKilled => if c.killed then None else Some(Admitted)
    case ReserveSocket => Some(if Reserve(c.queued, c.limit, x.frame.bytes).Some? then HoldsSocket
        else Refused(SocketOverflow))
    case ReserveGlobal => Some(if Reserve(g, globalLimit, x.frame.bytes).Some? then HoldsBoth else GlobalRefused)
    case ReturnSocket => Some(Refused(GlobalOverflow))
    case Enqueue => if c.closed then Some(Undelivered) else None
    case DropSocketShare => Some(UndeliveredGlobal)
    case DropGlobalShare => None
    case SwapKilled => if c.killed || !x.pc.Refused? then None else Some(Recording(x.pc.overflow))
    case Record => Some(Marking)
    case PushMarker => None
  }

  /** The socket counter after a sender's step. */
  function SocketAfter(c: Connection, x: Sender, step: SenderStep): nat {
    match step
    case ReserveSocket => (
      match Reserve(c.queued, c.limit, x.frame.bytes) case Some(next) => next case None => c.queued)
    case ReturnSocket => Release(c.queued, x.frame.bytes)
    case DropSocketShare => Release(c.queued, x.frame.bytes)
    case _ => c.queued
  }

  /** The process-wide counter after a sender's step. */
  function GlobalAfter(g: nat, globalLimit: nat, x: Sender, step: SenderStep): nat {
    match step
    case ReserveGlobal => (match Reserve(g, globalLimit, x.frame.bytes) case Some(next) => next case None => g)
    case DropGlobalShare => Release(g, x.frame.bytes)
    case _ => g
  }

  /** What a sender's step pushes into the channel, unless it is closed. */
  function Pushed(c: Connection, x: Sender, step: SenderStep): seq<Item> {
    if c.closed then [] else match step
      case Enqueue => [FrameItem(x.frame)]
      case PushMarker => [OverflowItem]
      case _ => []
  }

  /** The pump has seen the connection alive after a write timeout and counts, or has counted, it. */
  predicate CountsTimeout(c: Connection) {
    c.pump == RecordTimeout || TimeoutVerdict in c.verdicts
  }

  /** The swap that finds the kill flag unset. */
  predicate Condemns(c: Connection, step: SenderStep) {
    step == SwapKilled && !c.killed
  }

  /** One atomic operation of one sender on its connection. */
  function AfterSender(c: Connection, g: nat, globalLimit: nat, id: nat, step: SenderStep): Connection
    requires SenderEnabled(c, id, step)
  {
    var x := c.senders[id];
    var next := SenderNext(c, g, globalLimit, x, step);
    c.(senders := if next.Some? then c.senders[id := x.(pc := next.value)] else c.senders - {id},
       queued := SocketAfter(c, x, step),
       queue := c.queue + Pushed(c, x, step),
       accepted := c.accepted + if step == Enqueue && !c.closed then [x.frame] else [],
       killed := c.killed || step == SwapKilled,
       condemner := if Condemns(c, step) then Some(id) else c.condemner,
       raced := if Condemns(c, step) then CountsTimeout(c) else c.raced,
       verdicts := c.verdicts + if step == Record then [OverflowVerdict(x.pc.verdict)] else [])
  }

  // ----- The pump -----

  datatype PumpStep =
    | Connected(ok: bool)
    | TurnCheck
    | Receive
    | OtherTurn
    | Leaves
    | ControlTimeout
    | PoppedCheck
    | EndWrite(end: WriteEnd)
    | ReleaseSocket
    | ReleaseGlobal
    | TimeoutCheck
    | CountTimeout
    | Kill
    | Close
    | Drain

  predicate PumpEnabled(c: Connection, step: PumpStep) {
    match step
    case Connected(_) => c.pump == Connecting
    case TurnCheck => c.pump == Turn
    case Receive => c.pump == Selecting && c.queue != []
    case OtherTurn => c.pump == Selecting
    case Leaves => c.pump == Selecting
    case ControlTimeout => c.pump == Selecting
    case PoppedCheck => c.pump.Popped?
    case EndWrite(end) => c.pump.Writing? && end != Doomed
    case ReleaseSocket => c.pump.GiveSocket? || c.pump.DrainSocket?
    case ReleaseGlobal => c.pump.GiveGlobal? || c.pump.DrainGlobal?
    case TimeoutCheck => c.pump == CheckTimeout
    case CountTimeout => c.pump == RecordTimeout
    case Kill => c.pump == Stopping
    case Close => c.pump == Closing
    case Drain => c.pump == Draining
  }

  function AfterWrite(end: WriteEnd): PumpPc {
    match end
    case Written => Turn
    case WriteTimedOut => CheckTimeout
    case _ => Stopping
  }

  function PumpNext(c: Connection, step: PumpStep): PumpPc
    requires PumpEnabled(c, step)
  {
    match step
    case Connected(ok) => if ok then Turn else Draining
    case TurnCheck => if c.killed then Stopping else Selecting
    case Receive => if c.queue[0].FrameItem? then Popped(c.queue[0].frame) else Stopping
    case OtherTurn => Turn
    case Leaves => Stopping
    case ControlTimeout => CheckTimeout
    case PoppedCheck => if c.killed then GiveSocket(c.pump.frame, Doomed) else Writing(c.pump.frame)
    case EndWrite(end) => GiveSocket(c.pump.frame, end)
    case ReleaseSocket => if c.pump.GiveSocket? then GiveGlobal(c.pump.frame, c.pump.end) else DrainGlobal(c.pump.frame)
    case ReleaseGlobal => if c.pump.GiveGlobal? then AfterWrite(c.pump.end) else Draining
    case TimeoutCheck => if c.killed then Stopping else RecordTimeout
    case CountTimeout => Stopping
    case Kill => Closing
    case Close => Draining
    case Drain =>
      if c.queue == [] then Gone else if c.queue[0].FrameItem? then DrainSocket(c.queue[0].frame) else Draining
  }

  predicate Takes(c: Connection, step: PumpStep) {
    (step == Receive || step == Drain) && c.queue != []
  }

  function TakenFrames(c: Connection, step: PumpStep): seq<Frame> {
    if Takes(c, step) && c.queue[0].FrameItem? then [c.queue[0].frame] else []
  }

  /** One step of the pump on its connection. */
  function AfterPump(c: Connection, step: PumpStep): Connection
    requires PumpEnabled(c, step)
  {
    c.(pump := PumpNext(c, step),
       killed := c.killed || step == Kill,
       closed := c.closed || step == Close || step == Connected(false),
       queue := if Takes(c, step) then c.queue[1..] else c.queue,
       popped := c.popped + TakenFrames(c, step),
       written := c.written + if step == EndWrite(Written) then [c.pump.frame] else [],
       queued := if step == ReleaseSocket then Release(c.queued, c.pump.frame.bytes) else c.queued,
       verdicts := c.verdicts + if step == CountTimeout then [TimeoutVerdict] else [])
  }

  function GlobalAfterPump(c: Connection, g: nat, step: PumpStep): nat
    requires PumpEnabled(c, step)
  {
    if step == ReleaseGlobal then Release(g, c.pump.frame.bytes) else g
  }

  // ----- All connections -----

  datatype State = State(globalLimit: nat, globalQueued: nat, connections: map<nat, Connection>)

  datatype Step =
    | Open(conn: nat, limit: nat)
    | StartSend(conn: nat, frame: Frame)
    | SenderTurn(conn: nat, id: nat, sender: SenderStep)
    | PumpTurn(conn: nat, pump: PumpStep)

  predicate Enabled(s: State, step: Step) {
    if step.Open? then step.conn !in s.connections
    else step.conn in s.connections &&
         (step.SenderTurn? ==> SenderEnabled(s.connections[step.conn], step.id, step.sender)) &&
         (step.PumpTurn? ==> PumpEnabled(s.connections[step.conn], step.pump))
  }

  /** What a step makes of its connection. */
  function ConnectionAfter(s: State, step: Step): Connection
    requires Enabled(s, step)
  {
    match step
    case Open(_, limit) => Opened(limit)
    case StartSend(conn, frame) =>
      var c := s.connections[conn];
      c.(senders := c.senders[c.nextSender := Sender(frame, Started)], nextSender := c.nextSender + 1)
    case SenderTurn(conn, id, sender) => AfterSender(s.connections[conn], s.globalQueued, s.globalLimit, id, sender)
    case PumpTurn(conn, pump) => AfterPump(s.connections[conn], pump)
  }

  /** What a step makes of the process-wide counter. */
  function CounterAfter(s: State, step: Step): nat
    requires Enabled(s, step)
  {
    match step
    case Open(_, _) => s.globalQueued
    case StartSend(_, _) => s.globalQueued
    case SenderTurn(conn, id, sender) => GlobalAfter(s.globalQueued, s.globalLimit, s.connections[conn].senders[id],
        sender)
    case PumpTurn(conn, pump) => GlobalAfterPump(s.connections[conn], s.globalQueued, pump)
  }

  function After(s: State, step: Step): State
    requires Enabled(s, step)
  {
    s.(globalQueued := CounterAfter(s, step), connections := s.connections[step.conn := ConnectionAfter(s, step)])
  }

  ghost predicate Init(s: State) {
    s.globalQueued == 0 && s.connections == map[]
  }

  ghost predicate Run(states: seq<State>, steps: seq<Step>) {
    && |states| == |steps| + 1
    && Init(states[0])
    && forall i | 0 <= i < |steps| :: Enabled(states[i], steps[i]) && states[i + 1] == After(states[i], steps[i])
  }
}
