/**
 Which state a connection is in next, exactly: for every state and every
 segment, timer and call, from what can be read off before it is processed.
 */
module Transitions {
  import opened SeqSpace
  import opened Connection
  import opened Sender
  import opened Receiver
  import opened Steps
  import opened TwoEndpoints
  import opened Window

  // ---------------------------------------------------------------- what a segment says

  /** Acknowledges all that was sent, the FIN included if there was one. */
  predicate AckOfAll(c: Conn, m: Segment) {
    m.flags.ack && m.ackNum == c.sndNxt
  }

  predicate FinInSequence(c: Conn, m: Segment) {
    m.flags.fin && m.seqNum == c.rcvNxt
  }

  /** How much the window lets through once `m` has been heard. */
  function RoomAfter(c: Conn, m: Segment): nat {
    var una := if m.flags.ack && m.ackNum > c.sndUna then m.ackNum else c.sndUna;
    var wnd := if m.flags.ack then m.window else c.sndWnd;
    if Off(una, c.sndNxt) < wnd then wnd - Off(una, c.sndNxt) else 0
  }

  /** A close was asked for, and the backlog goes out in full when `m` is heard. */
  predicate ClosesOn(c: Conn, m: Segment) {
    c.pendingClose && |c.pending| <= RoomAfter(c, m)
  }

  /** The state in which a segment leaves a connection. */
  function NextState(c: Conn, m: Segment): TcpState {
    if m.flags.rst then (if c.state == Listen then Listen else Closed) else
      match c.state
      case SynSent => if m.flags.syn && AckOfAll(c, m) then Established else SynSent
      case SynRcvd =>
        if !AckOfAll(c, m) then SynRcvd else if FinInSequence(c, m) then CloseWait else Established
      case Established =>
        if FinInSequence(c, m) then (if ClosesOn(c, m) then LastAck else CloseWait)
        else if ClosesOn(c, m) then FinWait1 else Established
      case CloseWait => if ClosesOn(c, m) then LastAck else CloseWait
      case FinWait1 =>
        if AckOfAll(c, m) then (if FinInSequence(c, m) then TimeWait else FinWait2)
        else if FinInSequence(c, m) then Closing else FinWait1
      case FinWait2 => if FinInSequence(c, m) then TimeWait else FinWait2
      case Closing => if AckOfAll(c, m) then TimeWait else Closing
      case LastAck => if AckOfAll(c, m) then Closed else LastAck
      case TimeWait => TimeWait
      case Closed => Closed
      case Listen => Listen
  }

  // ---------------------------------------------------------------- the flush

  /** The state a flush leaves, from the backlog and the room for it. */
  function FlushedState(s: TcpState, closing: bool, backlog: nat, room: nat): TcpState {
    if closing && backlog <= room && CanSend(s) then (if s == Established then FinWait1 else LastAck) else s
  }

  lemma FlushGoes(c: Conn, now: nat)
    ensures FlushSend(c, now).state == FlushedState(c.state, c.pendingClose, |c.pending|, Room(c))
  {
    if CanSend(c.state) {
      FinIffDrained(c, now);
      FlushLoopExact(ArmProbe(c, now), now);
      FlushLoopFrame(ArmProbe(c, now), now);
    }
  }

  lemma AckedRoom(c: Conn, m: Segment)
    ensures var c1 := ProcessAck(c, m);
      Room(c1) == RoomAfter(c, m) && c1.state == c.state && c1.pending == c.pending && c1.pendingClose == c.pendingClose
  {
    RemoveAckedFrame(c.(sndUna := m.ackNum), m.ackNum);
  }

  lemma TakenRoom(c: Conn, m: Segment)
    ensures var c2 := Taken(c, m);
      && Room(c2) == RoomAfter(c, m) && c2.pending == c.pending && c2.pendingClose == c.pendingClose
      && c2.state == if FinInSequence(c, m) then CloseWait else c.state
  {
    AckedRoom(c, m);
    ProcessAckFrame(c, m);
    AckThenReceiveFrame(c, m);
    AbsorbFrame(ProcessAck(c, m), m);
  }

  // ---------------------------------------------------------------- segments

  lemma SynSentGoes(c: Conn, m: Segment)
    ensures OnSynSent(c, m).state == if m.flags.syn && AckOfAll(c, m) then Established else c.state
  {
  }

  lemma SynRcvdGoes(c: Conn, m: Segment)
    ensures OnSynRcvd(c, m).state ==
      if !AckOfAll(c, m) then c.state else if FinInSequence(c, m) then CloseWait else Established
  {
    AcceptedFrame(c, m);
    ReceiveFrame(Accepted(c, m), m);
  }

  lemma EstablishedGoes(c: Conn, m: Segment, now: nat)
    requires c.state == Established
    ensures OnEstablished(c, m, now).state ==
      if FinInSequence(c, m) then (if ClosesOn(c, m) then LastAck else CloseWait)
      else if ClosesOn(c, m) then FinWait1 else Established
  {
    EstablishedIs(c, m, now);
    TakenRoom(c, m);
    FlushGoes(Taken(c, m), now);
  }

  lemma CloseWaitGoes(c: Conn, m: Segment, now: nat)
    requires c.state == CloseWait
    ensures FlushSend(ProcessAck(c, m), now).state == if ClosesOn(c, m) then LastAck else CloseWait
  {
    AckedRoom(c, m);
    FlushGoes(ProcessAck(c, m), now);
  }

  lemma FinWaitGoes(c: Conn, m: Segment, now: nat)
    ensures OnFinWait1(c, m, now).state ==
      if AckOfAll(c, m) then (if FinInSequence(c, m) then TimeWait else FinWait2)
      else if FinInSequence(c, m) then Closing else c.state
    ensures OnFinWait2(c, m, now).state == if FinInSequence(c, m) then TimeWait else c.state
  {
    AckThenReceiveFrame(c, m);
  }

  lemma ClosingGoes(c: Conn, m: Segment, now: nat)
    ensures OnClosing(c, m, now).state == if AckOfAll(c, m) then TimeWait else c.state
    ensures OnLastAck(c, m).state == if AckOfAll(c, m) then Closed else c.state
  {
    ProcessAckFrame(c, m);
  }

  /** For every state and every segment, the next state is the one the table gives, and no other. */
  lemma SegmentMoves(c: Conn, m: Segment, now: nat)
    ensures ProcessSegment(c, m, now).state == NextState(c, m)
  {
    if !m.flags.rst {
      match c.state {
        case SynSent => SynSentGoes(c, m);
        case SynRcvd => SynRcvdGoes(c, m);
        case Established => EstablishedGoes(c, m, now);
        case CloseWait => CloseWaitGoes(c, m, now);
        case FinWait1 => FinWaitGoes(c, m, now);
        case FinWait2 => FinWaitGoes(c, m, now);
        case TimeWait =>
        case Closed =>
        case Listen =>
        case _ => ClosingGoes(c, m, now);
      }
    }
  }

  // ---------------------------------------------------------------- timers and calls

  /** The front segment's timer has run out for the seventh time. */
  predicate Spent(c: Conn, now: nat) {
    c.queue != [] && c.queue[0].retryCount >= 6 && now >= c.queue[0].sentAt + c.queue[0].rto
  }

  /** What `send` has room for. */
  function Admitted(c: Conn, data: seq<Byte>): nat {
    if |c.pending| >= c.sendCap then 0
    else if |data| <= c.sendCap - |c.pending| then |data|
    else c.sendCap - |c.pending|
  }

  /** The state in which a timer or a call leaves a connection. */
  function CallState(c: Conn, ev: Event, now: nat): TcpState {
    match ev
    case Ticks =>
      if c.state == TimeWait then (if now >= c.timeWaitDeadline then Closed else TimeWait)
      else if Spent(c, now) then Closed
      else FlushedState(c.state, c.pendingClose, |c.pending|, Room(c))
    case Sends(data) => FlushedState(c.state, c.pendingClose, |c.pending| + Admitted(c, data), Room(c))
    case Closes =>
      if c.state == SynSent || c.state == Listen then Closed
      else FlushedState(c.state, true, |c.pending|, Room(c))
    case _ => c.state
  }

  lemma TickGoes(c: Conn, now: nat)
    ensures Tick(c, now).state == CallState(c, Ticks, now)
  {
    if c.state != TimeWait {
      TimersFrame(c, now);
      var c1 := Probe(c, now);
      ProbeIs(c, now);
      if !Spent(c, now) {
        TimersFrame(c1, now);
        FlushGoes(Retransmit(c1, now), now);
      }
    }
  }

  lemma SendGoes(c: Conn, data: seq<Byte>, now: nat)
    ensures Send(c, data, now).state == CallState(c, Sends(data), now)
  {
    FlushGoes(Backlogged(c, data[..Accepts(c, data)]), now);
  }

  lemma CloseGoes(c: Conn, now: nat)
    ensures Close(c, now).state == CallState(c, Closes, now)
  {
    FlushGoes(c.(pendingClose := true), now);
  }

  /** For every state, timer and call, the next state is the one the table gives, and no other. */
  lemma CallMoves(c: Conn, ev: Event, now: nat)
    ensures Act(c, ev, now).state == CallState(c, ev, now)
  {
    match ev {
      case Ticks => TickGoes(c, now);
      case Sends(data) => SendGoes(c, data, now);
      case Closes => CloseGoes(c, now);
      case Recvs(room) => RecvIs(c, room);
      case _ =>
    }
  }

  /** Where there is nothing to drain, `close` does nothing but that. */
  lemma CloseElsewhere(c: Conn, now: nat)
    requires !CanSend(c.state)
    ensures Close(c, now) == c.(state := if c.state == SynSent || c.state == Listen then Closed else c.state)
  {
  }

  // ---------------------------------------------------------------- the table entry

  /** An entry is removed by exactly the segment or the tick that closes its connection. */
  lemma ReapedIff(e: Endpoint, m: Segment, iss: U32, now: nat, peerSent: seq<Segment>)
    requires e.life == Alive
    ensures HandleSegment(e, m, iss, now).life == Reaped <==> NextState(e.conn, m) == Closed
    ensures Step(e, peerSent, Ticks, now).life == Reaped <==> CallState(e.conn, Ticks, now) == Closed
  {
    SegmentMoves(e.conn, m, now);
    TickGoes(e.conn, now);
  }
}
