/** What a step of an endpoint adds to the log of segments it has sent. */
module Logs {
  import opened SeqSpace
  import opened Connection
  import opened Sender
  import opened Receiver
  import opened Steps
  import opened TwoEndpoints

  predicate IsAck(m: Segment) {
    m.flags.ack && !m.flags.rst
  }

  /** An acknowledgement that tells the position and the window of `x`. */
  ghost predicate Tells(x: Conn, m: Segment) {
    m.ackNum == x.rcvNxt && m.window == AdvertiseWindow(x)
  }

  /** The log has only grown, and every new acknowledgement tells where the receiver is after the step. */
  ghost predicate NewAcks(x: Conn, x': Conn) {
    && x.h.sent <= x'.h.sent
    && forall i :: |x.h.sent| <= i < |x'.h.sent| && IsAck(x'.h.sent[i]) ==> Tells(x', x'.h.sent[i])
  }

  /** All that an acknowledgement tells. */
  predicate SamePosition(x: Conn, x': Conn) {
    x'.rcvNxt == x.rcvNxt && x'.recvBuf == x.recvBuf && x'.ooo == x.ooo && x'.recvCap == x.recvCap
  }

  lemma ThenAcks(x: Conn, x1: Conn, x2: Conn)
    requires NewAcks(x, x1) && NewAcks(x1, x2) && (SamePosition(x1, x2) || x1.h.sent == x.h.sent)
    ensures NewAcks(x, x2)
  {
    forall i | |x.h.sent| <= i < |x2.h.sent| && IsAck(x2.h.sent[i])
      ensures Tells(x2, x2.h.sent[i])
    {
      if i < |x1.h.sent| {
        assert x2.h.sent[i] == x1.h.sent[i] && Tells(x1, x1.h.sent[i]);
      }
    }
  }

  lemma {:induction false} FlushLoopAcks(x: Conn, now: nat)
    ensures NewAcks(x, FlushLoop(x, now)) && SamePosition(x, FlushLoop(x, now))
    decreases |x.pending|
  {
    if x.pending != [] && Off(x.sndUna, x.sndNxt) < x.sndWnd {
      var x1 := SendChunk(x, now);
      assert NewAcks(x, x1);
      FlushLoopAcks(x1, now);
      ThenAcks(x, x1, FlushLoop(x, now));
    }
  }

  lemma FlushAcks(x: Conn, now: nat)
    ensures NewAcks(x, FlushSend(x, now)) && SamePosition(x, FlushSend(x, now))
  {
    if CanSend(x.state) {
      var x0, x1 := ArmProbe(x, now), Drain(x, now);
      ArmIs(x, now);
      FlushLoopAcks(x0, now);
      assert NewAcks(x, x1);
      if x1.pendingClose && x1.pending == [] {
        assert NewAcks(x1, SendFin(x1, now));
        ThenAcks(x, x1, SendFin(x1, now));
      }
    }
  }

  lemma ProcessAckLogsNothing(x: Conn, m: Segment)
    ensures ProcessAck(x, m).h.sent == x.h.sent && ProcessAck(x, m).rcvNxt == x.rcvNxt
  {
    RemoveAckedFrame(x.(sndUna := m.ackNum), m.ackNum);
  }

  /** A change of label is not on the link. */
  lemma RelabelAcks(x: Conn, x1: Conn, x': Conn)
    requires NewAcks(x, x1) && x'.h.sent == x1.h.sent && SamePosition(x1, x')
    ensures NewAcks(x, x')
  {
    forall i | |x.h.sent| <= i < |x'.h.sent| && IsAck(x'.h.sent[i])
      ensures Tells(x', x'.h.sent[i])
    {
      assert Tells(x1, x1.h.sent[i]);
    }
  }

  lemma AckOnlyAcks(x: Conn, x1: Conn)
    requires x1.h.sent == x.h.sent
    ensures NewAcks(x, SendAckOnly(x1)) && NewAcks(x, x1)
  {
    assert Tells(SendAckOnly(x1), SendAckOnly(x1).h.sent[|x.h.sent|]);
  }

  lemma ReceiveNewAcks(x: Conn, m: Segment)
    ensures NewAcks(x, Receive(x, m))
  {
    AbsorbFrame(x, m);
    AckOnlyAcks(x, Absorb(x, m));
  }

  lemma AckThenReceiveAcks(x: Conn, m: Segment)
    ensures NewAcks(x, AckThenReceive(x, m)) && NewAcks(x, ProcessAck(x, m))
  {
    ProcessAckLogsNothing(x, m);
    ReceiveNewAcks(ProcessAck(x, m), m);
  }

  lemma SynSentAcks(x: Conn, m: Segment)
    ensures NewAcks(x, OnSynSent(x, m))
  {
    OpenedFrame(x, m);
    AckOnlyAcks(x, Opened(x, m));
  }

  lemma SynRcvdAcks(x: Conn, m: Segment)
    ensures NewAcks(x, OnSynRcvd(x, m))
  {
    var x1 := Accepted(x, m);
    AcceptedFrame(x, m);
    ReceiveNewAcks(x1, m);
    if AcksAll(x, m) && (m.data != [] || m.flags.fin) {
      RelabelAcks(x, Receive(x1, m), OnSynRcvd(x, m));
    }
  }

  lemma SendingAcks(x: Conn, m: Segment, now: nat)
    ensures NewAcks(x, OnEstablished(x, m, now)) && NewAcks(x, FlushSend(ProcessAck(x, m), now))
  {
    AckThenReceiveAcks(x, m);
    EstablishedIs(x, m, now);
    RelabelAcks(x, AckThenReceive(x, m), Taken(x, m));
    FlushAcks(Taken(x, m), now);
    ThenAcks(x, Taken(x, m), FlushSend(Taken(x, m), now));
    ProcessAckLogsNothing(x, m);
    FlushAcks(ProcessAck(x, m), now);
  }

  lemma FinWaitAcks(x: Conn, m: Segment, now: nat)
    ensures NewAcks(x, OnFinWait1(x, m, now)) && NewAcks(x, OnFinWait2(x, m, now))
  {
    AckThenReceiveAcks(x, m);
    FinWaitIs(x, m, now);
    RelabelAcks(x, AckThenReceive(x, m), OnFinWait1(x, m, now));
    RelabelAcks(x, AckThenReceive(x, m), OnFinWait2(x, m, now));
  }

  lemma ClosingAcks(x: Conn, m: Segment, now: nat)
    ensures NewAcks(x, OnClosing(x, m, now)) && NewAcks(x, OnLastAck(x, m)) && NewAcks(x, OnTimeWait(x, m, now))
  {
    ProcessAckLogsNothing(x, m);
    ClosingIs(x, m, now);
    AckOnlyAcks(x, x);
    RelabelAcks(x, SendAckOnly(x), SendAckOnly(x).(timeWaitDeadline := now + TIME_WAIT_DURATION));
  }

  lemma SegmentAcks(x: Conn, m: Segment, now: nat)
    ensures NewAcks(x, ProcessSegment(x, m, now))
  {
    if !m.flags.rst {
      match x.state {
        case SynSent => SynSentAcks(x, m);
        case SynRcvd => SynRcvdAcks(x, m);
        case Established => SendingAcks(x, m, now);
        case CloseWait => SendingAcks(x, m, now);
        case FinWait1 => FinWaitAcks(x, m, now);
        case FinWait2 => FinWaitAcks(x, m, now);
        case Closed =>
        case Listen =>
        case _ => ClosingAcks(x, m, now);
      }
    }
  }

  lemma TimerAcks(x: Conn, now: nat)
    ensures NewAcks(x, Probe(x, now)) && NewAcks(x, Retransmit(x, now))
    ensures SamePosition(x, Probe(x, now)) && SamePosition(x, Retransmit(x, now))
  {
    ProbeIs(x, now);
    RetransmitIs(x, now);
  }

  lemma TickAcks(x: Conn, now: nat)
    ensures NewAcks(x, Tick(x, now))
  {
    var x1 := Probe(x, now);
    TimerAcks(x, now);
    if x.state != TimeWait && !GivesUp(x1, now) {
      var x2 := Retransmit(x1, now);
      TimerAcks(x1, now);
      ThenAcks(x, x1, x2);
      FlushAcks(x2, now);
      ThenAcks(x, x2, FlushSend(x2, now));
    }
  }

  lemma ActAcks(x: Conn, ev: Event, now: nat)
    ensures NewAcks(x, Act(x, ev, now))
  {
    match ev {
      case Ticks => TickAcks(x, now);
      case Sends(data) => FlushAcks(Backlogged(x, data[..Accepts(x, data)]), now);
      case Recvs(room) => RecvIs(x, room);
      case Closes => FlushAcks(x.(pendingClose := true), now);
      case _ =>
    }
  }

  lemma StepAcks(e: Endpoint, peerSent: seq<Segment>, ev: Event, now: nat)
    requires e.life != Listening
    ensures NewAcks(e.conn, Step(e, peerSent, ev, now).conn)
  {
    if ev.Deliver? {
      if ev.i < |peerSent| {
        SegmentAcks(e.conn, peerSent[ev.i], now);
      }
    } else {
      ActAcks(e.conn, ev, now);
    }
  }
}
