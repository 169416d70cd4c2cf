/** What can be on the link at all: in every run each segment has one of seven forms. */
module Shapes {
  import opened SeqSpace
  import opened Connection
  import opened Sender
  import opened Receiver
  import opened Steps
  import opened TwoEndpoints
  import opened Wire

  /** SYN, SYN|ACK, FIN|ACK, ACK and PSH|ACK, by the byte they have on the wire.  Only the last carries data. */
  predicate Proper(flags: Flags, data: seq<Byte>) {
    && FlagByte(flags) in {0x02, 0x12, 0x11, 0x10, 0x18}
    && (FlagByte(flags) == 0x18 <==> data != []) && |data| <= 1400
  }

  /** A refusal, RST or RST|ACK; a probe, a single byte with a bare ACK; or one of the proper forms. */
  predicate Formed(m: Segment) {
    && (!m.flags.ack ==> m.ackNum == 0)
    && (|| Proper(m.flags, m.data)
        || (FlagByte(m.flags) == 0x10 && m.data == [0])
        || (FlagByte(m.flags) in {0x04, 0x14} && m.data == [] && m.window == 0))
  }

  ghost predicate Forms(c: Conn) {
    && (forall m :: m in c.h.sent ==> Formed(m))
    && (forall u :: u in c.queue ==> Proper(u.flags, u.data))
  }

  // ---------------------------------------------------------------- each operation

  lemma SameForms(x: Conn, x': Conn)
    requires Forms(x) && x'.queue == x.queue && x'.h.sent == x.h.sent
    ensures Forms(x')
  {
  }

  lemma QueueForms(c: Conn, flags: Flags, data: seq<Byte>, now: nat)
    requires Forms(c) && Proper(flags, data)
    ensures Forms(QueueAndSend(c, flags, data, now))
  {
  }

  lemma {:induction false} FlushLoopForms(c: Conn, now: nat)
    requires Forms(c)
    ensures Forms(FlushLoop(c, now))
    decreases |c.pending|
  {
    if c.pending != [] && Off(c.sndUna, c.sndNxt) < c.sndWnd {
      var n := Min(MSS, Min(c.sndWnd - Off(c.sndUna, c.sndNxt), |c.pending|));
      QueueForms(c, PSH_ACK, c.pending[..n], now);
      SameForms(QueueAndSend(c, PSH_ACK, c.pending[..n], now), SendChunk(c, now));
      FlushLoopForms(SendChunk(c, now), now);
    }
  }

  lemma FlushForms(c: Conn, now: nat)
    requires Forms(c)
    ensures Forms(FlushSend(c, now))
  {
    if CanSend(c.state) {
      ArmIs(c, now);
      SameForms(c, ArmProbe(c, now));
      FlushLoopForms(ArmProbe(c, now), now);
      var c1 := Drain(c, now);
      QueueForms(c1, FIN_ACK, [], now);
      SameForms(QueueAndSend(c1, FIN_ACK, [], now), SendFin(c1, now));
    }
  }

  lemma {:induction false} RemoveAckedForms(c: Conn, una: U32)
    requires Forms(c)
    ensures Forms(RemoveAcked(c, una))
    decreases |c.queue|
  {
    if c.queue != [] && End(c.queue[0]) <= una {
      RemoveAckedForms(PopFront(c), una);
    }
  }

  lemma ProcessAckForms(c: Conn, m: Segment)
    requires Forms(c)
    ensures Forms(ProcessAck(c, m))
  {
    if m.flags.ack {
      ProcessAckIs(c, m);
      RemoveAckedForms(c.(sndUna := m.ackNum), m.ackNum);
      SameForms(TakeAck(c, m.ackNum), ProcessAck(c, m));
    }
  }

  lemma AckOnlyForms(c: Conn)
    requires Forms(c)
    ensures Forms(SendAckOnly(c))
  {
  }

  lemma AckThenReceiveForms(c: Conn, m: Segment)
    requires Forms(c)
    ensures Forms(Receive(c, m)) && Forms(ProcessAck(c, m)) && Forms(AckThenReceive(c, m))
  {
    ProcessAckForms(c, m);
    AbsorbFrame(c, m);
    AckOnlyForms(Absorb(c, m));
    var c1 := ProcessAck(c, m);
    AbsorbFrame(c1, m);
    AckOnlyForms(Absorb(c1, m));
  }

  lemma HandshakeForms(c: Conn, m: Segment)
    requires Forms(c)
    ensures Forms(OnSynSent(c, m)) && Forms(OnSynRcvd(c, m))
  {
    RemoveAckedForms(LearnPeer(c, m), m.ackNum);
    SameForms(RemoveAcked(LearnPeer(c, m), m.ackNum), Opened(c, m));
    AckOnlyForms(Opened(c, m));
    RemoveAckedForms(c.(sndUna := m.ackNum), m.ackNum);
    SameForms(RemoveAcked(c.(sndUna := m.ackNum), m.ackNum), Accepted(c, m));
    AckThenReceiveForms(Accepted(c, m), m);
  }

  lemma SendingForms(c: Conn, m: Segment, now: nat)
    requires Forms(c)
    ensures Forms(OnEstablished(c, m, now)) && Forms(FlushSend(ProcessAck(c, m), now))
  {
    AckThenReceiveForms(c, m);
    EstablishedIs(c, m, now);
    SameForms(AckThenReceive(c, m), Taken(c, m));
    FlushForms(Taken(c, m), now);
    FlushForms(ProcessAck(c, m), now);
  }

  lemma ClosingForms(c: Conn, m: Segment, now: nat)
    requires Forms(c)
    ensures Forms(OnFinWait1(c, m, now)) && Forms(OnFinWait2(c, m, now))
    ensures Forms(OnClosing(c, m, now)) && Forms(OnLastAck(c, m)) && Forms(OnTimeWait(c, m, now))
  {
    AckThenReceiveForms(c, m);
    FinWaitIs(c, m, now);
    ClosingIs(c, m, now);
    AckOnlyForms(c);
  }

  lemma SegmentForms(c: Conn, m: Segment, now: nat)
    requires Forms(c)
    ensures Forms(ProcessSegment(c, m, now))
  {
    if !m.flags.rst {
      match c.state {
        case SynSent => HandshakeForms(c, m);
        case SynRcvd => HandshakeForms(c, m);
        case Established => SendingForms(c, m, now);
        case CloseWait => SendingForms(c, m, now);
        case Closed =>
        case Listen =>
        case _ => ClosingForms(c, m, now);
      }
    }
  }

  lemma TimerForms(c: Conn, now: nat)
    requires Forms(c)
    ensures Forms(Probe(c, now)) && Forms(Retransmit(c, now))
  {
    ProbeIs(c, now);
    RetransmitIs(c, now);
  }

  lemma TickForms(c: Conn, now: nat)
    requires Forms(c)
    ensures Forms(Tick(c, now))
  {
    var c1 := Probe(c, now);
    TimerForms(c, now);
    TimerForms(c1, now);
    FlushForms(Retransmit(c1, now), now);
  }

  lemma ActForms(c: Conn, ev: Event, now: nat)
    requires Forms(c)
    ensures Forms(Act(c, ev, now))
  {
    match ev {
      case Ticks => TickForms(c, now);
      case Sends(data) => FlushForms(Backlogged(c, data[..Accepts(c, data)]), now);
      case Closes => FlushForms(c.(pendingClose := true), now);
      case _ =>
    }
  }

  // ---------------------------------------------------------------- over whole runs

  lemma RefusalForms(c: Conn, m: Segment)
    requires Forms(c)
    ensures Forms(Log(c, RstFor(m)))
  {
  }

  lemma OpeningForms(m: Segment, iss: U32, now: nat)
    ensures Forms(Connect(iss, now)) && Forms(PassiveOpen(m, iss, now))
  {
  }

  lemma StepForms(e: Endpoint, peerSent: seq<Segment>, ev: Event, now: nat)
    requires Forms(e.conn)
    ensures Forms(Step(e, peerSent, ev, now).conn)
  {
    if ev.Deliver? {
      if ev.i < |peerSent| {
        SegmentForms(e.conn, peerSent[ev.i], now);
        RefusalForms(e.conn, peerSent[ev.i]);
        OpeningForms(peerSent[ev.i], ev.iss, now);
      }
    } else {
      ActForms(e.conn, ev, now);
    }
  }

  /** In every run, whatever its length, all that either side puts on the link has one of these forms. */
  lemma {:induction false} OnlyTheseForms(run: seq<System>, k: nat)
    requires IsRun(run) && k < |run|
    ensures Forms(run[k].a.conn) && Forms(run[k].b.conn)
    decreases k
  {
    if k == 0 {
      var iss: U32, now: nat :| run[0].a.conn == Connect(iss, now);
      OpeningForms(Segment(0, 0, SYN, 0, []), iss, now);
    } else {
      OnlyTheseForms(run, k - 1);
      var s, s' := run[k - 1], run[k];
      assert NextAt(run, k - 1);
      var ev: Event, now: nat :| StepA(s, s', ev, now) || StepB(s, s', ev, now);
      StepForms(s.a, s.b.conn.h.sent, ev, now);
      StepForms(s.b, s.a.conn.h.sent, ev, now);
    }
  }
}
