/** Two runs, step by step, in which a receiver ends up holding more than its cap. */
module OverflowRuns {
  import opened SeqSpace
  import opened Connection
  import opened TwoEndpoints
  import opened NoLoss
  import opened FlowControl
  import opened FlowRuns

  // ---------------------------------------------------------------- the segments

  const FIRST_SYN := Segment(1000, 0, SYN, 65535, [])
  const SYN_REPLY := Segment(5000, 1001, SYN_ACK, 65535, [])

  /** The acknowledgement that completes the handshake, from a receiver with room for `room` bytes. */
  function HandshakeAck(room: U16): Segment {
    Segment(1001, 5001, ACK, room, [])
  }

  // ---------------------------------------------------------------- the endpoints

  /** The active side before it hears anything. */
  function Calling(cap: nat): Conn {
    Conn(SynSent, 1000, 1000, 1001, 65535, 0, 0, [Unacked(1000, SYN, [], 0, INITIAL_RTO, 0, [0])], map[], [], [],
         0, None, INITIAL_RTO, false, cap, DEFAULT_SEND_BUFFER_CAP,
         History([FIRST_SYN], [], [], {0}, [], [], 0, 0, false))
  }

  /** The active side once it is open: what it has sent and received. */
  function Caller(cap: nat, sent: seq<Segment>, got: seq<Byte>): Conn
    requires |got| < 100
  {
    Conn(Established, 1000, 1001, 1001, 65535, 5000, 5001 + |got|, [], map[], got, [],
         0, None, INITIAL_RTO, false, cap, DEFAULT_SEND_BUFFER_CAP,
         History(sent, [], [], {0}, [], [], 0, 0, true))
  }

  /** The passive side before its SYN is acknowledged. */
  function Called(): Conn {
    Conn(SynRcvd, 5000, 5000, 5001, 65535, 1000, 1001, [Unacked(5000, SYN_ACK, [], 0, INITIAL_RTO, 0, [0])], map[], [],
         [], 0, None, INITIAL_RTO, false, DEFAULT_RECV_BUFFER_CAP, DEFAULT_SEND_BUFFER_CAP,
         History([SYN_REPLY], [], [], {0}, [], [], 0, 0, true))
  }

  /** The passive side once it is open and before any data. */
  function Callee(wnd: U16, cap: nat): Conn {
    Conn(Established, 5000, 5001, 5001, wnd, 1000, 1001, [], map[], [], [],
         0, None, INITIAL_RTO, false, cap, DEFAULT_SEND_BUFFER_CAP,
         History([SYN_REPLY], [], [], {0}, [], [], 0, 0, true))
  }

  function Live(a: Conn, b: Conn): System {
    System(Endpoint(Alive, a), Endpoint(Alive, b))
  }

  function Ringing(cap: nat): System {
    System(Endpoint(Alive, Calling(cap)), Endpoint(Listening, NewConn()))
  }

  // ---------------------------------------------------------------- the handshake

  lemma Rings()
    ensures Init(Ringing(DEFAULT_RECV_BUFFER_CAP))
  {
    assert Connect(1000, 0) == Calling(DEFAULT_RECV_BUFFER_CAP);
  }

  lemma Answers(dir: bool, cap: nat)
    ensures CalmNext(dir, Ringing(cap), Live(Calling(cap), Called()))
  {
    assert PassiveOpen(FIRST_SYN, 5000, 0) == Called();
    assert CalmB(dir, Ringing(cap), Live(Calling(cap), Called()), Deliver(0, 5000), 0);
  }

  /** Acknowledging the SYN empties a queue that holds nothing else. */
  lemma SynPopped(c: Conn, una: U32)
    requires |c.queue| == 1 && c.queue[0].data == [] && End(c.queue[0]) <= una
    ensures RemoveAcked(c, una) == c.(queue := [])
  {
    var c1 := c.(queue := c.queue[1..], h := c.h.(popped := c.h.popped + c.queue[0].data));
    assert c1 == c.(queue := []) && RemoveAcked(c1, una) == c1;
  }

  lemma Opens(cap: nat)
    requires 0 < cap
    ensures OnSynSent(Calling(cap), SYN_REPLY) == Caller(cap, [FIRST_SYN, HandshakeAck(Min(cap, 65535))], [])
  {
    SynPopped(LearnPeer(Calling(cap), SYN_REPLY), 1001);
  }

  lemma OpensNext(dir: bool, cap: nat)
    requires 0 < cap
    ensures CalmNext(dir, Live(Calling(cap), Called()),
                     Live(Caller(cap, [FIRST_SYN, HandshakeAck(Min(cap, 65535))], []), Called()))
  {
    Opens(cap);
    assert CalmA(dir, Live(Calling(cap), Called()),
                 Live(Caller(cap, [FIRST_SYN, HandshakeAck(Min(cap, 65535))], []), Called()), Deliver(0, 0), 0);
  }

  lemma AcceptsNext(dir: bool, cap: nat)
    requires 0 < cap
    ensures var a := Caller(cap, [FIRST_SYN, HandshakeAck(Min(cap, 65535))], []);
      CalmNext(dir, Live(a, Called()), Live(a, Callee(Min(cap, 65535), DEFAULT_RECV_BUFFER_CAP)))
  {
    var a := Caller(cap, [FIRST_SYN, HandshakeAck(Min(cap, 65535))], []);
    SynPopped(Called().(sndUna := 5001), 5001);
    assert CalmB(dir, Live(a, Called()), Live(a, Callee(Min(cap, 65535), DEFAULT_RECV_BUFFER_CAP)), Deliver(1, 0), 0);
  }

  // ---------------------------------------------------------------- a late acknowledgement

  /** The receiver sets its cap to one byte before it has promised anything. */
  lemma Shrinks(dir: bool)
    ensures CalmNext(dir, Ringing(DEFAULT_RECV_BUFFER_CAP), Ringing(1))
  {
    FurthestOfNone(0, [FIRST_SYN]);
    assert CalmA(dir, Ringing(DEFAULT_RECV_BUFFER_CAP), Ringing(1), SetsCaps(1, DEFAULT_SEND_BUFFER_CAP), 0);
  }

  const FIRST_BYTE := Segment(5001, 1001, PSH_ACK, 65535, [7])
  const SECOND_BYTE := Segment(5002, 1001, PSH_ACK, 65535, [8])
  const FULL := Segment(1001, 5002, ACK, 0, [])

  /** The sender with one byte on the link. */
  function OneSent(): Conn {
    Callee(1, DEFAULT_RECV_BUFFER_CAP).(
      sndNxt := 5002, queue := [Unacked(5001, PSH_ACK, [7], 0, INITIAL_RTO, 0, [0])],
      h := History([SYN_REPLY, FIRST_BYTE], [7], [7], {0, 1}, [], [], 0, 0, true))
  }

  /** The byte is acknowledged, with a closed window. */
  function OneAcked(): Conn {
    OneSent().(sndUna := 5002, sndWnd := 0, queue := [], h := OneSent().h.(popped := [7]))
  }

  /** Another byte waits for the window to open. */
  function Blocked(): Conn {
    OneAcked().(pending := [8], probeDeadline := Some(INITIAL_RTO), h := OneAcked().h.(accepted := [7, 8]))
  }

  /** The late acknowledgement has opened it. */
  function Misled(): Conn {
    OneAcked().(
      sndWnd := 1, sndNxt := 5003, queue := [Unacked(5002, PSH_ACK, [8], 0, INITIAL_RTO, 0, [0])],
      h := History([SYN_REPLY, FIRST_BYTE, SECOND_BYTE], [7, 8], [7, 8], {0, 1, 2}, [7], [], 0, 0, true))
  }

  function Receiving(sent: seq<Segment>, got: seq<Byte>): Conn
    requires |got| < 100
  {
    Caller(1, [FIRST_SYN, HandshakeAck(1)] + sent, got)
  }

  /** What one segment with all of the backlog makes of a connection. */
  function ChunkSent(c: Conn): Conn
    requires |c.pending| <= MSS
  {
    c.(pending := [], sndNxt := Add(c.sndNxt, |c.pending|),
       queue := c.queue + [Unacked(c.sndNxt, PSH_ACK, c.pending, 0, INITIAL_RTO, 0, [0])],
       h := c.h.(sent := c.h.sent + [Segment(c.sndNxt, c.rcvNxt, PSH_ACK, 65535, c.pending)],
                 out := c.h.out + c.pending, cuts := c.h.cuts + {|c.h.out| + |c.pending|}))
  }

  lemma WholeBacklog(c: Conn)
    requires 0 < |c.pending| <= MSS && Off(c.sndUna, c.sndNxt) + |c.pending| <= c.sndWnd
    requires AdvertiseWindow(c) == 65535
    ensures SendChunk(c, 0) == ChunkSent(c)
  {
    var n := |c.pending|;
    assert Min(MSS, Min(c.sndWnd - Off(c.sndUna, c.sndNxt), n)) == n;
    assert c.pending[..n] == c.pending && c.pending[n..] == [];
  }

  /** A backlog that fits one segment and the window goes out as that segment. */
  lemma OneChunk(c: Conn, c': Conn)
    requires 0 < |c.pending| <= MSS && Off(c.sndUna, c.sndNxt) + |c.pending| <= c.sndWnd
    requires c.recvBuf == [] && c.ooo == map[] && c.recvCap >= 65535 && c' == ChunkSent(c)
    ensures FlushLoop(c, 0) == c'
  {
    WholeBacklog(c);
    assert FlushLoop(c', 0) == c';
  }

  lemma SendsOne()
    ensures Send(Callee(1, DEFAULT_RECV_BUFFER_CAP), [7], 0) == OneSent()
  {
    var c := Backlogged(Callee(1, DEFAULT_RECV_BUFFER_CAP), [7]);
    assert {0} + {1} == {0, 1} && c.pending == [7] && c.h.out + [7] == [7];
    OneChunk(c, OneSent());
    assert [7][..1] == [7];
  }

  lemma TakesOne()
    ensures ProcessSegment(Receiving([], []), FIRST_BYTE, 0) == Receiving([FULL], [7])
  {
    assert Absorb(ProcessAck(Receiving([], []), FIRST_BYTE), FIRST_BYTE) == Receiving([], [7]);
  }

  lemma HearsFull()
    ensures ProcessSegment(OneSent(), FULL, 0) == OneAcked()
  {
    var c := OneSent().(sndUna := 5002);
    var c1 := c.(queue := [], h := c.h.(popped := [7]));
    assert c.queue[1..] == [] && RemoveAcked(c1, 5002) == c1;
    assert RemoveAcked(c, 5002) == c1;
    assert ProcessAck(OneSent(), FULL) == OneAcked();
    assert Absorb(OneAcked(), FULL) == OneAcked();
  }

  lemma Waits()
    ensures Send(OneAcked(), [8], 0) == Blocked()
  {
    assert [8][..1] == [8] && [7] + [8] == [7, 8];
  }

  lemma IsMisled()
    ensures ProcessSegment(Blocked(), HandshakeAck(1), 0) == Misled()
  {
    var c := ProcessAck(Blocked(), HandshakeAck(1));
    assert Absorb(c, HandshakeAck(1)) == c;
    assert {0, 1} + {2} == {0, 1, 2} && [7] + [8] == [7, 8];
    OneChunk(c, Misled());
  }

  lemma TakesAnother()
    ensures ProcessSegment(Receiving([FULL], [7]), SECOND_BYTE, 0) == Receiving([FULL, FULL.(ackNum := 5003)], [7, 8])
  {
    assert [7] + [8] == [7, 8];
    assert Absorb(ProcessAck(Receiving([FULL], [7]), SECOND_BYTE), SECOND_BYTE) == Receiving([FULL], [7, 8]);
  }

  lemma FirstByteGoes(dir: bool)
    ensures CalmNext(dir, Live(Receiving([], []), Callee(1, DEFAULT_RECV_BUFFER_CAP)),
                     Live(Receiving([], []), OneSent()))
  {
    SendsOne();
    assert CalmB(dir, Live(Receiving([], []), Callee(1, DEFAULT_RECV_BUFFER_CAP)), Live(Receiving([], []), OneSent()),
                 Sends([7]), 0);
  }

  lemma FirstByteArrives(dir: bool)
    ensures CalmNext(dir, Live(Receiving([], []), OneSent()), Live(Receiving([FULL], [7]), OneSent()))
  {
    TakesOne();
    NewerIsCurrent(Receiving([], []), FIRST_BYTE, OneSent().h.sent);
    assert CalmA(dir, Live(Receiving([], []), OneSent()), Live(Receiving([FULL], [7]), OneSent()), Deliver(1, 0), 0);
  }

  lemma FullArrives(dir: bool)
    ensures CalmNext(dir, Live(Receiving([FULL], [7]), OneSent()), Live(Receiving([FULL], [7]), OneAcked()))
  {
    HearsFull();
    NewerIsCurrent(OneSent(), FULL, Receiving([FULL], [7]).h.sent);
    assert CalmB(dir, Live(Receiving([FULL], [7]), OneSent()), Live(Receiving([FULL], [7]), OneAcked()),
                 Deliver(2, 0), 0);
  }

  lemma SecondByteWaits(dir: bool)
    ensures CalmNext(dir, Live(Receiving([FULL], [7]), OneAcked()), Live(Receiving([FULL], [7]), Blocked()))
  {
    Waits();
    assert CalmB(dir, Live(Receiving([FULL], [7]), OneAcked()), Live(Receiving([FULL], [7]), Blocked()), Sends([8]), 0);
  }

  /** The acknowledgement of the handshake arrives again; only data to the other side is calm. */
  lemma LateAckArrives()
    ensures CalmNext(true, Live(Receiving([FULL], [7]), Blocked()), Live(Receiving([FULL], [7]), Misled()))
  {
    IsMisled();
    assert CalmB(true, Live(Receiving([FULL], [7]), Blocked()), Live(Receiving([FULL], [7]), Misled()),
                 Deliver(1, 0), 0);
  }

  function Burst(): System {
    Live(Receiving([FULL, FULL.(ackNum := 5003)], [7, 8]), Misled())
  }

  lemma SecondByteArrives(dir: bool)
    ensures CalmNext(dir, Live(Receiving([FULL], [7]), Misled()), Burst())
  {
    TakesAnother();
    NewerIsCurrent(Receiving([FULL], [7]), SECOND_BYTE, Misled().h.sent);
    assert CalmA(dir, Live(Receiving([FULL], [7]), Misled()), Burst(), Deliver(2, 0), 0);
  }

  lemma CalmIsNext(dir: bool, s: System, s': System)
    requires CalmNext(dir, s, s')
    ensures Next(s, s')
  {
    var ev: Event, now: nat :| CalmA(dir, s, s', ev, now) || CalmB(dir, s, s', ev, now);
    assert StepA(s, s', ev, now) || StepB(s, s', ev, now);
  }

  function LateAckRun(): seq<System> {
    [ Ringing(DEFAULT_RECV_BUFFER_CAP),
      Ringing(1),
      Live(Calling(1), Called()),
      Live(Receiving([], []), Called()),
      Live(Receiving([], []), Callee(1, DEFAULT_RECV_BUFFER_CAP)),
      Live(Receiving([], []), OneSent()),
      Live(Receiving([FULL], [7]), OneSent()),
      Live(Receiving([FULL], [7]), OneAcked()),
      Live(Receiving([FULL], [7]), Blocked()),
      Live(Receiving([FULL], [7]), Misled()),
      Burst() ]
  }

  lemma ReceiverOpens(dir: bool)
    ensures CalmNext(dir, Live(Calling(1), Called()), Live(Receiving([], []), Called()))
    ensures CalmNext(dir, Live(Receiving([], []), Called()),
                     Live(Receiving([], []), Callee(1, DEFAULT_RECV_BUFFER_CAP)))
  {
    assert Receiving([], []) == Caller(1, [FIRST_SYN, HandshakeAck(1)], []);
    OpensNext(dir, 1);
    AcceptsNext(dir, 1);
  }

  lemma HandshakeSteps(dir: bool, i: nat)
    requires i < 4
    ensures CalmNext(dir, LateAckRun()[i], LateAckRun()[i + 1])
  {
    match i {
      case 0 => Shrinks(dir);
      case 1 => Answers(dir, 1);
      case _ => ReceiverOpens(dir);
    }
  }

  lemma LateAckSteps(dir: bool, i: nat)
    requires i < 10 && (dir || i != 8)
    ensures CalmNext(dir, LateAckRun()[i], LateAckRun()[i + 1])
  {
    if i < 4 {
      HandshakeSteps(dir, i);
    } else {
      DataSteps(dir, i);
    }
  }

  lemma DataSteps(dir: bool, i: nat)
    requires 4 <= i < 10 && (dir || i != 8)
    ensures CalmNext(dir, LateAckRun()[i], LateAckRun()[i + 1])
  {
    match i {
      case 4 => FirstByteGoes(dir);
      case 5 => FirstByteArrives(dir);
      case 6 => FullArrives(dir);
      case 7 => SecondByteWaits(dir);
      case 8 => LateAckArrives();
      case _ => SecondByteArrives(dir);
    }
  }

  /**
   One late acknowledgement is enough.  Every other step of this run is calm in both directions, no cap is
   changed after the first acknowledgement, and nothing wraps; the receiver ends up with two bytes where it has
   room for one.
   */
  lemma LateAckOverflows()
    ensures var run := LateAckRun();
      && IsRun(run) && NoneWraps(Last(run))
      && (forall dir, i: nat :: i + 1 < |run| && (dir || i != 8) ==> CalmAt(dir, run, i))
      && BufferedBytes(Last(run).a.conn) > Last(run).a.conn.recvCap
  {
    var run := LateAckRun();
    Rings();
    forall dir, i: nat | i + 1 < |run| && (dir || i != 8)
      ensures NextAt(run, i) && CalmAt(dir, run, i)
    {
      LateAckSteps(dir, i);
      CalmIsNext(dir, run[i], run[i + 1]);
    }
    forall i: nat | i + 1 < |run|
      ensures NextAt(run, i)
    {
      assert CalmAt(true, run, i);
    }
  }

  // ---------------------------------------------------------------- a cap below what was promised

  const TWO_BYTES := Segment(1001, 5001, PSH_ACK, 65535, [7, 8])

  /** The active side of an ordinary handshake, and after it has sent two bytes. */
  function Ready(): Conn {
    Caller(DEFAULT_RECV_BUFFER_CAP, [FIRST_SYN, HandshakeAck(65535)], [])
  }

  function TwoSent(): Conn {
    Ready().(
      sndNxt := 1003, queue := [Unacked(1001, PSH_ACK, [7, 8], 0, INITIAL_RTO, 0, [0])],
      h := History([FIRST_SYN, HandshakeAck(65535), TWO_BYTES], [7, 8], [7, 8], {0, 2}, [], [], 0, 0, true))
  }

  /** The passive side, whose application wants to hold one byte only, when both have come. */
  function Stuffed(): Conn {
    var c := Callee(65535, 1);
    c.(recvBuf := [7, 8], rcvNxt := 1003, h := c.h.(sent := [SYN_REPLY, Segment(5001, 1003, ACK, 0, [])]))
  }

  /** `accept` applies the listener's receive buffer size, after the SYN,ACK; only data to the other side is calm. */
  lemma CapIsLowered()
    ensures CalmNext(false, Live(Ready(), Callee(65535, DEFAULT_RECV_BUFFER_CAP)), Live(Ready(), Callee(65535, 1)))
  {
    assert CalmB(false, Live(Ready(), Callee(65535, DEFAULT_RECV_BUFFER_CAP)), Live(Ready(), Callee(65535, 1)),
                 SetsCaps(1, DEFAULT_SEND_BUFFER_CAP), 0);
  }

  lemma TwoBytesGo(dir: bool)
    ensures CalmNext(dir, Live(Ready(), Callee(65535, 1)), Live(TwoSent(), Callee(65535, 1)))
  {
    var c := Backlogged(Ready(), [7, 8]);
    assert [7, 8][..2] == [7, 8] && {0} + {2} == {0, 2} && c.pending == [7, 8] && c.h.out + [7, 8] == [7, 8];
    OneChunk(c, TwoSent());
    assert CalmA(dir, Live(Ready(), Callee(65535, 1)), Live(TwoSent(), Callee(65535, 1)), Sends([7, 8]), 0);
  }

  lemma TwoBytesArrive(dir: bool)
    ensures CalmNext(dir, Live(TwoSent(), Callee(65535, 1)), Live(TwoSent(), Stuffed()))
  {
    var c := Callee(65535, 1);
    assert Absorb(ProcessAck(c, TWO_BYTES), TWO_BYTES) == c.(recvBuf := [7, 8], rcvNxt := 1003);
    NewerIsCurrent(c, TWO_BYTES, TwoSent().h.sent);
    assert CalmB(dir, Live(TwoSent(), c), Live(TwoSent(), Stuffed()), Deliver(2, 0), 0);
  }

  function LoweredCapRun(): seq<System> {
    [ Ringing(DEFAULT_RECV_BUFFER_CAP),
      Live(Calling(DEFAULT_RECV_BUFFER_CAP), Called()),
      Live(Ready(), Called()),
      Live(Ready(), Callee(65535, DEFAULT_RECV_BUFFER_CAP)),
      Live(Ready(), Callee(65535, 1)),
      Live(TwoSent(), Callee(65535, 1)),
      Live(TwoSent(), Stuffed()) ]
  }

  lemma LoweredCapSteps(dir: bool, i: nat)
    requires i < 6 && (!dir || i != 3)
    ensures CalmNext(dir, LoweredCapRun()[i], LoweredCapRun()[i + 1])
  {
    match i {
      case 0 => Answers(dir, DEFAULT_RECV_BUFFER_CAP);
      case 1 => OpensNext(dir, DEFAULT_RECV_BUFFER_CAP);
      case 2 => AcceptsNext(dir, DEFAULT_RECV_BUFFER_CAP);
      case 3 => CapIsLowered();
      case 4 => TwoBytesGo(dir);
      case _ => TwoBytesArrive(dir);
    }
  }

  /**
   A cap set below what was promised is not honoured.  Every step is calm in both directions but the one that
   sets it, and nothing wraps.
   */
  lemma LoweredCapOverflows()
    ensures var run := LoweredCapRun();
      && IsRun(run) && NoneWraps(Last(run))
      && (forall dir, i: nat :: i + 1 < |run| && (!dir || i != 3) ==> CalmAt(dir, run, i))
      && BufferedBytes(Last(run).b.conn) > Last(run).b.conn.recvCap
  {
    var run := LoweredCapRun();
    Rings();
    forall dir, i: nat | i + 1 < |run| && (!dir || i != 3)
      ensures NextAt(run, i) && CalmAt(dir, run, i)
    {
      LoweredCapSteps(dir, i);
      CalmIsNext(dir, run[i], run[i + 1]);
    }
    forall i: nat | i + 1 < |run|
      ensures NextAt(run, i)
    {
      assert CalmAt(false, run, i);
    }
  }
}
