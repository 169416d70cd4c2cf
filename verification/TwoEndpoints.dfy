/**
 Two endpoints joined by a link that may drop, duplicate and reorder segments:
 any segment the peer ever sent may be delivered at any time, any number of
 times, or never.
 */
module TwoEndpoints {
  import opened SeqSpace
  import opened Connection
  import opened Invariants
  import opened Pairs
  import opened Sender
  import opened Receiver
  import opened Steps

  /** Where the connection's table entry stands. */
  datatype Life = Listening | Alive | Reaped

  datatype Endpoint = Endpoint(life: Life, conn: Conn)

  datatype System = System(a: Endpoint, b: Endpoint)

  datatype Event =
    | Deliver(i: nat, iss: U32) // the i-th segment the peer sent; `iss` is drawn if it opens a connection
    | Ticks
    | Sends(data: seq<Byte>)
    | Recvs(room: nat)
    | Closes
    | SetsCaps(recvCap: nat, sendCap: nat)
    | Cleans

  // ---------------------------------------------------------------- one endpoint

  /** `cleanup_closed_connections`. */
  function Clean(e: Endpoint): Endpoint {
    if e.life == Alive && e.conn.state == Closed then e.(life := Reaped) else e
  }

  /** `send_rst_for_unknown`: the reply to a segment no connection or listener wants. */
  function RstFor(m: Segment): Segment {
    if m.flags.ack then Segment(m.ackNum, 0, RST, 0, [])
    else Segment(0, Add(m.seqNum, SegLen(m.flags, m.data)), RST_ACK, 0, [])
  }

  ghost function Refuse(e: Endpoint, m: Segment): Endpoint {
    if m.flags.rst then e else e.(conn := Log(e.conn, RstFor(m)))
  }

  predicate IsBareSyn(m: Segment) {
    m.flags.syn && !m.flags.ack
  }

  /** `handle_segment`, for the one 4-tuple considered here. */
  ghost function HandleSegment(e: Endpoint, m: Segment, iss: U32, now: nat): Endpoint {
    match e.life
    case Alive => Clean(e.(conn := ProcessSegment(e.conn, m, now)))
    case Listening => if IsBareSyn(m) then Endpoint(Alive, PassiveOpen(m, iss, now)) else Refuse(e, m)
    case Reaped => if IsBareSyn(m) then e else Refuse(e, m)
  }

  /** What the timer and the application do to a live connection. */
  ghost function Act(x: Conn, ev: Event, now: nat): Conn {
    match ev
    case Ticks => Tick(x, now)
    case Sends(data) => Send(x, data, now)
    case Recvs(room) => Recv(x, room)
    case Closes => Close(x, now)
    case SetsCaps(r, s) => x.(recvCap := r, sendCap := s)
    case _ => x
  }

  ghost function Step(e: Endpoint, peerSent: seq<Segment>, ev: Event, now: nat): Endpoint {
    match ev
    case Deliver(i, iss) => if i < |peerSent| then HandleSegment(e, peerSent[i], iss, now) else e
    case Cleans => Clean(e)
    case Ticks => if e.life == Alive then Clean(e.(conn := Act(e.conn, ev, now))) else e
    case _ => if e.life == Alive then e.(conn := Act(e.conn, ev, now)) else e
  }

  // ---------------------------------------------------------------- the system

  /** `a` has just called `connect`; `b` is listening. */
  ghost predicate Init(s: System) {
    && s.a.life == Alive
    && (exists iss: U32, now: nat :: s.a.conn == Connect(iss, now))
    && s.b == Endpoint(Listening, NewConn())
  }

  ghost predicate StepA(s: System, s': System, ev: Event, now: nat) {
    s' == s.(a := Step(s.a, s.b.conn.h.sent, ev, now))
  }

  ghost predicate StepB(s: System, s': System, ev: Event, now: nat) {
    s' == s.(b := Step(s.b, s.a.conn.h.sent, ev, now))
  }

  ghost predicate Next(s: System, s': System) {
    exists ev: Event, now: nat :: StepA(s, s', ev, now) || StepB(s, s', ev, now)
  }

  ghost predicate NextAt(run: seq<System>, i: nat)
    requires i + 1 < |run|
  {
    Next(run[i], run[i + 1])
  }

  ghost predicate IsRun(run: seq<System>) {
    && run != []
    && Init(run[0])
    && forall i: nat :: i + 1 < |run| ==> NextAt(run, i)
  }

  function Last(run: seq<System>): System
    requires run != []
  {
    run[|run| - 1]
  }

  /** Neither direction uses up its sequence space. */
  predicate BothFit(s: System) {
    Fits(s.a.conn) && Fits(s.b.conn)
  }

  // ---------------------------------------------------------------- the invariant

  /** A peer that has not said anything yet; stands in for the listener. */
  ghost function Nobody(): Conn {
    var c := Connect(0, 0);
    c.(h := c.h.(sent := []))
  }

  /** Has heard nothing and has sent nothing but its SYN. */
  ghost predicate Silent(c: Conn) {
    && !c.h.synced && c.h.out == [] && c.h.fins == 0
    && forall m :: m in c.h.sent ==> IsBareSyn(m) && !m.flags.rst
  }

  /** Before the listener has seen a SYN. */
  ghost predicate Opening(s: System) {
    && s.b == Endpoint(Listening, NewConn())
    && Pair(s.a.conn, Nobody()) && LabelOk(s.a.conn)
    && Silent(s.a.conn)
  }

  ghost predicate Connected(s: System) {
    && s.b.life != Listening
    && Pair(s.a.conn, s.b.conn) && LabelOk(s.a.conn) && LabelOk(s.b.conn)
  }

  ghost predicate Inv(s: System) {
    s.a.life != Listening && (Opening(s) || Connected(s))
  }

  // ---------------------------------------------------------------- it holds initially

  lemma ConnectLocal(iss: U32, now: nat)
    ensures TxOk(Connect(iss, now)) && AcksOk(Connect(iss, now))
    ensures LabelOk(Connect(iss, now)) && Silent(Connect(iss, now))
  {
    var c := Connect(iss, now);
    OffAdd(iss, iss, 1);
    assert c.queue[1..] == [];
    assert QueueBytes(c.queue) == c.queue[0].data + QueueBytes(c.queue[1..]);
  }

  /** Two connections that have only queued their SYNs know nothing of each other. */
  lemma StrangersPair(x: Conn, y: Conn)
    requires Local(x) && Local(y) && Silent(x) && Silent(y)
    requires x.sndUna == x.iss && y.sndUna == y.iss
    requires forall m :: m in x.h.sent ==> SegOk(StreamOf(x), 0, m)
    requires y.h.sent == []
    ensures Pair(x, y)
  {
  }

  lemma InitInv(s: System)
    requires Init(s)
    ensures Inv(s)
  {
    var iss: U32, now: nat :| s.a.conn == Connect(iss, now);
    ConnectLocal(iss, now);
    ConnectLocal(0, 0);
    TxSame(Connect(0, 0), Nobody());
    StrangersPair(s.a.conn, Nobody());
  }

  // ---------------------------------------------------------------- every step keeps it

  lemma SegmentStep(x: Conn, y: Conn, m: Segment, now: nat)
    requires Pair(x, y) && LabelOk(x) && m in y.h.sent && Fits(ProcessSegment(x, m, now))
    ensures Pair(ProcessSegment(x, m, now), y) && LabelOk(ProcessSegment(x, m, now))
  {
    SegmentKeeps(x, y, m, now);
    if m.flags.ack && !m.flags.rst {
      AckWithinReach(x, y, m);
    }
    SegmentLabel(x, m, now);
  }

  lemma RefuseKeeps(e: Endpoint, y: Conn, m: Segment)
    requires Pair(e.conn, y) && LabelOk(e.conn)
    ensures Pair(Refuse(e, m).conn, y) && LabelOk(Refuse(e, m).conn)
  {
    LogKeeps(e.conn, y, RstFor(m));
  }

  lemma DeliverKeeps(e: Endpoint, y: Conn, m: Segment, iss: U32, now: nat)
    requires e.life != Listening && m in y.h.sent
    requires Pair(e.conn, y) && LabelOk(e.conn) && Fits(HandleSegment(e, m, iss, now).conn)
    ensures Pair(HandleSegment(e, m, iss, now).conn, y) && LabelOk(HandleSegment(e, m, iss, now).conn)
  {
    if e.life == Alive {
      SegmentStep(e.conn, y, m, now);
    } else {
      RefuseKeeps(e, y, m);
    }
  }

  lemma ActKeeps(x: Conn, y: Conn, ev: Event, now: nat)
    requires Pair(x, y) && LabelOk(x) && Fits(Act(x, ev, now))
    ensures Pair(Act(x, ev, now), y)
  {
    match ev {
      case Ticks => TickKeeps(x, y, now);
      case Sends(data) => SendKeeps(x, y, data, now);
      case Recvs(room) => RecvKeeps(x, y, room);
      case Closes => CloseKeeps(x, y, now);
      case SetsCaps(r, s) => OtherFieldsKeep(x, x.(recvCap := r, sendCap := s), y);
      case _ =>
    }
  }

  lemma ActLabel(x: Conn, ev: Event, now: nat)
    requires LabelOk(x)
    ensures LabelOk(Act(x, ev, now))
  {
    match ev {
      case Ticks => TickLabel(x, now);
      case Sends(data) => SendLabel(x, data, now);
      case Recvs(room) => RecvIs(x, room);
      case Closes => CloseLabel(x, now);
      case _ =>
    }
  }

  /** Any event at one endpoint keeps it consistent with its peer. */
  lemma StepKeeps(e: Endpoint, y: Conn, ev: Event, now: nat)
    requires e.life != Listening
    requires Pair(e.conn, y) && LabelOk(e.conn) && Fits(Step(e, y.h.sent, ev, now).conn)
    ensures Pair(Step(e, y.h.sent, ev, now).conn, y) && LabelOk(Step(e, y.h.sent, ev, now).conn)
  {
    if ev.Deliver? {
      if ev.i < |y.h.sent| {
        DeliverKeeps(e, y, y.h.sent[ev.i], ev.iss, now);
      }
    } else if e.life == Alive && !ev.Cleans? {
      ActKeeps(e.conn, y, ev, now);
      ActLabel(e.conn, ev, now);
    }
  }

  lemma SilentTick(x: Conn, now: nat)
    requires TxOk(x) && LabelOk(x) && Silent(x)
    ensures Silent(Tick(x, now))
  {
    RetransmitIs(Probe(x, now), now);
    if x.queue != [] {
      assert EntryOk(StreamOf(x), false, x.queue[0]);
    }
  }

  lemma SilentAct(x: Conn, ev: Event, now: nat)
    requires TxOk(x) && LabelOk(x) && Silent(x)
    ensures Silent(Act(x, ev, now))
  {
    if ev.Ticks? {
      SilentTick(x, now);
    } else if ev.Recvs? {
      RecvIs(x, ev.room);
    }
  }

  /** An endpoint that hears nothing goes on sending nothing but its SYN. */
  lemma SilentStep(e: Endpoint, ev: Event, now: nat)
    requires e.life != Listening && TxOk(e.conn) && LabelOk(e.conn) && Silent(e.conn)
    ensures Silent(Step(e, [], ev, now).conn)
  {
    SilentAct(e.conn, ev, now);
  }

  lemma PassiveOpenLocal(m: Segment, iss: U32, now: nat)
    ensures TxOk(PassiveOpen(m, iss, now)) && AcksOk(PassiveOpen(m, iss, now)) && LabelOk(PassiveOpen(m, iss, now))
  {
    var c := PassiveOpen(m, iss, now);
    OffAdd(iss, iss, 1);
    OffAdd(m.seqNum, m.seqNum, 1);
    assert c.queue[1..] == [];
    assert QueueBytes(c.queue) == c.queue[0].data + QueueBytes(c.queue[1..]);
  }

  /** The listener meets the first SYN. */
  lemma OpenKeeps(x: Conn, m: Segment, iss: U32, now: nat)
    requires Pair(x, Nobody()) && Silent(x) && m in x.h.sent
    ensures Pair(x, PassiveOpen(m, iss, now))
  {
    var y := PassiveOpen(m, iss, now);
    PassiveOpenLocal(m, iss, now);
    assert SegOk(StreamOf(x), 0, m);
    OffAdd(x.iss, x.iss, 1);
    forall n | n in x.h.sent
      ensures SegOk(StreamOf(x), Reach(x, y), n)
    {
      SegGrows(StreamOf(x), StreamOf(x), 0, Reach(x, y), n);
    }
  }

  lemma StepAKeeps(s: System, s': System, ev: Event, now: nat)
    requires Inv(s) && StepA(s, s', ev, now) && BothFit(s')
    ensures Inv(s')
  {
    if Connected(s) {
      ConnectedStepA(s, s', ev, now);
    } else {
      OpeningStepA(s, s', ev, now);
    }
  }

  lemma ConnectedStepA(s: System, s': System, ev: Event, now: nat)
    requires Connected(s) && s.a.life != Listening && StepA(s, s', ev, now) && Fits(s'.a.conn)
    ensures Connected(s') && s'.a.life != Listening
  {
    StepKeeps(s.a, s.b.conn, ev, now);
  }

  lemma OpeningStepA(s: System, s': System, ev: Event, now: nat)
    requires Opening(s) && s.a.life != Listening && StepA(s, s', ev, now) && Fits(s'.a.conn)
    ensures Opening(s') && s'.a.life != Listening
  {
    StepKeeps(s.a, Nobody(), ev, now);
    SilentStep(s.a, ev, now);
  }

  /** All a listener can do is to open. */
  lemma ListenerStep(s: System, s': System, ev: Event, now: nat)
    requires s.b == Endpoint(Listening, NewConn()) && Silent(s.a.conn) && StepB(s, s', ev, now)
    ensures s' == s ||
      (ev.Deliver? && ev.i < |s.a.conn.h.sent| &&
       s' == s.(b := Endpoint(Alive, PassiveOpen(s.a.conn.h.sent[ev.i], ev.iss, now))))
  {
  }

  lemma OpeningStepB(s: System, m: Segment, iss: U32, now: nat)
    requires Opening(s) && s.a.life != Listening && m in s.a.conn.h.sent
    ensures Inv(s.(b := Endpoint(Alive, PassiveOpen(m, iss, now))))
  {
    OpenKeeps(s.a.conn, m, iss, now);
    PassiveOpenLocal(m, iss, now);
  }

  lemma ConnectedStepB(s: System, s': System, ev: Event, now: nat)
    requires Connected(s) && StepB(s, s', ev, now) && Fits(s'.b.conn)
    ensures Connected(s')
  {
    StepKeeps(s.b, s.a.conn, ev, now);
  }

  lemma StepBKeeps(s: System, s': System, ev: Event, now: nat)
    requires Inv(s) && StepB(s, s', ev, now) && BothFit(s')
    ensures Inv(s')
  {
    if Connected(s) {
      ConnectedStepB(s, s', ev, now);
    } else {
      ListenerStep(s, s', ev, now);
      if s' != s {
        OpeningStepB(s, s.a.conn.h.sent[ev.i], ev.iss, now);
      }
    }
  }

  // ---------------------------------------------------------------- over whole runs

  /** Nothing put on the link is taken back, and the sequence space does not move. */
  predicate Grew(c: Conn, c': Conn) {
    c'.iss == c.iss && c.h.out <= c'.h.out
  }

  lemma FlushGrew(c: Conn, now: nat)
    ensures Grew(c, FlushSend(c, now))
  {
    FlushLoopFrame(ArmProbe(c, now), now);
  }

  lemma HandshakeGrew(c: Conn, m: Segment)
    ensures Grew(c, OnSynSent(c, m))
    ensures Grew(c, OnSynRcvd(c, m))
  {
    RemoveAckedFrame(LearnPeer(c, m), m.ackNum);
    var c1 := c.(sndUna := m.ackNum);
    RemoveAckedFrame(c1, m.ackNum);
    ReceiveFrame(RemoveAcked(c1, m.ackNum).(sndWnd := m.window, state := Established), m);
  }

  lemma SendingGrew(c: Conn, m: Segment, now: nat)
    ensures Grew(c, OnEstablished(c, m, now))
    ensures Grew(c, FlushSend(ProcessAck(c, m), now))
  {
    AckThenReceiveFrame(c, m);
    ProcessAckFrame(c, m);
    EstablishedIs(c, m, now);
    FlushGrew(Taken(c, m), now);
    FlushGrew(ProcessAck(c, m), now);
  }

  lemma ClosingGrew(c: Conn, m: Segment, now: nat)
    ensures Grew(c, OnFinWait1(c, m, now)) && Grew(c, OnFinWait2(c, m, now))
    ensures Grew(c, OnClosing(c, m, now)) && Grew(c, OnLastAck(c, m)) && Grew(c, OnTimeWait(c, m, now))
  {
    AckThenReceiveFrame(c, m);
    ProcessAckFrame(c, m);
    FinWaitIs(c, m, now);
    ClosingIs(c, m, now);
  }

  lemma SegmentGrew(c: Conn, m: Segment, now: nat)
    ensures Grew(c, ProcessSegment(c, m, now))
  {
    match c.state {
      case SynSent => HandshakeGrew(c, m);
      case SynRcvd => HandshakeGrew(c, m);
      case Established => SendingGrew(c, m, now);
      case CloseWait => SendingGrew(c, m, now);
      case Closed =>
      case Listen =>
      case _ => ClosingGrew(c, m, now);
    }
  }

  lemma TickGrew(x: Conn, now: nat)
    ensures Grew(x, Tick(x, now))
  {
    TimersFrame(x, now);
    TimersFrame(Probe(x, now), now);
    FlushGrew(Retransmit(Probe(x, now), now), now);
  }

  lemma ActGrew(x: Conn, ev: Event, now: nat)
    ensures Grew(x, Act(x, ev, now))
  {
    match ev {
      case Ticks => TickGrew(x, now);
      case Sends(data) => FlushGrew(Backlogged(x, data[..Accepts(x, data)]), now);
      case Closes => FlushGrew(x.(pendingClose := true), now);
      case _ =>
    }
  }

  lemma StepGrew(e: Endpoint, peerSent: seq<Segment>, ev: Event, now: nat)
    requires e.life != Listening
    ensures Grew(e.conn, Step(e, peerSent, ev, now).conn)
  {
    if ev.Deliver? {
      if ev.i < |peerSent| {
        SegmentGrew(e.conn, peerSent[ev.i], now);
      }
    } else {
      ActGrew(e.conn, ev, now);
    }
  }

  /** The listener puts nothing but refusals on the link before it is opened. */
  ghost predicate ListenerQuiet(s: System) {
    s.a.life != Listening && (s.b.life == Listening ==> s.b.conn.h.out == [] && s.b.conn.iss == 0)
  }

  lemma NextGrew(s: System, s': System)
    requires Next(s, s') && ListenerQuiet(s)
    ensures ListenerQuiet(s') && Grew(s.a.conn, s'.a.conn)
    ensures s.b.life != Listening ==> Grew(s.b.conn, s'.b.conn)
  {
    var ev: Event, now: nat :| StepA(s, s', ev, now) || StepB(s, s', ev, now);
    if StepA(s, s', ev, now) {
      StepGrew(s.a, s.b.conn.h.sent, ev, now);
    } else if s.b.life != Listening {
      StepGrew(s.b, s.a.conn.h.sent, ev, now);
    }
  }

  lemma NextKeeps(s: System, s': System)
    requires Inv(s) && Next(s, s') && BothFit(s')
    ensures Inv(s')
  {
    var ev: Event, now: nat :| StepA(s, s', ev, now) || StepB(s, s', ev, now);
    if StepA(s, s', ev, now) {
      StepAKeeps(s, s', ev, now);
    } else {
      StepBKeeps(s, s', ev, now);
    }
  }

  /** A run without its last states is a run. */
  lemma RunPrefix(run: seq<System>, n: nat)
    requires IsRun(run) && 0 < n < |run|
    ensures IsRun(run[..n]) && Last(run[..n]) == run[n - 1] && Next(run[n - 1], run[n])
  {
    forall i: nat | i + 1 < n
      ensures NextAt(run[..n], i)
    {
      assert NextAt(run, i);
    }
    assert NextAt(run, n - 1);
  }

  lemma {:induction false} RunQuiet(run: seq<System>)
    requires IsRun(run)
    ensures ListenerQuiet(Last(run))
    decreases |run|
  {
    if |run| > 1 {
      var n := |run| - 1;
      RunPrefix(run, n);
      RunQuiet(run[..n]);
      NextGrew(run[n - 1], run[n]);
    }
  }

  /** Every run whose last state fits ends in a state that satisfies the invariant. */
  lemma {:induction false} RunInv(run: seq<System>)
    requires IsRun(run) && BothFit(Last(run))
    ensures Inv(Last(run))
    decreases |run|
  {
    if |run| == 1 {
      InitInv(run[0]);
    } else {
      var n := |run| - 1;
      RunPrefix(run, n);
      RunQuiet(run[..n]);
      NextGrew(run[n - 1], run[n]);
      RunInv(run[..n]);
      NextKeeps(run[n - 1], run[n]);
    }
  }

  /** The invariant holds all along such a run. */
  lemma {:induction false} RunInvAt(run: seq<System>, k: nat)
    requires IsRun(run) && BothFit(Last(run)) && k < |run|
    ensures Inv(run[k])
    decreases |run|
  {
    var n := |run| - 1;
    if k == n {
      RunInv(run);
    } else {
      RunPrefix(run, n);
      RunQuiet(run[..n]);
      NextGrew(run[n - 1], run[n]);
      RunInvAt(run[..n], k);
    }
  }
}
