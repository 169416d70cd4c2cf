/** The state diagram of docs/state_machine.md, the FIN, and what the sender makes of acknowledgements. */
module StateMachine {
  import opened SeqSpace
  import opened Connection
  import opened Invariants
  import opened Sender
  import opened Receiver
  import opened Steps
  import opened TwoEndpoints
  import opened Window
  import opened Timers

  // ---------------------------------------------------------------- the diagram

  /** The documented transitions of a connection that exists; the last is by RST, giving up, or an early `close`. */
  predicate Edge(s: TcpState, t: TcpState) {
    || (s == SynSent && t == Established)
    || (s == SynRcvd && t == Established)
    || (s == Established && t in {FinWait1, CloseWait})
    || (s == FinWait1 && t in {FinWait2, Closing, TimeWait})
    || (s == FinWait2 && t == TimeWait)
    || (s == Closing && t == TimeWait)
    || (s == CloseWait && t == LastAck)
    || (s != Closed && t == Closed)
  }

  /** One segment may take two edges at once: a FIN with the last handshake ACK, or with a deferred close. */
  predicate Path(s: TcpState, t: TcpState) {
    || s == t
    || Edge(s, t)
    || (s == SynRcvd && t == CloseWait)
    || (s == Established && t == LastAck)
  }

  /** How far along the diagram a state is. */
  function Rank(s: TcpState): nat {
    match s
    case Listen => 0
    case SynSent => 1
    case SynRcvd => 1
    case Established => 2
    case FinWait1 => 3
    case CloseWait => 3
    case FinWait2 => 4
    case Closing => 4
    case LastAck => 4
    case TimeWait => 5
    case Closed => 6
  }

  /** The same state or one further along. */
  predicate Climbed(s: TcpState, t: TcpState) {
    s == t || Rank(s) < Rank(t)
  }

  /** The diagram has no cycle, so a state once left is never entered again. */
  lemma PathsClimb(s: TcpState, t: TcpState)
    requires Path(s, t)
    ensures Climbed(s, t)
  {
  }

  lemma FlushStates(c: Conn, now: nat)
    ensures FlushSend(c, now).state == c.state ||
            (c.state == Established && FlushSend(c, now).state == FinWait1) ||
            (c.state == CloseWait && FlushSend(c, now).state == LastAck)
  {
    FlushLoopFrame(ArmProbe(c, now), now);
  }

  lemma HandshakeStates(c: Conn, m: Segment)
    ensures c.state == SynSent ==> OnSynSent(c, m).state in {SynSent, Established}
    ensures c.state == SynRcvd ==> OnSynRcvd(c, m).state in {SynRcvd, Established, CloseWait}
  {
    RemoveAckedFrame(LearnPeer(c, m), m.ackNum);
    var c1 := c.(sndUna := m.ackNum);
    RemoveAckedFrame(c1, m.ackNum);
    ReceiveFrame(RemoveAcked(c1, m.ackNum).(sndWnd := m.window, state := Established), m);
  }

  lemma SendingStates(c: Conn, m: Segment, now: nat)
    ensures c.state == Established ==> OnEstablished(c, m, now).state in {Established, FinWait1, CloseWait, LastAck}
    ensures c.state == CloseWait ==> FlushSend(ProcessAck(c, m), now).state in {CloseWait, LastAck}
  {
    AckThenReceiveFrame(c, m);
    ProcessAckFrame(c, m);
    var c2 := AckThenReceive(c, m);
    FlushStates(if TakesFin(c, m) then c2.(state := CloseWait) else c2, now);
    FlushStates(ProcessAck(c, m), now);
  }

  lemma ClosingStates(c: Conn, m: Segment, now: nat)
    ensures c.state == FinWait1 ==> OnFinWait1(c, m, now).state in {FinWait1, FinWait2, Closing, TimeWait}
    ensures c.state == FinWait2 ==> OnFinWait2(c, m, now).state in {FinWait2, TimeWait}
    ensures c.state == Closing ==> OnClosing(c, m, now).state in {Closing, TimeWait}
    ensures c.state == LastAck ==> OnLastAck(c, m).state in {LastAck, Closed}
    ensures c.state == TimeWait ==> OnTimeWait(c, m, now).state == TimeWait
  {
    AckThenReceiveFrame(c, m);
    ProcessAckFrame(c, m);
  }

  lemma SegmentStates(c: Conn, m: Segment, now: nat)
    ensures Path(c.state, ProcessSegment(c, m, now).state)
  {
    match c.state {
      case SynSent => HandshakeStates(c, m);
      case SynRcvd => HandshakeStates(c, m);
      case Established => SendingStates(c, m, now);
      case CloseWait => SendingStates(c, m, now);
      case Closed =>
      case Listen =>
      case _ => ClosingStates(c, m, now);
    }
  }

  lemma TickStates(c: Conn, now: nat)
    requires c.state != Listen
    ensures Path(c.state, Tick(c, now).state)
  {
    TimersFrame(c, now);
    TimersFrame(Probe(c, now), now);
    FlushStates(Retransmit(Probe(c, now), now), now);
  }

  lemma ActStates(c: Conn, ev: Event, now: nat)
    requires c.state != Listen
    ensures Path(c.state, Act(c, ev, now).state)
  {
    match ev {
      case Ticks => TickStates(c, now);
      case Sends(data) => FlushStates(Backlogged(c, data[..Accepts(c, data)]), now);
      case Closes => FlushStates(c.(pendingClose := true), now);
      case _ =>
    }
  }

  /** Whatever arrives and whatever the application does, a connection moves along the documented diagram. */
  lemma FollowsDiagram(c: Conn, c': Conn)
    requires LocalNext(c, c') && c.state != Listen
    ensures Path(c.state, c'.state) && Climbed(c.state, c'.state)
  {
    if m: Segment, now: nat :| c' == ProcessSegment(c, m, now) {
      SegmentStates(c, m, now);
    } else {
      var ev: Event, now: nat :| c' == Act(c, ev, now);
      ActStates(c, ev, now);
    }
    PathsClimb(c.state, c'.state);
  }

  lemma ClimbedOn(s: TcpState, t: TcpState, u: TcpState)
    requires Climbed(s, t) && Climbed(t, u)
    ensures Climbed(s, u)
  {
  }

  lemma Climbs(cs: seq<Conn>, k: nat)
    requires IsLife(cs) && k + 1 < |cs| && cs[k].state != Listen
    ensures cs[k + 1].state != Listen
    ensures Climbed(cs[k].state, cs[k + 1].state)
  {
    assert LivesAt(cs, k);
    FollowsDiagram(cs[k], cs[k + 1]);
  }

  lemma StartsSomewhere(cs: seq<Conn>)
    requires IsLife(cs)
    ensures cs[0].state != Listen
  {
    BornTimers(cs[0]);
  }

  /** Over a whole life no state is entered twice. */
  lemma {:induction false} NeverReturns(cs: seq<Conn>, i: nat, j: nat)
    requires IsLife(cs) && i <= j < |cs|
    ensures cs[i].state != Listen && cs[j].state != Listen
    ensures Climbed(cs[i].state, cs[j].state)
    decreases j
  {
    if j == 0 {
      StartsSomewhere(cs);
    } else {
      NeverReturns(cs, if i < j then i else j - 1, j - 1);
      Climbs(cs, j - 1);
      if i < j {
        ClimbedOn(cs[i].state, cs[j - 1].state, cs[j].state);
      }
    }
  }

  // ---------------------------------------------------------------- the FIN

  /** The FIN has just gone out, right after the last byte ever accepted. */
  ghost predicate FinJustSent(c: Conn) {
    && c.pending == [] && c.h.out == c.h.accepted
    && c.h.sent != []
    && var m := c.h.sent[|c.h.sent| - 1];
       m.flags == FIN_ACK && m.data == [] && Off(c.iss, m.seqNum) == 1 + |c.h.accepted|
  }

  lemma FlushFin(c: Conn, now: nat)
    requires TxOk(FlushSend(c, now)) && FlushSend(c, now).h.fins > c.h.fins
    ensures FinJustSent(FlushSend(c, now))
  {
    FinIffDrained(c, now);
    FlushLoopFrame(ArmProbe(c, now), now);
    FinFollows(Drain(c, now), now);
  }

  lemma FinFollows(c1: Conn, now: nat)
    requires TxOk(SendFin(c1, now)) && c1.pending == []
    ensures FinJustSent(SendFin(c1, now))
  {
    var c' := SendFin(c1, now);
    assert c'.h.out + [] == c'.h.out;
    assert EntryOk(StreamOf(c'), c'.h.synced, c'.queue[|c1.queue|]);
  }

  lemma SendingFin(c: Conn, m: Segment, now: nat)
    ensures TxOk(OnEstablished(c, m, now)) && OnEstablished(c, m, now).h.fins > c.h.fins ==>
      FinJustSent(OnEstablished(c, m, now))
    ensures var c' := FlushSend(ProcessAck(c, m), now); TxOk(c') && c'.h.fins > c.h.fins ==> FinJustSent(c')
  {
    AckThenReceiveFrame(c, m);
    ProcessAckFrame(c, m);
    EstablishedIs(c, m, now);
    var c3 := Taken(c, m);
    if TxOk(FlushSend(c3, now)) && FlushSend(c3, now).h.fins > c.h.fins {
      FlushFin(c3, now);
    }
    var c1 := ProcessAck(c, m);
    if TxOk(FlushSend(c1, now)) && FlushSend(c1, now).h.fins > c.h.fins {
      FlushFin(c1, now);
    }
  }

  lemma HandshakeFins(c: Conn, m: Segment)
    ensures OnSynSent(c, m).h.fins == OnSynRcvd(c, m).h.fins == c.h.fins
  {
    RemoveAckedFrame(LearnPeer(c, m), m.ackNum);
    var c1 := c.(sndUna := m.ackNum);
    RemoveAckedFrame(c1, m.ackNum);
    ReceiveFrame(RemoveAcked(c1, m.ackNum).(sndWnd := m.window, state := Established), m);
  }

  lemma ClosingFins(c: Conn, m: Segment, now: nat)
    ensures OnFinWait1(c, m, now).h.fins == OnFinWait2(c, m, now).h.fins == c.h.fins
    ensures OnClosing(c, m, now).h.fins == OnLastAck(c, m).h.fins == OnTimeWait(c, m, now).h.fins == c.h.fins
  {
    AckThenReceiveFrame(c, m);
    ProcessAckFrame(c, m);
    FinWaitIs(c, m, now);
    ClosingIs(c, m, now);
  }

  lemma SegmentFin(c: Conn, m: Segment, now: nat)
    requires TxOk(ProcessSegment(c, m, now)) && ProcessSegment(c, m, now).h.fins > c.h.fins
    ensures FinJustSent(ProcessSegment(c, m, now))
  {
    match c.state {
      case Established => SendingFin(c, m, now);
      case CloseWait => SendingFin(c, m, now);
      case SynSent => HandshakeFins(c, m);
      case SynRcvd => HandshakeFins(c, m);
      case Closed =>
      case Listen =>
      case _ => ClosingFins(c, m, now);
    }
  }

  lemma TickFin(c: Conn, now: nat)
    requires TxOk(Tick(c, now)) && Tick(c, now).h.fins > c.h.fins
    ensures FinJustSent(Tick(c, now))
  {
    TimersQueueNoFin(c, now);
    if c.state != TimeWait && !GivesUp(Probe(c, now), now) {
      FlushFin(Retransmit(Probe(c, now), now), now);
    }
  }

  lemma TimersQueueNoFin(c: Conn, now: nat)
    ensures Probe(c, now).h.fins == c.h.fins && Retransmit(Probe(c, now), now).h.fins == c.h.fins
  {
    TimersFrame(c, now);
    TimersFrame(Probe(c, now), now);
  }

  lemma ActFin(c: Conn, ev: Event, now: nat)
    requires TxOk(Act(c, ev, now)) && Act(c, ev, now).h.fins > c.h.fins
    ensures FinJustSent(Act(c, ev, now))
  {
    match ev {
      case Ticks => TickFin(c, now);
      case Sends(data) => FlushFin(Backlogged(c, data[..Accepts(c, data)]), now);
      case Closes => FlushFin(c.(pendingClose := true), now);
      case _ =>
    }
  }

  lemma StepFin(e: Endpoint, peerSent: seq<Segment>, ev: Event, now: nat)
    requires e.life != Listening
    requires var c' := Step(e, peerSent, ev, now).conn; TxOk(c') && c'.h.fins > e.conn.h.fins
    ensures FinJustSent(Step(e, peerSent, ev, now).conn)
  {
    if ev.Deliver? {
      SegmentFin(e.conn, peerSent[ev.i], now);
    } else {
      ActFin(e.conn, ev, now);
    }
  }

  lemma NextFin(s: System, s': System)
    requires s.a.life != Listening && TxOk(s'.a.conn) && (s.b.life != Listening ==> TxOk(s'.b.conn)) && Next(s, s')
    ensures s'.a.conn.h.fins > s.a.conn.h.fins ==> FinJustSent(s'.a.conn)
    ensures s'.b.conn.h.fins > s.b.conn.h.fins ==> FinJustSent(s'.b.conn)
  {
    var ev: Event, now: nat :| StepA(s, s', ev, now) || StepB(s, s', ev, now);
    if StepA(s, s', ev, now) {
      if s'.a.conn.h.fins > s.a.conn.h.fins {
        StepFin(s.a, s.b.conn.h.sent, ev, now);
      }
    } else if s.b.life != Listening && s'.b.conn.h.fins > s.b.conn.h.fins {
      StepFin(s.b, s.a.conn.h.sent, ev, now);
    }
  }

  /** In every run, the step that queues the FIN has drained the backlog, and the FIN follows the last byte. */
  lemma FinClosesStream(run: seq<System>, k: nat)
    requires IsRun(run) && BothFit(Last(run)) && k + 1 < |run|
    ensures run[k + 1].a.conn.h.fins > run[k].a.conn.h.fins ==> FinJustSent(run[k + 1].a.conn)
    ensures run[k + 1].b.conn.h.fins > run[k].b.conn.h.fins ==> FinJustSent(run[k + 1].b.conn)
  {
    RunInvAt(run, k);
    RunInvAt(run, k + 1);
    assert NextAt(run, k);
    NextFin(run[k], run[k + 1]);
  }

  /** After the FIN nothing new is sent: `sndNxt` and the stream stay as they are. */
  predicate Settled(c: Conn, c': Conn) {
    c.h.fins == 1 ==> c'.h.fins == 1 && c'.sndNxt == c.sndNxt && c'.h.out == c.h.out
  }

  lemma ActAfterFin(c: Conn, ev: Event, now: nat)
    requires LabelOk(c)
    ensures Settled(c, Act(c, ev, now))
  {
    TimersFrame(c, now);
    TimersFrame(Probe(c, now), now);
    if ev.Recvs? {
      RecvIs(c, ev.room);
    }
  }

  lemma FinWaitAfterFin(c: Conn, m: Segment, now: nat)
    ensures Settled(c, OnFinWait1(c, m, now)) && Settled(c, OnFinWait2(c, m, now))
  {
    AckThenReceiveFrame(c, m);
    FinWaitIs(c, m, now);
  }

  lemma ClosingAfterFin(c: Conn, m: Segment, now: nat)
    ensures Settled(c, OnClosing(c, m, now)) && Settled(c, OnLastAck(c, m))
  {
    ProcessAckFrame(c, m);
    ClosingIs(c, m, now);
  }

  lemma SegmentAfterFin(c: Conn, m: Segment, now: nat)
    requires LabelOk(c)
    ensures Settled(c, ProcessSegment(c, m, now))
  {
    if c.h.fins == 1 {
      match c.state {
        case FinWait1 => FinWaitAfterFin(c, m, now);
        case FinWait2 => FinWaitAfterFin(c, m, now);
        case TimeWait =>
        case Closed =>
        case _ => ClosingAfterFin(c, m, now);
      }
    }
  }

  lemma StepAfterFin(e: Endpoint, peerSent: seq<Segment>, ev: Event, now: nat)
    requires e.life != Listening && LabelOk(e.conn)
    ensures Settled(e.conn, Step(e, peerSent, ev, now).conn)
  {
    if ev.Deliver? {
      if ev.i < |peerSent| {
        SegmentAfterFin(e.conn, peerSent[ev.i], now);
      }
    } else {
      ActAfterFin(e.conn, ev, now);
    }
  }

  lemma NextAfterFin(s: System, s': System)
    requires Inv(s) && Next(s, s')
    ensures Settled(s.a.conn, s'.a.conn) && Settled(s.b.conn, s'.b.conn)
  {
    var ev: Event, now: nat :| StepA(s, s', ev, now) || StepB(s, s', ev, now);
    if StepA(s, s', ev, now) {
      StepAfterFin(s.a, s.b.conn.h.sent, ev, now);
    } else if s.b.life != Listening {
      StepAfterFin(s.b, s.a.conn.h.sent, ev, now);
    }
  }

  lemma StaysSettled(run: seq<System>, k: nat)
    requires IsRun(run) && BothFit(Last(run)) && k + 1 < |run|
    ensures Settled(run[k].a.conn, run[k + 1].a.conn) && Settled(run[k].b.conn, run[k + 1].b.conn)
  {
    RunInvAt(run, k);
    assert NextAt(run, k);
    NextAfterFin(run[k], run[k + 1]);
  }

  /** In every run, once a FIN is queued that side's `sndNxt` and stream are the same at every later moment. */
  lemma {:induction false} NothingAfterFin(run: seq<System>, i: nat, j: nat)
    requires IsRun(run) && BothFit(Last(run)) && i <= j < |run|
    ensures Settled(run[i].a.conn, run[j].a.conn) && Settled(run[i].b.conn, run[j].b.conn)
    decreases j
  {
    if i < j {
      NothingAfterFin(run, i, j - 1);
      StaysSettled(run, j - 1);
    }
  }

  // ---------------------------------------------------------------- acknowledgements and the window

  predicate TakesAcks(s: TcpState) {
    s in {Established, FinWait1, FinWait2, Closing, CloseWait, LastAck}
  }

  /** The acknowledgement number only moves forward, and the window is the last one heard. */
  predicate AckTaken(c: Conn, c': Conn, m: Segment) {
    && c'.sndUna == (if m.ackNum > c.sndUna then m.ackNum else c.sndUna)
    && c'.sndWnd == m.window
  }

  lemma ProcessAckTakes(c: Conn, m: Segment)
    requires m.flags.ack
    ensures AckTaken(c, ProcessAck(c, m), m)
  {
    RemoveAckedFrame(c.(sndUna := m.ackNum), m.ackNum);
  }

  lemma FlushKeepsWindow(c: Conn, now: nat)
    ensures FlushSend(c, now).sndUna == c.sndUna && FlushSend(c, now).sndWnd == c.sndWnd
  {
    FlushLoopFrame(ArmProbe(c, now), now);
  }

  lemma EstablishedTakes(c: Conn, m: Segment, now: nat)
    requires m.flags.ack
    ensures AckTaken(c, OnEstablished(c, m, now), m) && AckTaken(c, FlushSend(ProcessAck(c, m), now), m)
  {
    ReceiveTakes(c, m);
    EstablishedIs(c, m, now);
    FlushKeepsWindow(Taken(c, m), now);
    ProcessAckTakes(c, m);
    FlushKeepsWindow(ProcessAck(c, m), now);
  }

  lemma ReceiveTakes(c: Conn, m: Segment)
    requires m.flags.ack
    ensures AckTaken(c, AckThenReceive(c, m), m)
  {
    ProcessAckTakes(c, m);
    AbsorbFrame(ProcessAck(c, m), m);
  }

  lemma FinWaitTakes(c: Conn, m: Segment, now: nat)
    requires m.flags.ack
    ensures AckTaken(c, OnFinWait1(c, m, now), m) && AckTaken(c, OnFinWait2(c, m, now), m)
  {
    ReceiveTakes(c, m);
    FinWaitIs(c, m, now);
  }

  lemma ClosingTakes(c: Conn, m: Segment, now: nat)
    requires m.flags.ack
    ensures AckTaken(c, OnClosing(c, m, now), m) && AckTaken(c, OnLastAck(c, m), m)
  {
    ProcessAckTakes(c, m);
    ClosingIs(c, m, now);
  }

  /** In every synchronised state the sender follows the peer's latest acknowledgement and window. */
  lemma SenderFollowsPeer(c: Conn, m: Segment, now: nat)
    requires TakesAcks(c.state) && m.flags.ack && !m.flags.rst
    ensures AckTaken(c, ProcessSegment(c, m, now), m)
  {
    if CanSend(c.state) {
      EstablishedTakes(c, m, now);
    } else {
      ClosingFollows(c, m, now);
    }
  }

  lemma ClosingFollows(c: Conn, m: Segment, now: nat)
    requires c.state in {FinWait1, FinWait2, Closing, LastAck} && m.flags.ack && !m.flags.rst
    ensures AckTaken(c, ProcessSegment(c, m, now), m)
  {
    FinWaitTakes(c, m, now);
    ClosingTakes(c, m, now);
  }

  /** So it does when the acknowledgement of the SYN opens the connection, on either side. */
  lemma OpenerFollowsPeer(c: Conn, m: Segment, now: nat)
    requires m.flags.ack && m.ackNum == c.sndNxt && !m.flags.rst
    requires c.state == SynRcvd || (c.state == SynSent && m.flags.syn)
    ensures var c' := ProcessSegment(c, m, now); c'.sndUna == m.ackNum && c'.sndWnd == m.window
  {
    RemoveAckedFrame(LearnPeer(c, m), m.ackNum);
    AcceptedFrame(c, m);
    AbsorbFrame(Accepted(c, m), m);
  }

  /** The first sequence number the sender may not use. */
  function Limit(c: Conn): nat {
    c.sndUna + c.sndWnd
  }

  /**
   `process_ack` takes the window also from an acknowledgement it otherwise ignores as old.  The limit stays
   within what the peer has said, now or before, exactly when the acknowledgement is not old or does not
   enlarge the window.
   */
  lemma LimitHonestIff(c: Conn, m: Segment, now: nat)
    requires TakesAcks(c.state) && m.flags.ack && !m.flags.rst
    ensures Limit(ProcessSegment(c, m, now)) <= Limit(c) || Limit(ProcessSegment(c, m, now)) <= m.ackNum + m.window
       <==> m.ackNum >= c.sndUna || m.window <= c.sndWnd
  {
    SenderFollowsPeer(c, m, now);
  }

  // ---------------------------------------------------------------- TIME_WAIT

  /** Entering TIME_WAIT, or seeing the peer's FIN again in it, starts four seconds of waiting. */
  lemma TimeWaitLasts(c: Conn, m: Segment, now: nat, later: nat)
    requires !m.flags.rst
    requires ProcessSegment(c, m, now).state == TimeWait && (c.state != TimeWait || m.flags.fin)
    ensures Tick(ProcessSegment(c, m, now), later).state == if later >= now + 4000 then Closed else TimeWait
  {
    match c.state {
      case FinWait1 =>
        AckThenReceiveFrame(c, m);
      case FinWait2 =>
        AckThenReceiveFrame(c, m);
      case Closing => ProcessAckFrame(c, m);
      case TimeWait =>
      case SynSent => HandshakeStates(c, m);
      case SynRcvd => HandshakeStates(c, m);
      case Established => SendingStates(c, m, now);
      case CloseWait => SendingStates(c, m, now);
      case LastAck => ClosingStates(c, m, now);
      case _ =>
    }
  }
}
