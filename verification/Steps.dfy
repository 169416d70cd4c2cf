/** Every step of an endpoint keeps the pair consistent and the state label truthful. */
module Steps {
  import opened SeqSpace
  import opened Connection
  import opened Invariants
  import opened Pairs
  import opened Sender
  import opened Receiver

  // ---------------------------------------------------------------- flush_send and the label

  lemma FlushLabel(c: Conn, now: nat)
    requires LabelCore(c)
    ensures LabelOk(FlushSend(c, now))
  {
    FlushLoopFrame(ArmProbe(c, now), now);
  }

  // ---------------------------------------------------------------- the handshake

  /** A step of the sending half that leaves the stream as it is. */
  lemma TxStep(x: Conn, x': Conn, y: Conn)
    requires Pair(x, y) && TxOk(x') && SameRx(x, x') && StreamOf(x') == StreamOf(x)
    requires Off(x.iss, x'.sndUna) <= Reach(x, y) && x'.h.sent == x.h.sent
    ensures Pair(x', y)
  {
    AcksSame(x, x');
    RxSame(x, x', y);
    LinkGrows(x, x', y);
  }

  /** Learning the peer's initial sequence number. */
  lemma SyncStep(x: Conn, x': Conn, y: Conn)
    requires Pair(x, y) && !x.h.synced
    requires SameTx(x, x') && x'.sndUna == x.sndUna && x'.h.sent == x.h.sent
    requires x'.irs == y.iss && x'.rcvNxt == Add(y.iss, 1) && x'.h.synced
    requires x'.ooo == x.ooo && x'.recvBuf == x.recvBuf
    requires x'.h.handed == x.h.handed && x'.h.finsTaken == x.h.finsTaken
    ensures Pair(x', y)
  {
    TxSame(x, x');
    OffAdd(y.iss, y.iss, 1);
    forall m | m in x'.h.sent
      ensures AckHonest(x', m)
    {
      assert AckHonest(x, m);
    }
    LinkGrows(x, x', y);
    forall m | m in y.h.sent
      ensures SegOk(StreamOf(y), Reach(y, x'), m)
    {
      SegGrows(StreamOf(y), StreamOf(y), Reach(y, x), Reach(y, x'), m);
    }
  }

  /** The active side after the acknowledgement of its SYN. */
  ghost function Opened(x: Conn, m: Segment): Conn {
    RemoveAcked(LearnPeer(x, m), m.ackNum).(state := Established)
  }

  lemma OpenedFrame(x: Conn, m: Segment)
    ensures var x' := Opened(x, m);
      x' == Synchronised(x, m).(state := Established, sndUna := m.ackNum, sndWnd := m.window,
                                queue := x'.queue, h := x.h.(synced := true, popped := x'.h.popped))
  {
    RemoveAckedFrame(LearnPeer(x, m), m.ackNum);
  }

  lemma SynchronisedKeeps(x: Conn, y: Conn, m: Segment)
    requires Pair(x, y) && !x.h.synced && m in y.h.sent && !m.flags.rst && m.flags.syn
    ensures Pair(Synchronised(x, m), y) && m.seqNum == y.iss
  {
    assert SegOk(StreamOf(y), Reach(y, x), m);
    SyncStep(x, Synchronised(x, m), y);
  }

  lemma OpenedKeeps(x: Conn, y: Conn, m: Segment)
    requires Pair(x, y) && !x.h.synced && m in y.h.sent && !m.flags.rst && m.flags.syn && m.flags.ack
    ensures Pair(Opened(x, m), y)
  {
    SynchronisedKeeps(x, y, m);
    AckWithinReach(x, y, m);
    TxSame(x, LearnPeer(x, m));
    RemoveAckedTxOk(LearnPeer(x, m), m.ackNum);
    OpenedFrame(x, m);
    TxSame(RemoveAcked(LearnPeer(x, m), m.ackNum), Opened(x, m));
    TxStep(Synchronised(x, m), Opened(x, m), y);
  }

  lemma SynSentKeeps(x: Conn, y: Conn, m: Segment)
    requires Pair(x, y) && !x.h.synced && m in y.h.sent && !m.flags.rst
    ensures Pair(OnSynSent(x, m), y)
  {
    if m.flags.syn && AcksAll(x, m) {
      OpenedKeeps(x, y, m);
      OpenedFrame(x, m);
      AckOnlyKeeps(Opened(x, m), y);
    }
  }

  /** The passive side after the acknowledgement of its SYN. */
  ghost function Accepted(x: Conn, m: Segment): Conn {
    RemoveAcked(x.(sndUna := m.ackNum), m.ackNum).(sndWnd := m.window, state := Established)
  }

  lemma AcceptedKeeps(x: Conn, y: Conn, m: Segment)
    requires Pair(x, y) && m in y.h.sent && !m.flags.rst && m.flags.ack
    ensures Pair(Accepted(x, m), y)
    ensures var x' := Accepted(x, m);
      x' == x.(sndUna := m.ackNum, sndWnd := m.window, state := Established, queue := x'.queue,
               h := x.h.(popped := x'.h.popped))
  {
    AckWithinReach(x, y, m);
    UnaKeeps(x, y, m.ackNum);
    RemoveAckedFrame(x.(sndUna := m.ackNum), m.ackNum);
    OtherFieldsKeep(RemoveAcked(x.(sndUna := m.ackNum), m.ackNum), Accepted(x, m), y);
  }

  lemma SynRcvdKeeps(x: Conn, y: Conn, m: Segment)
    requires Pair(x, y) && x.h.synced && x.h.finsTaken == 0 && m in y.h.sent && !m.flags.rst
    ensures Pair(OnSynRcvd(x, m), y)
  {
    if AcksAll(x, m) {
      AcceptedKeeps(x, y, m);
      if m.data != [] || m.flags.fin {
        ReceiveKeeps(Accepted(x, m), y, m);
        OtherFieldsKeep(Receive(Accepted(x, m), m), OnSynRcvd(x, m), y);
      }
    }
  }

  // ---------------------------------------------------------------- synchronised states

  /** `process_ack` followed by `receive_data_and_maybe_fin`. */
  ghost function AckThenReceive(x: Conn, m: Segment): Conn {
    Receive(ProcessAck(x, m), m)
  }

  /** What these two do to the fields the state label speaks of. */
  ghost predicate Processed(x: Conn, x': Conn, ack: bool, fin: bool) {
    && x'.state == x.state && x'.iss == x.iss && x'.h.synced == x.h.synced
    && x'.pending == x.pending && x'.pendingClose == x.pendingClose
    && x'.h.out == x.h.out && x'.h.fins == x.h.fins && x'.sndNxt == x.sndNxt
    && x'.h.finsTaken == x.h.finsTaken + (if fin then 1 else 0)
    && (x'.sndUna == x.sndUna || ack)
  }

  lemma ProcessAckFrame(x: Conn, m: Segment)
    ensures Processed(x, ProcessAck(x, m), m.flags.ack && ProcessAck(x, m).sndUna == m.ackNum, false)
    ensures SameRx(x, ProcessAck(x, m))
  {
    RemoveAckedFrame(x.(sndUna := m.ackNum), m.ackNum);
  }

  lemma ReceiveFrame(x: Conn, m: Segment)
    ensures Processed(x, Receive(x, m), false, TakesFin(x, m))
  {
    AbsorbFrame(x, m);
  }

  lemma AckThenReceiveFrame(x: Conn, m: Segment)
    ensures Processed(x, AckThenReceive(x, m), m.flags.ack && AckThenReceive(x, m).sndUna == m.ackNum,
                      TakesFin(x, m))
    ensures AcksAll(ProcessAck(x, m), m) == AcksAll(x, m)
    ensures TakesFin(ProcessAck(x, m), m) == TakesFin(x, m)
  {
    ProcessAckFrame(x, m);
    ReceiveFrame(ProcessAck(x, m), m);
  }

  lemma AckThenReceiveKeeps(x: Conn, y: Conn, m: Segment)
    requires Pair(x, y) && x.h.synced && x.h.finsTaken == 0 && m in y.h.sent && !m.flags.rst
    ensures Pair(AckThenReceive(x, m), y)
  {
    ProcessAckKeeps(x, y, m);
    ProcessAckFrame(x, m);
    ReceiveKeeps(ProcessAck(x, m), y, m);
  }

  /** Changing the label and the timers changes nothing else. */
  lemma RelabelKeeps(x: Conn, y: Conn, s: TcpState, deadline: nat)
    requires Pair(x, y)
    ensures Pair(x.(state := s), y)
    ensures Pair(x.(state := s, timeWaitDeadline := deadline), y)
  {
    OtherFieldsKeep(x, x.(state := s), y);
    OtherFieldsKeep(x, x.(state := s, timeWaitDeadline := deadline), y);
  }

  /** The state after a segment in ESTABLISHED, before the flush. */
  ghost function Taken(x: Conn, m: Segment): Conn {
    AckThenReceive(x, m).(state := if TakesFin(x, m) then CloseWait else AckThenReceive(x, m).state)
  }

  lemma EstablishedIs(x: Conn, m: Segment, now: nat)
    ensures OnEstablished(x, m, now) == FlushSend(Taken(x, m), now)
  {
    AckThenReceiveFrame(x, m);
  }

  /** Only the label and the TIME_WAIT deadline differ, and sending does not start. */
  predicate Relabelled(c: Conn, c': Conn) {
    && c' == c.(state := c'.state, timeWaitDeadline := c'.timeWaitDeadline)
    && (c'.state == c.state || !CanSend(c'.state))
  }

  lemma FinWaitIs(x: Conn, m: Segment, now: nat)
    ensures Relabelled(AckThenReceive(x, m), OnFinWait1(x, m, now))
    ensures Relabelled(AckThenReceive(x, m), OnFinWait2(x, m, now))
  {
  }

  lemma ClosingIs(x: Conn, m: Segment, now: nat)
    ensures Relabelled(ProcessAck(x, m), OnClosing(x, m, now))
    ensures Relabelled(ProcessAck(x, m), OnLastAck(x, m))
  {
  }

  lemma RelabelledKeeps(x: Conn, x': Conn, y: Conn)
    requires Pair(x, y) && Relabelled(x, x')
    ensures Pair(x', y)
  {
    OtherFieldsKeep(x, x', y);
  }

  lemma EstablishedKeeps(x: Conn, y: Conn, m: Segment, now: nat)
    requires Pair(x, y) && LabelOk(x) && x.state == Established && m in y.h.sent && !m.flags.rst
    requires Fits(OnEstablished(x, m, now))
    ensures Pair(OnEstablished(x, m, now), y)
  {
    AckThenReceiveKeeps(x, y, m);
    AckThenReceiveFrame(x, m);
    RelabelKeeps(AckThenReceive(x, m), y, Taken(x, m).state, 0);
    EstablishedIs(x, m, now);
    FlushKeeps(Taken(x, m), y, now);
  }

  lemma FinWaitKeeps(x: Conn, y: Conn, m: Segment, now: nat)
    requires Pair(x, y) && m in y.h.sent && !m.flags.rst && x.h.synced && x.h.finsTaken == 0
    ensures Pair(OnFinWait1(x, m, now), y) && Pair(OnFinWait2(x, m, now), y)
  {
    AckThenReceiveKeeps(x, y, m);
    FinWaitIs(x, m, now);
    RelabelledKeeps(AckThenReceive(x, m), OnFinWait1(x, m, now), y);
    RelabelledKeeps(AckThenReceive(x, m), OnFinWait2(x, m, now), y);
  }

  lemma ClosingKeeps(x: Conn, y: Conn, m: Segment, now: nat)
    requires Pair(x, y) && m in y.h.sent && !m.flags.rst
    ensures Pair(OnClosing(x, m, now), y)
    ensures Pair(OnLastAck(x, m), y)
  {
    ProcessAckKeeps(x, y, m);
    ClosingIs(x, m, now);
    RelabelledKeeps(ProcessAck(x, m), OnClosing(x, m, now), y);
    RelabelledKeeps(ProcessAck(x, m), OnLastAck(x, m), y);
  }

  lemma CloseWaitKeeps(x: Conn, y: Conn, m: Segment, now: nat)
    requires Pair(x, y) && m in y.h.sent && !m.flags.rst
    requires x.h.synced && x.h.fins == 0
    requires Fits(FlushSend(ProcessAck(x, m), now))
    ensures Pair(FlushSend(ProcessAck(x, m), now), y)
  {
    ProcessAckKeeps(x, y, m);
    ProcessAckFrame(x, m);
    FlushKeeps(ProcessAck(x, m), y, now);
  }

  lemma TimeWaitKeeps(x: Conn, y: Conn, m: Segment, now: nat)
    requires Pair(x, y) && x.h.synced
    ensures Pair(OnTimeWait(x, m, now), y)
  {
    AckOnlyKeeps(x, y);
    OtherFieldsKeep(SendAckOnly(x), SendAckOnly(x).(timeWaitDeadline := now + TIME_WAIT_DURATION), y);
  }

  lemma SegmentKeeps(x: Conn, y: Conn, m: Segment, now: nat)
    requires Pair(x, y) && LabelOk(x) && m in y.h.sent
    requires Fits(ProcessSegment(x, m, now))
    ensures Pair(ProcessSegment(x, m, now), y)
  {
    if m.flags.rst {
      RelabelKeeps(x, y, Closed, 0);
    } else {
      match x.state {
        case SynSent => SynSentKeeps(x, y, m);
        case SynRcvd => SynRcvdKeeps(x, y, m);
        case Established => EstablishedKeeps(x, y, m, now);
        case FinWait1 => FinWaitKeeps(x, y, m, now);
        case FinWait2 => FinWaitKeeps(x, y, m, now);
        case Closing => ClosingKeeps(x, y, m, now);
        case CloseWait => CloseWaitKeeps(x, y, m, now);
        case LastAck => ClosingKeeps(x, y, m, now);
        case TimeWait => TimeWaitKeeps(x, y, m, now);
        case Closed =>
      }
    }
  }

  // ---------------------------------------------------------------- the label after a segment

  /** Every acknowledgement that can arrive covers at least the SYN. */
  ghost predicate AckCoversSyn(x: Conn, m: Segment) {
    m.flags.ack && !m.flags.rst ==> m.ackNum != x.iss
  }

  lemma SynSentLabel(x: Conn, m: Segment)
    requires LabelOk(x) && AckCoversSyn(x, m) && !m.flags.rst && x.state == SynSent
    ensures LabelOk(OnSynSent(x, m))
  {
    OpenedFrame(x, m);
  }

  /** Opening on the passive side leaves the receiving half alone. */
  lemma AcceptedFrame(x: Conn, m: Segment)
    ensures var x' := Accepted(x, m);
      x' == x.(sndUna := m.ackNum, sndWnd := m.window, state := Established, queue := x'.queue,
               h := x.h.(popped := x'.h.popped))
  {
    RemoveAckedFrame(x.(sndUna := m.ackNum), m.ackNum);
  }

  lemma SynRcvdLabel(x: Conn, m: Segment)
    requires LabelOk(x) && AckCoversSyn(x, m) && !m.flags.rst && x.state == SynRcvd
    ensures LabelOk(OnSynRcvd(x, m))
  {
    AcceptedFrame(x, m);
    ReceiveFrame(Accepted(x, m), m);
  }

  lemma EstablishedLabel(x: Conn, m: Segment, now: nat)
    requires LabelOk(x) && AckCoversSyn(x, m) && !m.flags.rst
    ensures x.state == Established ==> LabelOk(OnEstablished(x, m, now))
    ensures x.state == CloseWait ==> LabelOk(FlushSend(ProcessAck(x, m), now))
  {
    AckThenReceiveFrame(x, m);
    ProcessAckFrame(x, m);
    if x.state == Established {
      EstablishedIs(x, m, now);
      FlushLabel(Taken(x, m), now);
    } else if x.state == CloseWait {
      FlushLabel(ProcessAck(x, m), now);
    }
  }

  lemma FinWaitLabel(x: Conn, m: Segment, now: nat)
    requires LabelOk(x) && AckCoversSyn(x, m) && !m.flags.rst
    ensures x.state == FinWait1 ==> LabelOk(OnFinWait1(x, m, now))
    ensures x.state == FinWait2 ==> LabelOk(OnFinWait2(x, m, now))
  {
    AckThenReceiveFrame(x, m);
  }

  lemma ClosingLabel(x: Conn, m: Segment, now: nat)
    requires LabelOk(x) && AckCoversSyn(x, m) && !m.flags.rst
    ensures x.state == Closing ==> LabelOk(OnClosing(x, m, now))
    ensures x.state == LastAck ==> LabelOk(OnLastAck(x, m))
    ensures x.state == TimeWait ==> LabelOk(OnTimeWait(x, m, now))
  {
    ProcessAckFrame(x, m);
  }

  lemma SegmentLabel(x: Conn, m: Segment, now: nat)
    requires LabelOk(x) && AckCoversSyn(x, m)
    ensures LabelOk(ProcessSegment(x, m, now))
  {
    if !m.flags.rst {
      match x.state {
        case SynSent => SynSentLabel(x, m);
        case SynRcvd => SynRcvdLabel(x, m);
        case Established => EstablishedLabel(x, m, now);
        case CloseWait => EstablishedLabel(x, m, now);
        case FinWait1 => FinWaitLabel(x, m, now);
        case FinWait2 => FinWaitLabel(x, m, now);
        case Closed =>
        case _ => ClosingLabel(x, m, now);
      }
    }
  }

  // ---------------------------------------------------------------- timers

  predicate ProbeDue(x: Conn, now: nat) {
    CanSend(x.state) && x.probeDeadline.Some? && now >= x.probeDeadline.value
  }

  ghost function ProbeSegment(x: Conn): Segment {
    Segment(Add(x.sndUna, MOD - 1), x.rcvNxt, ACK, AdvertiseWindow(x), [0])
  }

  lemma ProbeIs(x: Conn, now: nat)
    ensures var x' := Probe(x, now);
      x' == (if ProbeDue(x, now) then Log(x, ProbeSegment(x)) else x).(
              probeDeadline := x'.probeDeadline, probeRto := x'.probeRto)
  {
  }

  /** The probe's sequence number was acknowledged, so the peer is past it. */
  lemma ProbeSegmentOk(x: Conn, y: Conn)
    requires Pair(x, y) && x.sndUna != x.iss && x.h.synced
    ensures StaleProbe(StreamOf(x), Reach(x, y), ProbeSegment(x)) && AckHonest(x, ProbeSegment(x))
  {
  }

  lemma ProbeKeeps(x: Conn, y: Conn, now: nat)
    requires Pair(x, y) && LabelOk(x)
    ensures Pair(Probe(x, now), y)
  {
    ProbeIs(x, now);
    if ProbeDue(x, now) {
      ProbeSegmentOk(x, y);
      LogKeeps(x, y, ProbeSegment(x));
      OtherFieldsKeep(Log(x, ProbeSegment(x)), Probe(x, now), y);
    } else {
      OtherFieldsKeep(x, Probe(x, now), y);
    }
  }

  /** The front of the queue with its timer restarted. */
  function Restarted(x: Conn, now: nat): Unacked
    requires x.queue != []
  {
    var f := x.queue[0];
    f.(sentAt := now, rto := Min(f.rto * 2, MAX_RTO), retryCount := f.retryCount + 1, sends := f.sends + [now])
  }

  lemma RestartTxOk(x: Conn, f: Unacked)
    requires TxOk(x) && x.queue != []
    requires f.seqNum == x.queue[0].seqNum && f.flags == x.queue[0].flags && f.data == x.queue[0].data
    ensures TxOk(x.(queue := x.queue[0 := f]))
  {
    var x' := x.(queue := x.queue[0 := f]);
    forall i | 0 <= i < |x'.queue|
      ensures EntryOk(StreamOf(x'), x'.h.synced, x'.queue[i])
      ensures Off(x'.iss, x'.queue[i].seqNum) + SegLen(x'.queue[i].flags, x'.queue[i].data) == NextOff(x', i)
    {
      assert EntryOk(StreamOf(x), x.h.synced, x.queue[i]);
      assert NextOff(x', i) == NextOff(x, i);
    }
    assert x'.queue[1..] == x.queue[1..];
  }

  /** What goes on the link when the front of the queue is sent again. */
  ghost function Resent(x: Conn): Segment
    requires x.queue != []
  {
    var f := x.queue[0];
    Segment(f.seqNum, if f.flags.ack then x.rcvNxt else 0, f.flags, AdvertiseWindow(x), f.data)
  }

  lemma RetransmitIs(x: Conn, now: nat)
    ensures Retransmit(x, now) ==
            if x.queue != [] && Expired(x.queue[0], now)
            then Log(x, Resent(x)).(queue := x.queue[0 := Restarted(x, now)]) else x
  {
  }

  lemma ResentKeeps(x: Conn, y: Conn)
    requires Pair(x, y) && x.queue != []
    ensures Pair(Log(x, Resent(x)), y)
  {
    assert EntryOk(StreamOf(x), x.h.synced, x.queue[0]);
    LogKeeps(x, y, Resent(x));
  }

  lemma RestartKeeps(x: Conn, y: Conn, f: Unacked)
    requires Pair(x, y) && x.queue != []
    requires f.seqNum == x.queue[0].seqNum && f.flags == x.queue[0].flags && f.data == x.queue[0].data
    ensures Pair(x.(queue := x.queue[0 := f]), y)
  {
    RestartTxOk(x, f);
    TxStep(x, x.(queue := x.queue[0 := f]), y);
  }

  lemma RetransmitKeeps(x: Conn, y: Conn, now: nat)
    requires Pair(x, y)
    ensures Pair(Retransmit(x, now), y)
  {
    RetransmitIs(x, now);
    if x.queue != [] && Expired(x.queue[0], now) {
      ResentKeeps(x, y);
      RestartKeeps(Log(x, Resent(x)), y, Restarted(x, now));
    }
  }

  /** The facts a flush depends on are those of `x`. */
  predicate SameLabel(x: Conn, x': Conn) {
    x'.state == x.state && x'.h.synced == x.h.synced && x'.h.fins == x.h.fins
  }

  lemma FlushedKeeps(x: Conn, x': Conn, y: Conn, now: nat)
    requires Pair(x', y) && LabelOk(x) && SameLabel(x, x') && Fits(FlushSend(x', now))
    ensures Pair(FlushSend(x', now), y)
  {
    FlushKeeps(x', y, now);
  }

  /** The timers touch nothing but themselves and the output. */
  ghost predicate OnlyTimers(x: Conn, x': Conn) {
    x' == x.(probeDeadline := x'.probeDeadline, probeRto := x'.probeRto, queue := x'.queue,
             h := x.h.(sent := x'.h.sent))
  }

  lemma TimersFrame(x: Conn, now: nat)
    ensures OnlyTimers(x, Probe(x, now))
    ensures OnlyTimers(x, Retransmit(x, now))
  {
    ProbeIs(x, now);
    RetransmitIs(x, now);
  }

  lemma TickKeeps(x: Conn, y: Conn, now: nat)
    requires Pair(x, y) && LabelOk(x) && Fits(Tick(x, now))
    ensures Pair(Tick(x, now), y)
  {
    if x.state == TimeWait {
      RelabelKeeps(x, y, Closed, 0);
    } else {
      ProbeKeeps(x, y, now);
      TimersFrame(x, now);
      if GivesUp(Probe(x, now), now) {
        RelabelKeeps(Probe(x, now), y, Closed, 0);
      } else {
        TickRestKeeps(x, Probe(x, now), y, now);
      }
    }
  }

  lemma TickRestKeeps(x: Conn, x1: Conn, y: Conn, now: nat)
    requires Pair(x1, y) && LabelOk(x) && OnlyTimers(x, x1)
    requires Fits(FlushSend(Retransmit(x1, now), now))
    ensures Pair(FlushSend(Retransmit(x1, now), now), y)
  {
    RetransmitKeeps(x1, y, now);
    TimersFrame(x1, now);
    FlushedKeeps(x, Retransmit(x1, now), y, now);
  }

  lemma TickLabel(x: Conn, now: nat)
    requires LabelOk(x)
    ensures LabelOk(Tick(x, now))
  {
    TimersFrame(x, now);
    TimersFrame(Probe(x, now), now);
    FlushLabel(Retransmit(Probe(x, now), now), now);
  }

  // ---------------------------------------------------------------- application calls

  lemma BackloggedKeeps(x: Conn, y: Conn, d: seq<Byte>)
    requires Pair(x, y)
    ensures Pair(Backlogged(x, d), y)
  {
    assert x.h.out + (x.pending + d) == x.h.out + x.pending + d;
    BacklogTxOk(x, Backlogged(x, d));
    TxStep(x, Backlogged(x, d), y);
  }

  lemma SendKeeps(x: Conn, y: Conn, data: seq<Byte>, now: nat)
    requires Pair(x, y) && LabelOk(x) && Fits(Send(x, data, now))
    ensures Pair(Send(x, data, now), y)
  {
    BackloggedKeeps(x, y, data[..Accepts(x, data)]);
    FlushedKeeps(x, Backlogged(x, data[..Accepts(x, data)]), y, now);
  }

  /** The backlog may grow as long as the accepted bytes do. */
  lemma BacklogTxOk(x: Conn, x': Conn)
    requires TxOk(x)
    requires SameTx(x, x'.(pending := x.pending, h := x'.h.(accepted := x.h.accepted)))
    requires x'.h.out + x'.pending == x'.h.accepted
    ensures TxOk(x')
  {
    TxSame(x, x'.(pending := x.pending, h := x'.h.(accepted := x.h.accepted)));
    var x0 := x'.(pending := x.pending, h := x'.h.(accepted := x.h.accepted));
    forall i | 0 <= i < |x'.queue|
      ensures EntryOk(StreamOf(x'), x'.h.synced, x'.queue[i])
      ensures Off(x'.iss, x'.queue[i].seqNum) + SegLen(x'.queue[i].flags, x'.queue[i].data) == NextOff(x', i)
    {
      assert EntryOk(StreamOf(x0), x0.h.synced, x0.queue[i]);
      assert NextOff(x', i) == NextOff(x0, i);
    }
  }

  lemma SendLabel(x: Conn, data: seq<Byte>, now: nat)
    requires LabelOk(x)
    ensures LabelOk(Send(x, data, now))
  {
    FlushLabel(Backlogged(x, data[..Accepts(x, data)]), now);
  }

  lemma CloseKeeps(x: Conn, y: Conn, now: nat)
    requires Pair(x, y) && LabelOk(x) && Fits(Close(x, now))
    ensures Pair(Close(x, now), y)
  {
    if CanSend(x.state) {
      OtherFieldsKeep(x, x.(pendingClose := true), y);
      FlushedKeeps(x, x.(pendingClose := true), y, now);
    } else {
      RelabelKeeps(x, y, Closed, 0);
    }
  }

  lemma CloseLabel(x: Conn, now: nat)
    requires LabelOk(x)
    ensures LabelOk(Close(x, now))
  {
    if CanSend(x.state) {
      FlushLabel(x.(pendingClose := true), now);
    }
  }
}
