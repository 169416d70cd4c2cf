/** What the absence of wrapping buys: nothing is lost, nothing stalls, and a retransmission recovers. */
module Recovery {
  import opened SeqSpace
  import opened Connection
  import opened Invariants
  import opened Pairs
  import opened Sender
  import opened Receiver
  import opened Steps
  import opened TwoEndpoints
  import opened NoLoss
  import opened Window

  // ---------------------------------------------------------------- no byte is lost

  /** Bytes dropped from the queue have been received; all others are still queued or waiting. */
  ghost predicate NothingLost(s: Conn, r: Conn) {
    && s.h.popped <= Delivered(r)
    && s.h.popped + QueueBytes(s.queue) + s.pending == s.h.accepted
    && s.iss <= s.sndUna <= r.rcvNxt <= s.sndNxt
  }

  lemma PairNothingLost(x: Conn, y: Conn)
    requires Pair(x, y) && y.h.synced && Tight(x) && NoWrap(x)
    ensures NothingLost(x, y)
  {
    if x.queue != [] {
      EndOff(x, 0);
    }
    assert x.h.popped <= x.h.out;
    assert |x.h.popped| <= |Delivered(y)|;
  }

  /** However the link behaves, every accepted byte the peer has not taken is still held by the sender. */
  lemma NoByteLost(run: seq<System>)
    requires IsRun(run) && NoneWraps(Last(run))
    ensures var s := Last(run);
      && (s.b.conn.h.synced ==> NothingLost(s.a.conn, s.b.conn))
      && (s.a.conn.h.synced ==> NothingLost(s.b.conn, s.a.conn))
  {
    RunTight(run);
    var s := Last(run);
    if Connected(s) {
      if s.b.conn.h.synced {
        PairNothingLost(s.a.conn, s.b.conn);
      }
      if s.a.conn.h.synced {
        PairNothingLost(s.b.conn, s.a.conn);
      }
    }
  }

  /** FIN_WAIT_2 and TIME_WAIT mean that everything, the FIN included, was acknowledged and received. */
  ghost predicate FullyClosed(s: Conn, r: Conn) {
    s.state == FinWait2 || s.state == TimeWait ==>
      s.sndUna == s.sndNxt && s.queue == [] && r.h.finsTaken == 1 && Delivered(r) == s.h.out
  }

  lemma PairFullyClosed(x: Conn, y: Conn)
    requires Pair(x, y) && Tight(x) && LabelOk(x) && NoWrap(x)
    ensures FullyClosed(x, y)
  {
    if x.state == FinWait2 || x.state == TimeWait {
      if x.queue != [] {
        EndOff(x, 0);
      }
    }
  }

  lemma FinWait2MeansReceived(run: seq<System>)
    requires IsRun(run) && NoneWraps(Last(run))
    ensures FullyClosed(Last(run).a.conn, Last(run).b.conn)
    ensures FullyClosed(Last(run).b.conn, Last(run).a.conn)
  {
    RunTight(run);
    var s := Last(run);
    if Connected(s) {
      PairFullyClosed(s.a.conn, s.b.conn);
      PairFullyClosed(s.b.conn, s.a.conn);
    }
  }

  // ---------------------------------------------------------------- no silent stall

  /** A backlog is always waiting for something that will happen: an acknowledgement or a probe. */
  ghost predicate NotStalled(c: Conn) {
    CanSend(c.state) && c.pending != [] ==> c.queue != [] || c.probeDeadline.Some?
  }

  lemma FlushedNotStalled(c: Conn, now: nat)
    requires UnaOk(FlushSend(c, now)) && CanSend(c.state)
    ensures NotStalled(FlushSend(c, now))
  {
    FlushExit(c, now);
  }

  lemma TickNotStalled(c: Conn, now: nat)
    requires UnaOk(Tick(c, now))
    ensures NotStalled(Tick(c, now))
  {
    if c.state != TimeWait {
      TimersFrame(c, now);
      var c1 := Probe(c, now);
      TimersFrame(c1, now);
      if !GivesUp(c1, now) && CanSend(c.state) {
        FlushedNotStalled(Retransmit(c1, now), now);
      }
    }
  }

  lemma PairTickNotStalled(x: Conn, y: Conn, now: nat)
    requires Pair(x, y) && LabelOk(x) && Tight(x) && Fits(Tick(x, now))
    ensures NotStalled(Tick(x, now))
  {
    TickTight(x, y, now);
    TickNotStalled(x, now);
  }

  /** After every tick, no connection sits on a backlog with neither timer running. */
  lemma NoSilentStall(run: seq<System>, now: nat)
    requires IsRun(run) && NoneWraps(Last(run))
    ensures var s := Last(run);
      && (Fits(Tick(s.a.conn, now)) ==> NotStalled(Tick(s.a.conn, now)))
      && (s.b.life != Listening && Fits(Tick(s.b.conn, now)) ==> NotStalled(Tick(s.b.conn, now)))
  {
    RunTight(run);
    var s := Last(run);
    if Fits(Tick(s.a.conn, now)) {
      PairTickNotStalled(s.a.conn, if Connected(s) then s.b.conn else Nobody(), now);
    }
    if s.b.life != Listening && Fits(Tick(s.b.conn, now)) {
      PairTickNotStalled(s.b.conn, s.a.conn, now);
    }
  }

  // ---------------------------------------------------------------- a retransmission recovers

  /** The front entry is data, and the receiver is in a state that takes data. */
  ghost predicate AwaitsData(x: Conn, y: Conn) {
    && x.queue != [] && x.queue[0].data != []
    && x.state in {Established, FinWait1, CloseWait, Closing, LastAck}
    && y.state in {Established, FinWait1, FinWait2}
  }

  /** The receiver stands at a segment boundary, so the front entry is wholly received or starts right there. */
  lemma FrontIsNextOrOld(x: Conn, y: Conn)
    requires Pair(x, y) && y.h.synced && Tight(x) && NoWrap(x) && x.queue != [] && x.queue[0].data != []
    ensures x.queue[0].seqNum == y.rcvNxt || End(x.queue[0]) <= y.rcvNxt
    ensures x.queue[0].seqNum <= y.rcvNxt
    ensures Honest(StreamOf(x), Resent(x)) && ChunkAt(StreamOf(x), x.queue[0].seqNum, x.queue[0].data)
  {
    EndOff(x, 0);
    assert EntryOk(StreamOf(x), x.h.synced, x.queue[0]);
    assert |Delivered(y)| in StreamOf(x).cuts;
  }

  lemma ReceiveAcks(y: Conn, m: Segment)
    requires m.data != []
    ensures var y' := Receive(y, m);
      y'.h.sent == y.h.sent + [Segment(y.sndNxt, y'.rcvNxt, ACK, AdvertiseWindow(Absorb(y, m)), [])]
  {
    AbsorbFrame(y, m);
  }

  /** The log only grows, so what was appended first stays where it is. */
  lemma FlushLogs(c: Conn, now: nat)
    ensures c.h.sent <= FlushSend(c, now).h.sent && FlushSend(c, now).rcvNxt == c.rcvNxt
  {
    if CanSend(c.state) {
      var ms := FlushLoopFills(ArmProbe(c, now), now);
      FlushLoopFrame(ArmProbe(c, now), now);
    }
  }

  lemma AckThenReceiveLogs(y: Conn, m: Segment)
    requires m.data != []
    ensures var y2 := AckThenReceive(y, m);
      && |y2.h.sent| == |y.h.sent| + 1 && y.h.sent <= y2.h.sent
      && y2.h.sent[|y.h.sent|].flags == ACK && y2.h.sent[|y.h.sent|].ackNum == y2.rcvNxt
  {
    ProcessAckSent(y, m);
    ReceiveAcks(ProcessAck(y, m), m);
  }

  lemma EstablishedLogs(y: Conn, m: Segment, now: nat)
    ensures AckThenReceive(y, m).h.sent <= OnEstablished(y, m, now).h.sent
    ensures OnEstablished(y, m, now).rcvNxt == AckThenReceive(y, m).rcvNxt
  {
    AckThenReceiveFrame(y, m);
    var y2 := AckThenReceive(y, m);
    FlushLogs(if TakesFin(y, m) then y2.(state := CloseWait) else y2, now);
  }

  /** Data that arrives while data is expected is answered at once, new or old. */
  lemma DataIsAcked(y: Conn, m: Segment, now: nat)
    requires y.state in {Established, FinWait1, FinWait2} && m.data != [] && !m.flags.rst
    ensures var y' := ProcessSegment(y, m, now);
      && |y'.h.sent| > |y.h.sent| && y.h.sent <= y'.h.sent
      && y'.h.sent[|y.h.sent|].flags == ACK
      && y'.h.sent[|y.h.sent|].ackNum == y'.rcvNxt == AckThenReceive(y, m).rcvNxt
  {
    AckThenReceiveLogs(y, m);
    if y.state == Established {
      EstablishedLogs(y, m, now);
    }
  }

  lemma ProcessAckSent(y: Conn, m: Segment)
    ensures ProcessAck(y, m).h.sent == y.h.sent
  {
    RemoveAckedFrame(y.(sndUna := m.ackNum), m.ackNum);
  }

  /** A whole segment that starts at or before the receiver's position is behind it afterwards. */
  lemma ReceivedThrough(t: Stream, y: Conn, m: Segment)
    requires RxOk(t, y) && y.h.finsTaken == 0 && t.iss + |t.out| + 2 < MOD && t.fins <= 1
    requires ChunkAt(t, m.seqNum, m.data) && Honest(t, m) && !m.flags.rst
    requires m.seqNum == y.rcvNxt || Off(t.iss, m.seqNum) + |m.data| <= Off(t.iss, y.rcvNxt)
    ensures m.seqNum + |m.data| <= Absorb(y, m).rcvNxt
    ensures t.iss <= Absorb(y, m).rcvNxt
  {
    AbsorbKeeps(t, y, m);
    if m.seqNum == y.rcvNxt {
      OffAdd(t.iss, y.rcvNxt, |m.data|);
      TakeDataKeeps(t, y, m);
      SpliceKeeps(t, TakeData(y, m.data));
    }
    OffNumeric(t.iss, m.seqNum);
    OffNumeric(t.iss, Absorb(y, m).rcvNxt);
  }

  lemma AbsorbAfterAck(y: Conn, m: Segment)
    ensures Absorb(ProcessAck(y, m), m).rcvNxt == AckThenReceive(y, m).rcvNxt
  {
    AbsorbFrame(ProcessAck(y, m), m);
  }

  /** An acknowledgement past the front entry removes it. */
  lemma AckPopsFront(x: Conn, n: Segment)
    requires x.queue != [] && n.flags.ack && n.ackNum > x.sndUna && End(x.queue[0]) <= n.ackNum
    ensures x.h.popped + x.queue[0].data <= ProcessAck(x, n).h.popped
    ensures ProcessAck(x, n).sndUna == n.ackNum
  {
    var x1 := x.(sndUna := n.ackNum);
    RemoveAckedFrame(x1, n.ackNum);
    RemoveAckedFrame(PopFront(x1), n.ackNum);
    RemoveAckedPops(PopFront(x1), n.ackNum);
  }

  lemma FlushPopped(x: Conn, now: nat)
    ensures FlushSend(x, now).h.popped == x.h.popped && FlushSend(x, now).sndUna == x.sndUna
  {
    FlushLoopFrame(ArmProbe(x, now), now);
  }

  lemma EstablishedPopped(x: Conn, n: Segment, now: nat)
    ensures OnEstablished(x, n, now).h.popped == ProcessAck(x, n).h.popped
    ensures OnEstablished(x, n, now).sndUna == ProcessAck(x, n).sndUna
  {
    var x1 := ProcessAck(x, n);
    AbsorbFrame(x1, n);
    var x2 := Receive(x1, n);
    FlushPopped(if TakesFin(x1, n) then x2.(state := CloseWait) else x2, now);
  }

  lemma ClosingPopped(x: Conn, n: Segment, now: nat)
    ensures OnFinWait1(x, n, now).h.popped == OnClosing(x, n, now).h.popped == OnLastAck(x, n).h.popped
            == ProcessAck(x, n).h.popped
    ensures OnFinWait1(x, n, now).sndUna == OnClosing(x, n, now).sndUna == OnLastAck(x, n).sndUna
            == ProcessAck(x, n).sndUna
  {
    FinWaitIs(x, n, now);
    ClosingIs(x, n, now);
    AbsorbFrame(ProcessAck(x, n), n);
  }

  /** Nothing after `process_ack` puts bytes back. */
  lemma SegmentPopped(x: Conn, n: Segment, now: nat)
    requires x.state in {Established, FinWait1, CloseWait, Closing, LastAck} && !n.flags.rst
    ensures ProcessSegment(x, n, now).h.popped == ProcessAck(x, n).h.popped
    ensures ProcessSegment(x, n, now).sndUna == ProcessAck(x, n).sndUna
  {
    match x.state {
      case Established => EstablishedPopped(x, n, now);
      case CloseWait => FlushPopped(ProcessAck(x, n), now);
      case FinWait1 => ClosingPopped(x, n, now);
      case Closing => ClosingPopped(x, n, now);
      case LastAck => ClosingPopped(x, n, now);
    }
  }

  lemma ReceivedAfterAck(x: Conn, y: Conn, m: Segment)
    requires Pair(x, y) && y.h.synced && y.h.finsTaken == 0 && Tight(x) && NoWrap(x)
    requires x.queue != [] && x.queue[0].data != []
    requires m in x.h.sent && !m.flags.rst && m.seqNum == x.queue[0].seqNum && m.data == x.queue[0].data
    requires m.flags.psh
    ensures End(x.queue[0]) <= AckThenReceive(y, m).rcvNxt
  {
    assert SegOk(StreamOf(x), Reach(x, y), m);
    FrontIsNextOrOld(x, y);
    EndOff(x, 0);
    assert EntryOk(StreamOf(x), x.h.synced, x.queue[0]);
    ProcessAckFrame(y, m);
    RxSame(y, ProcessAck(y, m), x);
    ReceivedThrough(StreamOf(x), ProcessAck(y, m), m);
    AbsorbAfterAck(y, m);
  }

  /** The receiver's half of the exchange. */
  lemma CopyIsAcked(x: Conn, y: Conn, m: Segment, now: nat)
    requires Pair(x, y) && LabelOk(y) && Tight(x) && NoWrap(x) && AwaitsData(x, y)
    requires m in x.h.sent && !m.flags.rst && m.seqNum == x.queue[0].seqNum && m.data == x.queue[0].data
    requires m.flags.psh
    ensures var y' := ProcessSegment(y, m, now);
      && |y'.h.sent| > |y.h.sent|
      && y'.h.sent[|y.h.sent|].flags == ACK
      && End(x.queue[0]) <= y'.h.sent[|y.h.sent|].ackNum
  {
    ReceivedAfterAck(x, y, m);
    DataIsAcked(y, m, now);
  }

  /**
   Two hops are enough: if any copy of the front data segment reaches a receiving peer and the
   answer reaches the sender, the segment leaves the queue and `sndUna` moves past it.
   */
  lemma CopyRecovers(x: Conn, y: Conn, m: Segment, now: nat, later: nat)
    requires Pair(x, y) && LabelOk(y) && Tight(x) && NoWrap(x) && AwaitsData(x, y)
    requires m in x.h.sent && !m.flags.rst && m.seqNum == x.queue[0].seqNum && m.data == x.queue[0].data
    requires m.flags.psh
    ensures var y' := ProcessSegment(y, m, now);
      && |y'.h.sent| > |y.h.sent|
      && var x' := ProcessSegment(x, y'.h.sent[|y.h.sent|], later);
         x.h.popped + x.queue[0].data <= x'.h.popped && x.sndUna < x'.sndUna
  {
    CopyIsAcked(x, y, m, now);
    EndOff(x, 0);
    var n := ProcessSegment(y, m, now).h.sent[|y.h.sent|];
    AckPopsFront(x, n);
    SegmentPopped(x, n, later);
  }

  // ---------------------------------------------------------------- from the timeout to the acknowledgement

  /** The front entry's timer has run out and there are retries left. */
  predicate TimesOut(x: Conn, now: nat) {
    x.queue != [] && Expired(x.queue[0], now) && x.queue[0].retryCount < MAX_RETRIES
  }

  /** What the flush leaves alone. */
  lemma FlushFront(c: Conn, now: nat)
    requires c.queue != []
    ensures var c' := FlushSend(c, now);
      && c'.queue != [] && c'.queue[0] == c.queue[0] && c'.h.popped == c.h.popped && c'.sndUna == c.sndUna
      && (c'.state == c.state || (c.state == Established && c'.state == FinWait1)
          || (c.state == CloseWait && c'.state == LastAck))
  {
    FlushLoopFrame(ArmProbe(c, now), now);
    FlushLoopFront(ArmProbe(c, now), now);
  }

  lemma {:induction false} FlushLoopFront(c: Conn, now: nat)
    requires c.queue != []
    ensures FlushLoop(c, now).queue != [] && FlushLoop(c, now).queue[0] == c.queue[0]
    decreases |c.pending|
  {
    if c.pending != [] && Off(c.sndUna, c.sndNxt) < c.sndWnd {
      FlushLoopFront(SendChunk(c, now), now);
    }
  }

  /** The copy of the front segment that `tick` puts on the link, and where. */
  ghost predicate IsCopy(x: Conn, x1: Conn, i: nat) {
    && x.queue != [] && |x.h.sent| <= i < |x1.h.sent|
    && x1.h.sent[i].seqNum == x.queue[0].seqNum && x1.h.sent[i].flags == x.queue[0].flags
    && x1.h.sent[i].data == x.queue[0].data
    && (x.queue[0].flags.ack ==> x1.h.sent[i].ackNum == x.rcvNxt)
  }

  /** `tick` resends the front segment and keeps it at the front. */
  ghost predicate Resends(x: Conn, x1: Conn, i: nat) {
    && IsCopy(x, x1, i)
    && x1.queue != [] && x1.queue[0].seqNum == x.queue[0].seqNum && x1.queue[0].data == x.queue[0].data
    && x1.h.popped == x.h.popped && x1.sndUna == x.sndUna && x1.rcvNxt == x.rcvNxt
    && (x1.state == x.state || x1.state == FinWait1 || x1.state == LastAck)
  }

  lemma TimeoutResends(x: Conn, now: nat) returns (i: nat)
    requires TimesOut(x, now) && x.state != TimeWait
    ensures Resends(x, Tick(x, now), i)
  {
    var x0 := Probe(x, now);
    TimersFrame(x, now);
    ProbeIs(x, now);
    RetransmitIs(x0, now);
    FlushLogs(Retransmit(x0, now), now);
    FlushFront(Retransmit(x0, now), now);
    i := |x0.h.sent|;
  }

  /** The timeout, one delivery and one answer: the front segment is acknowledged and gone. */
  ghost predicate Recovers(x: Conn, y: Conn, timeout: nat, now: nat, later: nat) {
    var x1 := Tick(x, timeout);
    exists i: nat :: IsCopy(x, x1, i) &&
      var y1 := ProcessSegment(y, x1.h.sent[i], now);
      && |y1.h.sent| > |y.h.sent|
      && var x2 := ProcessSegment(x1, y1.h.sent[|y.h.sent|], later);
         x.h.popped + x.queue[0].data <= x2.h.popped && x.sndUna < x2.sndUna
  }

  lemma FrontIsData(x: Conn)
    requires TxOk(x) && x.queue != [] && x.queue[0].data != []
    ensures x.queue[0].flags.psh && x.queue[0].flags.ack && !x.queue[0].flags.rst && !x.queue[0].flags.fin
  {
    assert EntryOk(StreamOf(x), x.h.synced, x.queue[0]);
  }

  lemma PairRecovers(x: Conn, y: Conn, timeout: nat, now: nat, later: nat)
    requires Pair(x, y) && LabelOk(x) && LabelOk(y) && Tight(x) && AwaitsData(x, y)
    requires TimesOut(x, timeout) && NoWrap(Tick(x, timeout))
    ensures Recovers(x, y, timeout, now, later)
  {
    var x1 := Tick(x, timeout);
    var i := TimeoutResends(x, timeout);
    FrontIsData(x);
    TickKeeps(x, y, timeout);
    TickTight(x, y, timeout);
    assert x1.h.sent[i] in x1.h.sent;
    CopyRecovers(x1, y, x1.h.sent[i], now, later);
  }

  /** `x` waits for the acknowledgement of data that a live `y` would take, and its timer has run out. */
  ghost predicate Waiting(x: Endpoint, y: Endpoint, timeout: nat) {
    && x.life == Alive && y.life == Alive && AwaitsData(x.conn, y.conn)
    && TimesOut(x.conn, timeout) && NoWrap(Tick(x.conn, timeout))
  }

  /**
   In any run, in either direction: lose what you like, one surviving retransmission and one surviving
   answer make progress.
   */
  lemma RetransmissionRecovers(run: seq<System>, timeout: nat, now: nat, later: nat)
    requires IsRun(run) && NoneWraps(Last(run))
    ensures var s := Last(run);
      && (Waiting(s.a, s.b, timeout) ==> Recovers(s.a.conn, s.b.conn, timeout, now, later))
      && (Waiting(s.b, s.a, timeout) ==> Recovers(s.b.conn, s.a.conn, timeout, now, later))
  {
    RunTight(run);
    var s := Last(run);
    if Waiting(s.a, s.b, timeout) {
      PairRecovers(s.a.conn, s.b.conn, timeout, now, later);
    }
    if Waiting(s.b, s.a, timeout) {
      PairRecovers(s.b.conn, s.a.conn, timeout, now, later);
    }
  }
}
