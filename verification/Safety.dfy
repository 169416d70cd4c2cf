/**
 What holds in every run, however segments are lost, duplicated or reordered and
 wherever in the 32-bit sequence space the connection starts: the only
 assumption is that neither direction uses 2^32 sequence numbers in all.
 */
module Safety {
  import opened SeqSpace
  import opened Connection
  import opened Invariants
  import opened Sender
  import opened Receiver
  import opened Steps
  import opened TwoEndpoints

  // ---------------------------------------------------------------- delivery

  lemma PairDelivers(x: Conn, y: Conn)
    requires Pair(x, y)
    ensures Delivered(y) <= x.h.accepted
  {
    assert x.h.out <= x.h.accepted;
  }

  /** What each application has read, followed by what it can read next, is a prefix of what the other sent. */
  lemma EndToEndSafety(run: seq<System>)
    requires IsRun(run) && BothFit(Last(run))
    ensures var s := Last(run);
      && Delivered(s.b.conn) <= s.a.conn.h.accepted
      && Delivered(s.a.conn) <= s.b.conn.h.accepted
  {
    RunInv(run);
    var s := Last(run);
    if Connected(s) {
      PairDelivers(s.a.conn, s.b.conn);
      PairDelivers(s.b.conn, s.a.conn);
    }
  }

  // ---------------------------------------------------------------- acknowledgements

  /** `sndUna`, the receiver's position, and `sndNxt` in this order; every acknowledgement in flight below. */
  ghost predicate InSequence(s: Conn, r: Conn) {
    && r.irs == s.iss
    && Off(s.iss, s.sndUna) <= Off(s.iss, r.rcvNxt) <= Off(s.iss, s.sndNxt)
    && forall m :: m in r.h.sent && m.flags.ack && !m.flags.rst ==>
         Off(s.iss, m.ackNum) <= Off(s.iss, r.rcvNxt)
  }

  lemma PairInSequence(x: Conn, y: Conn)
    requires Pair(x, y) && y.h.synced
    ensures InSequence(x, y)
  {
    forall m | m in y.h.sent && m.flags.ack && !m.flags.rst
      ensures Off(x.iss, m.ackNum) <= Off(x.iss, y.rcvNxt)
    {
      AckWithinReach(x, y, m);
    }
  }

  /** `process_ack` never checks `ackNum` against `sndNxt`; it never needs to. */
  lemma AcksNeverRunAhead(run: seq<System>)
    requires IsRun(run) && BothFit(Last(run))
    ensures var s := Last(run);
      && (s.b.conn.h.synced ==> InSequence(s.a.conn, s.b.conn))
      && (s.a.conn.h.synced ==> InSequence(s.b.conn, s.a.conn))
  {
    RunInv(run);
    var s := Last(run);
    if Connected(s) {
      if s.b.conn.h.synced {
        PairInSequence(s.a.conn, s.b.conn);
      }
      if s.a.conn.h.synced {
        PairInSequence(s.b.conn, s.a.conn);
      }
    }
  }

  // ---------------------------------------------------------------- the persist probe

  /** `tick` sends the probe with ACK alone; data goes out with PSH. */
  predicate IsProbe(m: Segment) {
    m.data != [] && !m.flags.psh && !m.flags.rst
  }

  /** Nothing the application can see has moved. */
  predicate SameDelivery(x: Conn, x': Conn) {
    x'.rcvNxt == x.rcvNxt && x'.recvBuf == x.recvBuf && x'.h.handed == x.h.handed
  }

  /** At most `m`'s own entry of the out-of-order buffer has changed besides. */
  predicate NotTaken(x: Conn, x': Conn, m: Segment) {
    SameDelivery(x, x') && (x'.ooo == x.ooo || x'.ooo == x.ooo[m.seqNum := m.data])
  }

  /** What is new in the out-of-order buffer lies behind the receiver's position, where it is never read. */
  predicate Harmless(x: Conn, x': Conn) {
    && SameDelivery(x, x')
    && forall k :: k in x'.ooo ==> (k in x.ooo && x'.ooo[k] == x.ooo[k]) || Off(x.irs, k) < Off(x.irs, x.rcvNxt)
  }

  lemma FlushNotTaken(x: Conn, now: nat)
    ensures SameDelivery(x, FlushSend(x, now)) && FlushSend(x, now).ooo == x.ooo
  {
    FlushLoopFrame(ArmProbe(x, now), now);
  }

  lemma OldSegmentReceived(x: Conn, m: Segment)
    requires m.seqNum != x.rcvNxt
    ensures NotTaken(x, Receive(x, m), m) && NotTaken(x, AckThenReceive(x, m), m)
  {
    ProcessAckFrame(x, m);
    AbsorbFrame(x, m);
    AbsorbFrame(ProcessAck(x, m), m);
  }

  lemma OldSegmentSynRcvd(x: Conn, m: Segment)
    requires m.seqNum != x.rcvNxt
    ensures NotTaken(x, OnSynRcvd(x, m), m)
  {
    var x1 := x.(sndUna := m.ackNum);
    RemoveAckedFrame(x1, m.ackNum);
    OldSegmentReceived(RemoveAcked(x1, m.ackNum).(sndWnd := m.window, state := Established), m);
  }

  lemma OldSegmentSending(x: Conn, m: Segment, now: nat)
    requires m.seqNum != x.rcvNxt
    ensures NotTaken(x, OnEstablished(x, m, now), m)
    ensures NotTaken(x, FlushSend(ProcessAck(x, m), now), m)
  {
    ProcessAckFrame(x, m);
    AckThenReceiveFrame(x, m);
    OldSegmentReceived(x, m);
    FlushNotTaken(AckThenReceive(x, m), now);
    FlushNotTaken(ProcessAck(x, m), now);
  }

  lemma OldSegmentClosing(x: Conn, m: Segment, now: nat)
    requires m.seqNum != x.rcvNxt
    ensures NotTaken(x, OnFinWait1(x, m, now), m) && NotTaken(x, OnFinWait2(x, m, now), m)
    ensures NotTaken(x, OnClosing(x, m, now), m) && NotTaken(x, OnLastAck(x, m), m)
  {
    ProcessAckFrame(x, m);
    OldSegmentReceived(x, m);
  }

  /** A segment that does not start at `rcvNxt` delivers nothing, in any state. */
  lemma OldSegmentIgnored(x: Conn, m: Segment, now: nat)
    requires m.seqNum != x.rcvNxt && !m.flags.syn
    ensures NotTaken(x, ProcessSegment(x, m, now), m)
  {
    match x.state {
      case SynRcvd => OldSegmentSynRcvd(x, m);
      case Established => OldSegmentSending(x, m, now);
      case CloseWait => OldSegmentSending(x, m, now);
      case SynSent =>
      case TimeWait =>
      case Closed =>
      case Listen =>
      case _ => OldSegmentClosing(x, m, now);
    }
  }

  lemma ProbeStale(x: Conn, y: Conn, m: Segment)
    requires Pair(x, y) && m in x.h.sent && IsProbe(m)
    ensures y.h.synced && y.irs == x.iss && Off(x.iss, m.seqNum) < Off(x.iss, y.rcvNxt) && !m.flags.syn
  {
    assert SegOk(StreamOf(x), Reach(x, y), m);
  }

  lemma ProbeDelivery(x: Conn, e: Endpoint, m: Segment, iss: U32, now: nat)
    requires Pair(x, e.conn) && m in x.h.sent && IsProbe(m) && e.life != Listening
    ensures Harmless(e.conn, HandleSegment(e, m, iss, now).conn)
  {
    ProbeStale(x, e.conn, m);
    OldSegmentIgnored(e.conn, m, now);
  }

  lemma SynsAreNoProbes(x: Conn, m: Segment)
    requires Pair(x, Nobody()) && m in x.h.sent
    ensures !IsProbe(m)
  {
    assert SegOk(StreamOf(x), 0, m);
  }

  /**
   The dummy byte of a persist probe never reaches the peer's application, whatever state the peer is in.
   Should the receiver's counter have wrapped, it may be buffered, but only behind the receiver's position.
   */
  lemma ProbeNeverDelivered(run: seq<System>, m: Segment, iss: U32, now: nat)
    requires IsRun(run) && BothFit(Last(run)) && IsProbe(m)
    ensures var s := Last(run);
      && (m in s.a.conn.h.sent ==> Harmless(s.b.conn, HandleSegment(s.b, m, iss, now).conn))
      && (m in s.b.conn.h.sent ==> Harmless(s.a.conn, HandleSegment(s.a, m, iss, now).conn))
  {
    RunInv(run);
    var s := Last(run);
    if Connected(s) {
      if m in s.a.conn.h.sent {
        ProbeDelivery(s.a.conn, s.b, m, iss, now);
      }
      if m in s.b.conn.h.sent {
        ProbeDelivery(s.b.conn, s.a, m, iss, now);
      }
    } else if m in s.a.conn.h.sent {
      SynsAreNoProbes(s.a.conn, m);
    }
  }

  // ---------------------------------------------------------------- what is on the link

  /** Every data segment, first sent or sent again, carries the stream's bytes at its own place. */
  ghost predicate CarriesStream(c: Conn, m: Segment) {
    var o := Off(c.iss, m.seqNum) - 1;
    0 <= o && o + |m.data| <= |c.h.accepted| && m.data == c.h.accepted[o..o + |m.data|] && |m.data| > 0
  }

  /** The FIN occupies the first sequence number after the last byte. */
  ghost predicate ClosesStream(c: Conn, m: Segment) {
    c.h.fins == 1 && Off(c.iss, m.seqNum) == |c.h.out| + 1 && c.h.out <= c.h.accepted
  }

  ghost predicate OnWire(c: Conn) {
    && c.h.fins <= 1
    && (forall m :: m in c.h.sent && m.flags.psh && !m.flags.rst && m.data != [] ==> CarriesStream(c, m))
    && (forall m :: m in c.h.sent && m.flags.fin && !m.flags.rst ==> ClosesStream(c, m))
  }

  lemma PairOnWire(x: Conn, y: Conn)
    requires Pair(x, y)
    ensures OnWire(x)
  {
    forall m | m in x.h.sent && !m.flags.rst
      ensures m.flags.psh && m.data != [] ==> CarriesStream(x, m)
      ensures m.flags.fin ==> ClosesStream(x, m)
    {
      assert SegOk(StreamOf(x), Reach(x, y), m);
      if m.flags.psh && m.data != [] {
        var o := Off(x.iss, m.seqNum) - 1;
        assert x.h.accepted[o..o + |m.data|] == x.h.out[o..o + |m.data|];
      }
    }
  }

  /** Everything on the link tells the truth about the sender's stream, and there is at most one FIN. */
  lemma WireIsHonest(run: seq<System>)
    requires IsRun(run) && BothFit(Last(run))
    ensures OnWire(Last(run).a.conn) && OnWire(Last(run).b.conn)
  {
    RunInv(run);
    var s := Last(run);
    if Connected(s) {
      PairOnWire(s.a.conn, s.b.conn);
      PairOnWire(s.b.conn, s.a.conn);
    } else {
      PairOnWire(s.a.conn, Nobody());
    }
  }

  // ---------------------------------------------------------------- conservation

  /** Nothing accepted is lost or invented on the sending side, and the queue is one contiguous run. */
  ghost predicate Conserves(c: Conn) {
    && c.h.popped + QueueBytes(c.queue) + c.pending == c.h.accepted
    && (forall i :: 0 <= i < |c.queue| ==> 0 < SegLen(c.queue[i].flags, c.queue[i].data))
    && (forall i {:trigger NextOff(c, i)} :: 0 <= i < |c.queue| ==>
          Off(c.iss, c.queue[i].seqNum) + SegLen(c.queue[i].flags, c.queue[i].data) == NextOff(c, i))
  }

  lemma TxConserves(c: Conn)
    requires TxOk(c)
    ensures Conserves(c)
  {
    forall i | 0 <= i < |c.queue|
      ensures 0 < SegLen(c.queue[i].flags, c.queue[i].data)
    {
      assert EntryOk(StreamOf(c), c.h.synced, c.queue[i]);
    }
  }

  lemma SenderConserves(run: seq<System>)
    requires IsRun(run) && BothFit(Last(run))
    ensures Conserves(Last(run).a.conn) && Conserves(Last(run).b.conn)
  {
    RunInv(run);
    var s := Last(run);
    TxConserves(s.a.conn);
    if Connected(s) {
      TxConserves(s.b.conn);
    }
  }

  // ---------------------------------------------------------------- the state label

  /** Which FINs have passed is exactly what the state says, and a deferred close has a backlog. */
  ghost predicate LabelTruthful(c: Conn) {
    c.state != Closed ==>
      && (c.h.fins == 1 <==> c.state in {FinWait1, FinWait2, Closing, LastAck, TimeWait})
      && (c.h.finsTaken == 1 <==> c.state in {CloseWait, Closing, LastAck, TimeWait})
      && (c.pendingClose ==> c.state in {Established, CloseWait} && c.pending != [])
  }

  lemma LabelIsTruthful(c: Conn)
    requires LabelOk(c)
    ensures LabelTruthful(c) && c.h.fins <= 1 && c.h.finsTaken <= 1
  {
  }

  lemma LabelsTruthful(run: seq<System>)
    requires IsRun(run) && BothFit(Last(run))
    ensures LabelTruthful(Last(run).a.conn) && LabelTruthful(Last(run).b.conn)
    ensures Last(run).a.conn.h.fins <= 1 && Last(run).a.conn.h.finsTaken <= 1
    ensures Last(run).b.conn.h.fins <= 1 && Last(run).b.conn.h.finsTaken <= 1
  {
    RunInv(run);
    LabelIsTruthful(Last(run).a.conn);
    if Connected(Last(run)) {
      LabelIsTruthful(Last(run).b.conn);
    }
  }

  // ---------------------------------------------------------------- teardown

  /** Taking the peer's FIN means having taken every byte the peer sent before it. */
  ghost predicate FinMeansAll(s: Conn, r: Conn) {
    r.h.finsTaken > 0 ==> s.h.fins == 1 && Delivered(r) == s.h.out
  }

  lemma FinMeansAllBytes(run: seq<System>)
    requires IsRun(run) && BothFit(Last(run))
    ensures FinMeansAll(Last(run).a.conn, Last(run).b.conn)
    ensures FinMeansAll(Last(run).b.conn, Last(run).a.conn)
  {
    RunInv(run);
  }

  /** The segment acknowledges everything, the FIN included. */
  predicate AcksFin(x: Conn, m: Segment) {
    m.flags.ack && !m.flags.rst && m.ackNum == x.sndNxt && x.h.fins == 1
  }

  lemma AckedFinWasTaken(x: Conn, y: Conn, m: Segment)
    requires Pair(x, y) && m in y.h.sent && AcksFin(x, m)
    ensures y.h.finsTaken == 1 && Delivered(y) == x.h.out
  {
    AckWithinReach(x, y, m);
  }

  /** Leaving a state that waits for the acknowledgement of our FIN. */
  ghost predicate LeavesOnFinAck(before: TcpState, after: TcpState) {
    || (before == FinWait1 && after in {FinWait2, TimeWait})
    || (before == Closing && after == TimeWait)
    || (before == LastAck && after == Closed)
  }

  lemma LeavingNeedsFinAck(x: Conn, m: Segment, now: nat)
    requires LabelOk(x) && !m.flags.rst && LeavesOnFinAck(x.state, ProcessSegment(x, m, now).state)
    ensures AcksFin(x, m)
  {
    AckThenReceiveFrame(x, m);
    ProcessAckFrame(x, m);
  }

  lemma PairTeardown(x: Conn, y: Conn, m: Segment, now: nat)
    requires Pair(x, y) && LabelOk(x) && m in y.h.sent && !m.flags.rst
    requires LeavesOnFinAck(x.state, ProcessSegment(x, m, now).state)
    ensures y.h.finsTaken == 1 && Delivered(y) == x.h.out
  {
    LeavingNeedsFinAck(x, m, now);
    AckedFinWasTaken(x, y, m);
  }

  /** An endpoint only believes its FIN acknowledged when the peer has taken it, and all bytes before it. */
  lemma TeardownAgreement(run: seq<System>, m: Segment, now: nat)
    requires IsRun(run) && BothFit(Last(run)) && !m.flags.rst
    ensures var s := Last(run);
      && (m in s.b.conn.h.sent && LeavesOnFinAck(s.a.conn.state, ProcessSegment(s.a.conn, m, now).state) ==>
            s.b.conn.h.finsTaken == 1 && Delivered(s.b.conn) == s.a.conn.h.out)
      && (m in s.a.conn.h.sent && LeavesOnFinAck(s.b.conn.state, ProcessSegment(s.b.conn, m, now).state) ==>
            s.a.conn.h.finsTaken == 1 && Delivered(s.a.conn) == s.b.conn.h.out)
  {
    RunInv(run);
    var s := Last(run);
    if Connected(s) {
      if m in s.b.conn.h.sent && LeavesOnFinAck(s.a.conn.state, ProcessSegment(s.a.conn, m, now).state) {
        PairTeardown(s.a.conn, s.b.conn, m, now);
      }
      if m in s.a.conn.h.sent && LeavesOnFinAck(s.b.conn.state, ProcessSegment(s.b.conn, m, now).state) {
        PairTeardown(s.b.conn, s.a.conn, m, now);
      }
    }
  }
}
