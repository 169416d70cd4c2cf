/**
 Flow control: how much of the peer's stream a receiver can be made to hold.
 In-order data is accepted without looking at the cap, so only the sender's
 respect for what the receiver has advertised keeps the buffers within it.
 */
module FlowControl {
  import opened SeqSpace
  import opened Connection
  import opened Invariants
  import opened Pairs
  import opened Sender
  import opened Receiver
  import opened NoLoss
  import opened Window
  import opened Ahead
  import opened Logs

  // ---------------------------------------------------------------- promises

  /** The furthest sequence number, counted from the SYN, that one segment gives leave to use. */
  function EdgeOf(irs: U32, m: Segment): nat {
    if IsAck(m) then Off(irs, m.ackNum) + m.window else 0
  }

  /** The furthest right edge among all segments sent. */
  function Furthest(irs: U32, ms: seq<Segment>): nat {
    if ms == [] then 0 else
      var rest := Furthest(irs, ms[..|ms| - 1]);
      var edge := EdgeOf(irs, ms[|ms| - 1]);
      if edge <= rest then rest else edge
  }

  function Promised(r: Conn): nat {
    Furthest(r.irs, r.h.sent)
  }

  lemma FurthestAppend(irs: U32, ms: seq<Segment>, m: Segment)
    ensures var f := Furthest(irs, ms);
      Furthest(irs, ms + [m]) == if EdgeOf(irs, m) <= f then f else EdgeOf(irs, m)
  {
    assert (ms + [m])[..|ms|] == ms;
  }

  /** No advertisement goes further than the furthest. */
  lemma {:induction false} FurthestCovers(irs: U32, ms: seq<Segment>, m: Segment)
    requires m in ms
    ensures EdgeOf(irs, m) <= Furthest(irs, ms)
    decreases |ms|
  {
    var n := |ms| - 1;
    if m != ms[n] {
      assert m in ms[..n];
      FurthestCovers(irs, ms[..n], m);
    }
  }

  /** Whoever has acknowledged nothing has promised nothing. */
  lemma {:induction false} FurthestOfNone(irs: U32, ms: seq<Segment>)
    requires forall m :: m in ms ==> !IsAck(m)
    ensures Furthest(irs, ms) == 0
    decreases |ms|
  {
    if ms != [] {
      assert ms[|ms| - 1] in ms;
      FurthestOfNone(irs, ms[..|ms| - 1]);
    }
  }

  /** The sequence number up to which a receiver with cap `cap` has room, counted from the SYN. */
  function RightEdge(r: Conn, cap: nat): nat {
    1 + |r.h.handed| + cap + r.h.finsTaken
  }

  /** A receive cap that holds what is there and everything that was promised. */
  ghost predicate Covers(r: Conn, cap: nat) {
    Promised(r) <= RightEdge(r, cap) && BufferedBytes(r) <= cap
  }

  /** The sender keeps to what the receiver has promised, and the receiver has room for that. */
  ghost predicate Flow(s: Conn, r: Conn) {
    && Promised(r) <= RightEdge(r, r.recvCap)
    && (CanSend(s.state) ==> Off(s.iss, s.sndUna) + s.sndWnd <= Promised(r))
    && (s.h.out != [] ==> 1 + |s.h.out| <= Promised(r))
    && |s.h.out| <= |r.h.handed| + r.recvCap
  }

  /** One direction of a pair, seen from `x`: the one in which it sends (`tx`), or the other. */
  ghost predicate Flows(tx: bool, x: Conn, y: Conn) {
    if tx then Flow(x, y) else Flow(y, x)
  }

  // ---------------------------------------------------------------- buffered bytes fit

  lemma {:induction false} FirstKey(iss: U32, m: map<U32, seq<Byte>>) returns (k: U32)
    requires m != map[]
    ensures k in m && forall j :: j in m ==> Off(iss, k) <= Off(iss, j)
    decreases |m|
  {
    k :| k in m;
    var rest := m - {k};
    if rest != map[] {
      assert rest.Keys == m.Keys - {k};
      var j := FirstKey(iss, rest);
      if Off(iss, j) < Off(iss, k) {
        forall i | i in m ensures Off(iss, j) <= Off(iss, i) {
          assert i == k || i in rest;
        }
        k := j;
      } else {
        forall i | i in m ensures Off(iss, k) <= Off(iss, i) {
          assert i == k || i in rest;
        }
      }
    } else {
      forall i | i in m ensures Off(iss, k) <= Off(iss, i) {
        assert i == k || i in rest;
      }
    }
  }

  /** Whole segments of one stream are disjoint, so together they fit between `lo` and the end of it. */
  lemma {:induction false} DisjointSegmentsFit(t: Stream, m: map<U32, seq<Byte>>, lo: nat)
    requires lo <= |t.out|
    requires forall k :: k in m ==> ChunkAt(t, k, m[k]) && lo < Off(t.iss, k)
    ensures SumLens(m) <= |t.out| - lo
    decreases |m|
  {
    if m != map[] {
      var k := FirstKey(t.iss, m);
      var o := Off(t.iss, k) - 1;
      assert ChunkAt(t, k, m[k]);
      var rest := m - {k};
      assert rest.Keys == m.Keys - {k};
      forall j | j in rest
        ensures ChunkAt(t, j, rest[j]) && o + |m[k]| < Off(t.iss, j)
      {
        assert ChunkAt(t, j, m[j]) && Off(t.iss, k) <= Off(t.iss, j);
        OffInjective(t.iss, j, k);
      }
      DisjointSegmentsFit(t, rest, o + |m[k]|);
      SumLensRemove(m, k);
    }
  }

  /** What a receiver has handed on and what it holds is no more than what was sent. */
  lemma HeldWasSent(s: Conn, r: Conn)
    requires Pair(s, r) && KeysAhead(r) && r.h.synced
    ensures |r.h.handed| + BufferedBytes(r) <= |s.h.out|
  {
    AheadIs(StreamOf(s), r);
    DisjointSegmentsFit(StreamOf(s), r.ooo, |Delivered(r)|);
  }

  lemma BufferWithinCap(s: Conn, r: Conn)
    requires Pair(s, r) && KeysAhead(r) && |s.h.out| <= |r.h.handed| + r.recvCap
    ensures BufferedBytes(r) <= r.recvCap
  {
    if r.h.synced {
      HeldWasSent(s, r);
    }
  }

  // ---------------------------------------------------------------- the cap, one segment at a time

  /** Splicing moves bytes from one buffer to the other. */
  lemma {:induction false} SpliceConserves(c: Conn)
    ensures BufferedBytes(Splice(c)) == BufferedBytes(c)
    decreases |c.ooo|
  {
    if c.rcvNxt in c.ooo {
      SumLensRemove(c.ooo, c.rcvNxt);
      SpliceConserves(TakeBuffered(c));
    }
  }

  lemma SumLensInsert(m: map<U32, seq<Byte>>, k: U32, d: seq<Byte>)
    ensures SumLens(m[k := d]) <= SumLens(m) + |d|
  {
    SumLensRemove(m[k := d], k);
    if k in m {
      SumLensRemove(m, k);
      assert m[k := d] - {k} == m - {k};
    } else {
      assert m[k := d] - {k} == m;
    }
  }

  /**
   On its own, a receiver honours its cap exactly when in-order data happens to fit: that branch does not
   test the cap.  Only the sender's respect for the window makes it fit.
   */
  lemma CapHonouredIff(c: Conn, m: Segment)
    requires BufferedBytes(c) <= c.recvCap
    ensures BufferedBytes(Absorb(c, m)) <= c.recvCap
       <==> (m.seqNum == c.rcvNxt ==> BufferedBytes(c) + |m.data| <= c.recvCap)
  {
    if m.seqNum == c.rcvNxt {
      SpliceConserves(TakeData(c, m.data));
    } else {
      SumLensInsert(c.ooo, m.seqNum, m.data);
    }
  }

  /**
   The advertised window is the largest that fits: in-order data of at most 65535 bytes leaves the receiver within
   its cap if and only if it is no longer than the window.
   */
  lemma WindowIsLargest(c: Conn, m: Segment)
    requires m.seqNum == c.rcvNxt && 0 < |m.data| <= 65535
    ensures BufferedBytes(Absorb(c, m)) <= c.recvCap <==> |m.data| <= AdvertiseWindow(c)
  {
    SpliceConserves(TakeData(c, m.data));
  }

  // ---------------------------------------------------------------- what the flow depends on

  predicate SameFlowRx(x: Conn, x': Conn) {
    && SameRx(x, x') && x'.recvCap == x.recvCap && x'.h.sent == x.h.sent
  }

  /** Nothing the flow depends on has changed, except that sending may have ended. */
  predicate SameFlow(x: Conn, x': Conn) {
    && SameFlowRx(x, x')
    && x'.iss == x.iss && x'.sndUna == x.sndUna && x'.sndWnd == x.sndWnd && x'.h.out == x.h.out
    && (CanSend(x'.state) ==> CanSend(x.state))
  }

  lemma FlowOther(tx: bool, x: Conn, x': Conn, y: Conn)
    requires Flows(tx, x, y) && SameFlow(x, x')
    ensures Flows(tx, x', y)
  {
  }

  /** A current advertisement promises no more than there is room for. */
  lemma AdvertFits(x: Conn, y: Conn, m: Segment)
    requires Pair(x, y) && Flow(y, x) && KeysAhead(x)
    requires IsAck(m) ==> x.h.synced && m.ackNum == x.rcvNxt && m.window == AdvertiseWindow(x)
    ensures EdgeOf(x.irs, m) <= RightEdge(x, x.recvCap)
  {
    BufferWithinCap(y, x);
  }

  /** A segment whose acknowledgement and window are current keeps the promises. */
  lemma FlowLog(tx: bool, x: Conn, y: Conn, m: Segment)
    requires Pair(x, y) && Flows(tx, x, y) && KeysAhead(x)
    requires IsAck(m) ==> x.h.synced && m.ackNum == x.rcvNxt && m.window == AdvertiseWindow(x)
    ensures Flows(tx, Log(x, m), y)
  {
    if !tx {
      AdvertFits(x, y, m);
      FurthestAppend(x.irs, x.h.sent, m);
    }
  }

  /** The stream may grow as long as it stays below the right edge. */
  lemma FlowGrow(tx: bool, x: Conn, x': Conn, y: Conn)
    requires Flows(tx, x, y) && SameFlowRx(x, x')
    requires x'.iss == x.iss && x'.sndUna == x.sndUna && x'.sndWnd == x.sndWnd
    requires CanSend(x'.state) ==> CanSend(x.state)
    requires tx ==>
      x'.h.out == x.h.out || (1 + |x'.h.out| <= Promised(y) && |x'.h.out| <= |y.h.handed| + y.recvCap)
    ensures Flows(tx, x', y)
  {
  }

  // ---------------------------------------------------------------- flush_send

  /** Data sent inside the window stays below the right edge. */
  lemma ChunkBelowEdge(x: Conn, x': Conn, y: Conn)
    requires Pair(x, y) && Flow(x, y) && CanSend(x.state) && x.h.fins == 0
    requires TxOk(x') && x'.iss == x.iss && x'.h.fins == 0
    requires Off(x.iss, x.sndUna) <= Off(x.iss, x'.sndNxt) && Off(x.sndUna, x'.sndNxt) <= x.sndWnd
    ensures 1 + |x'.h.out| <= Promised(y) && |x'.h.out| <= |y.h.handed| + y.recvCap
  {
    OffDiff(x.iss, x.sndUna, x'.sndNxt);
  }

  lemma ChunkQueuedFlow(tx: bool, x: Conn, x': Conn, y: Conn, u: Unacked, m: Segment)
    requires Pair(x, y) && Flows(tx, x, y) && KeysAhead(x) && x.h.fins == 0 && CanSend(x.state)
    requires Queueable(x, u.flags, u.data) && IsQueued(x, x', u) && Fits(x')
    requires x'.h.sent == x.h.sent + [m] && m.ackNum == x.rcvNxt && m.window == AdvertiseWindow(x)
    requires m.seqNum == u.seqNum && m.flags == u.flags && m.data == u.data
    requires x'.sndWnd == x.sndWnd && x'.recvCap == x.recvCap
    requires x'.h.fins == 0 && Off(x.sndUna, x'.sndNxt) <= x.sndWnd
    ensures Flows(tx, x', y) && Pair(x', y)
  {
    QueuedPair(x, x', y, u, m);
    if tx {
      ChunkBelowEdge(x, x', y);
    }
    FlowLog(tx, x, y, m);
    FlowGrow(tx, Log(x, m), x', y);
  }

  lemma SendChunkFlow(tx: bool, x: Conn, y: Conn, now: nat)
    requires Pair(x, y) && Flows(tx, x, y) && KeysAhead(x) && x.h.synced && x.h.fins == 0 && CanSend(x.state)
    requires x.pending != [] && Off(x.sndUna, x.sndNxt) < x.sndWnd && Fits(SendChunk(x, now))
    ensures Flows(tx, SendChunk(x, now), y) && Pair(SendChunk(x, now), y)
    ensures |SendChunk(x, now).pending| < |x.pending|
  {
    SendChunkEffect(x, now);
    var u, m := SendChunkParts(x, now);
    ChunkQueuedFlow(tx, x, SendChunk(x, now), y, u, m);
  }

  lemma {:induction false} FlushLoopFlow(tx: bool, x: Conn, y: Conn, now: nat)
    requires Pair(x, y) && Flows(tx, x, y) && KeysAhead(x) && x.h.synced && x.h.fins == 0 && CanSend(x.state)
    requires Fits(FlushLoop(x, now))
    ensures Flows(tx, FlushLoop(x, now), y)
    decreases |x.pending|
  {
    if x.pending != [] && Off(x.sndUna, x.sndNxt) < x.sndWnd {
      FlushLoopFrame(SendChunk(x, now), now);
      SendChunkFlow(tx, x, y, now);
      FlushLoopFlow(tx, SendChunk(x, now), y, now);
    }
  }

  lemma SendFinFlow(tx: bool, x: Conn, y: Conn, now: nat)
    requires Pair(x, y) && Flows(tx, x, y) && KeysAhead(x) && x.h.synced
    ensures Flows(tx, SendFin(x, now), y)
  {
    var m := Segment(x.sndNxt, x.rcvNxt, FIN_ACK, AdvertiseWindow(x), []);
    FlowLog(tx, x, y, m);
    FlowGrow(tx, Log(x, m), SendFin(x, now), y);
  }

  lemma ArmFlow(tx: bool, x: Conn, y: Conn, now: nat)
    requires Flows(tx, x, y)
    ensures Flows(tx, ArmProbe(x, now), y)
  {
    ArmIs(x, now);
    FlowOther(tx, x, ArmProbe(x, now), y);
  }

  lemma DrainFlow(tx: bool, x: Conn, y: Conn, now: nat)
    requires Pair(x, y) && Flows(tx, x, y) && KeysAhead(x) && x.h.synced && x.h.fins == 0 && CanSend(x.state)
    requires Fits(Drain(x, now))
    ensures Flows(tx, Drain(x, now), y)
  {
    ArmIs(x, now);
    ArmKeeps(x, y, now);
    ArmFlow(tx, x, y, now);
    FlushLoopFlow(tx, ArmProbe(x, now), y, now);
  }

  lemma DrainAhead(x: Conn, now: nat)
    requires KeysAhead(x)
    ensures KeysAhead(Drain(x, now)) && Drain(x, now).pendingClose == x.pendingClose
  {
    FlushLoopFrame(ArmProbe(x, now), now);
  }

  lemma FlushFlow(tx: bool, x: Conn, y: Conn, now: nat)
    requires Pair(x, y) && Flows(tx, x, y) && KeysAhead(x) && Fits(FlushSend(x, now))
    requires CanSend(x.state) ==> x.h.synced && x.h.fins == 0
    ensures Flows(tx, FlushSend(x, now), y)
  {
    if CanSend(x.state) {
      DrainFlow(tx, x, y, now);
      DrainKeeps(x, y, now);
      DrainAhead(x, now);
      SendFinFlow(tx, Drain(x, now), y, now);
    }
  }

  // ---------------------------------------------------------------- acknowledgements

  /** Where `sndUna` will be once `m` is processed. */
  function Believed(x: Conn, m: Segment): U32 {
    if m.ackNum > x.sndUna then m.ackNum else x.sndUna
  }

  /**
   Believing `m` does not put the limit of a sender beyond what its peer, who has sent `peerSent`, has promised.
   An acknowledgement that is not older than `sndUna` never does; an older one may, because its window counts
   from `sndUna` then.
   */
  predicate Current(x: Conn, m: Segment, peerSent: seq<Segment>) {
    CanSend(x.state) && IsAck(m) ==> Off(x.iss, Believed(x, m)) + m.window <= Furthest(x.iss, peerSent)
  }

  /** An acknowledgement that is not older than the last one believed is always current. */
  lemma NewerIsCurrent(x: Conn, m: Segment, peerSent: seq<Segment>)
    requires m in peerSent && m.ackNum >= x.sndUna
    ensures Current(x, m, peerSent)
  {
    FurthestCovers(x.iss, peerSent, m);
  }

  /** What an acknowledgement says for itself has been promised. */
  lemma PromiseHeard(x: Conn, y: Conn, m: Segment)
    requires Pair(x, y) && m in y.h.sent && IsAck(m)
    ensures y.irs == x.iss && Off(x.iss, m.ackNum) + m.window <= Promised(y)
  {
    AckWithinReach(x, y, m);
    FurthestCovers(y.irs, y.h.sent, m);
  }

  /** The sender's limit may become any that the peer has promised. */
  lemma AckFlow(tx: bool, x: Conn, x': Conn, y: Conn)
    requires Flows(tx, x, y) && SameFlowRx(x, x') && x'.iss == x.iss && x'.h.out == x.h.out
    requires tx && CanSend(x'.state) ==> Off(x.iss, x'.sndUna) + x'.sndWnd <= Promised(y)
    ensures Flows(tx, x', y)
  {
  }

  lemma ProcessAckFlow(tx: bool, x: Conn, y: Conn, m: Segment)
    requires Pair(x, y) && Flows(tx, x, y) && m in y.h.sent && !m.flags.rst
    requires tx ==> Current(x, m, y.h.sent)
    ensures Flows(tx, ProcessAck(x, m), y)
  {
    if m.flags.ack {
      PromiseHeard(x, y, m);
      ProcessAckIs(x, m);
      RemoveAckedFrame(x.(sndUna := m.ackNum), m.ackNum);
      AckFlow(tx, x, ProcessAck(x, m), y);
    }
  }

  // ---------------------------------------------------------------- data

  lemma AbsorbFlow(tx: bool, x: Conn, y: Conn, m: Segment)
    requires Flows(tx, x, y)
    ensures Flows(tx, Absorb(x, m), y)
  {
    AbsorbFrame(x, m);
  }

  lemma AckOnlyFlow(tx: bool, x: Conn, y: Conn)
    requires Pair(x, y) && Flows(tx, x, y) && KeysAhead(x) && x.h.synced
    ensures Flows(tx, SendAckOnly(x), y)
  {
    FlowLog(tx, x, y, Segment(x.sndNxt, x.rcvNxt, ACK, AdvertiseWindow(x), []));
  }

  lemma ReceiveFlow(tx: bool, x: Conn, y: Conn, m: Segment)
    requires Pair(x, y) && Flows(tx, x, y) && KeysAhead(x) && NoWrap(y) && x.h.synced && x.h.finsTaken == 0
    requires m in y.h.sent && !m.flags.rst
    ensures Flows(tx, Receive(x, m), y)
  {
    AbsorbFlow(tx, x, y, m);
    AbsorbFrame(x, m);
    ReceiveAhead(x, y, m);
    assert SegOk(StreamOf(y), Reach(y, x), m);
    AbsorbKeeps(StreamOf(y), x, m);
    RxStep(x, Absorb(x, m), y);
    AckOnlyFlow(tx, Absorb(x, m), y);
  }

  lemma RecvFlow(tx: bool, x: Conn, y: Conn, room: nat)
    requires Flows(tx, x, y)
    ensures Flows(tx, Recv(x, room), y)
  {
    RecvIs(x, room);
  }

  /** A cap that covers what was promised may be set at any time, be it larger or smaller. */
  lemma SetCapFlow(tx: bool, x: Conn, y: Conn, recvCap: nat, sendCap: nat)
    requires Pair(x, y) && Flows(tx, x, y) && (!tx ==> Covers(x, recvCap))
    ensures Flows(tx, x.(recvCap := recvCap, sendCap := sendCap), y)
  {
  }

  /** Before the peer's sequence number is known nothing is promised, so any cap will do. */
  lemma AnyCapAtFirst(x: Conn, cap: nat)
    requires AcksOk(x) && !x.h.synced
    ensures Covers(x, cap)
  {
    forall m | m in x.h.sent
      ensures !IsAck(m)
    {
      assert AckHonest(x, m);
    }
    FurthestOfNone(x.irs, x.h.sent);
  }

  /** While the promises are kept, the cap may be raised at any time. */
  lemma LargerCapCovers(x: Conn, y: Conn, cap: nat)
    requires Pair(x, y) && Flow(y, x) && KeysAhead(x) && cap >= x.recvCap
    ensures Covers(x, cap)
  {
    BufferWithinCap(y, x);
  }
}
