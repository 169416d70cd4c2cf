/**
 Nothing accepted is ever out of reach while there are retries left: from every
 state in which both sides are ESTABLISHED, even if everything on the link is
 lost, the run can go on so that every accepted byte is delivered.
 */
module Progress {
  import opened SeqSpace
  import opened Connection
  import opened Invariants
  import opened Pairs
  import opened Sender
  import opened Receiver
  import opened Steps
  import opened TwoEndpoints
  import opened NoLoss
  import opened Ahead
  import opened Copies
  import opened Recovery
  import opened Safety
  import opened Timers
  import opened Scripts

  // ---------------------------------------------------------------- two open endpoints

  /** A state in which the peer's data is taken. */
  predicate TakesData(s: TcpState) {
    s in {Established, FinWait1, FinWait2}
  }

  /** Open for data, with everything accepted clear of the wrap. */
  predicate Open(e: Endpoint) {
    && e.life == Alive && TakesData(e.conn.state)
    && (e.conn.pending != [] ==> e.conn.state == Established)
    && e.conn.h.out + e.conn.pending == e.conn.h.accepted
    && e.conn.iss + |e.conn.h.accepted| + 2 < MOD
  }

  /** A journey whose last state has both sides open. */
  ghost predicate Going(j: Journey) {
    Valid(j) && Open(At(j).a) && Open(At(j).b)
  }

  ghost predicate Sound(x: Conn, y: Conn) {
    && Pair(x, y) && LabelOk(x) && LabelOk(y) && Tight(x) && NoWrap(x) && NoWrap(y)
    && KeysAhead(y) && CopiesOk(x)
  }

  lemma RunFacts(run: seq<System>, dir: bool)
    requires IsRun(run) && Open(Last(run).a) && Open(Last(run).b)
    ensures Sound(Src(dir, Last(run)).conn, Dst(dir, Last(run)).conn)
  {
    RunTight(run);
    RunAhead(run);
    AtMostSevenCopies(run);
  }

  lemma Facts(j: Journey, dir: bool)
    requires Going(j)
    ensures Sound(Src(dir, At(j)).conn, Dst(dir, At(j)).conn)
  {
    PlayedIsRun(j.run, j.ms);
    RunFacts(Played(j.run, j.ms), dir);
  }

  // ---------------------------------------------------------------- steps that only move forward

  /** The endpoint stays open and nothing is taken back. */
  predicate Onward(e: Endpoint, e': Endpoint) {
    && Open(e') && e'.conn.h.accepted == e.conn.h.accepted && e'.conn.recvCap == e.conn.recvCap
    && |Delivered(e.conn)| <= |Delivered(e'.conn)|
    && |e'.conn.pending| <= |e.conn.pending|
    && |e.conn.h.popped| <= |e'.conn.h.popped|
  }

  lemma {:induction false} FlushLoopMoves(c: Conn, now: nat)
    ensures var c' := FlushLoop(c, now);
      && c'.h.out + c'.pending == c.h.out + c.pending && |c'.pending| <= |c.pending|
      && (c.pending != [] && Off(c.sndUna, c.sndNxt) < c.sndWnd ==> |c'.pending| < |c.pending|)
    decreases |c.pending|
  {
    if c.pending != [] && Off(c.sndUna, c.sndNxt) < c.sndWnd {
      SendChunkIs(c, now);
      var n :| 0 < n <= |c.pending| && n <= MSS && SendChunk(c, now) == Queued(c, PSH_ACK, c.pending[..n], now);
      ChunkMoves(c.h.out, c.pending, n);
      FlushLoopMoves(SendChunk(c, now), now);
    }
  }

  lemma ChunkMoves(out: seq<Byte>, pending: seq<Byte>, n: nat)
    requires n <= |pending|
    ensures out + pending[..n] + pending[n..] == out + pending
  {
    assert pending[..n] + pending[n..] == pending;
  }

  /** What a flush leaves of an open connection. */
  ghost predicate Flushed(c: Conn, c': Conn) {
    && c'.h.out + c'.pending == c.h.out + c.pending && |c'.pending| <= |c.pending|
    && c'.iss == c.iss && c'.h.accepted == c.h.accepted && c'.recvCap == c.recvCap
    && Delivered(c') == Delivered(c) && c'.h.handed == c.h.handed && c'.h.popped == c.h.popped
    && (c'.state == c.state || (c.state == Established && c'.state == FinWait1 && c'.pending == [])
        || (c.state == FinWait1 && c'.state == FinWait2))
  }

  lemma FlushMoves(c: Conn, now: nat)
    requires TakesData(c.state)
    ensures Flushed(c, FlushSend(c, now))
    ensures c.state == Established && c.pending != [] && Off(c.sndUna, c.sndNxt) < c.sndWnd ==>
      |FlushSend(c, now).pending| < |c.pending|
  {
    FlushLoopFrame(ArmProbe(c, now), now);
    FlushLoopMoves(ArmProbe(c, now), now);
  }

  /** What neither `process_ack` nor the receive path touches. */
  predicate SameBacklog(x: Conn, x': Conn) {
    && x'.h.out == x.h.out && x'.pending == x.pending && x'.iss == x.iss && x'.h.accepted == x.h.accepted
    && x'.recvCap == x.recvCap && x'.state == x.state && x'.h.handed == x.h.handed
    && |x.h.popped| <= |x'.h.popped|
  }

  lemma ProcessAckBacklog(x: Conn, m: Segment)
    ensures SameBacklog(x, ProcessAck(x, m))
  {
    RemoveAckedFrame(x.(sndUna := m.ackNum), m.ackNum);
    RemoveAckedPops(x.(sndUna := m.ackNum), m.ackNum);
  }

  lemma ReceiveBacklog(x: Conn, m: Segment)
    ensures SameBacklog(x, Receive(x, m))
  {
    AbsorbFrame(x, m);
  }

  lemma ExchangeFrame(x: Conn, m: Segment)
    ensures SameBacklog(x, AckThenReceive(x, m))
  {
    ProcessAckBacklog(x, m);
    ReceiveBacklog(ProcessAck(x, m), m);
  }

  lemma AbsorbDelivers(t: Stream, c: Conn, m: Segment)
    requires RxOk(t, c) && c.h.finsTaken == 0 && |t.out| + 2 < MOD
    requires !m.flags.rst && !m.flags.fin && SegOk(t, Off(t.iss, c.rcvNxt), m)
    ensures |Delivered(c)| <= |Delivered(Absorb(c, m))|
    ensures Off(t.iss, Absorb(c, m).rcvNxt) == 1 + |Delivered(Absorb(c, m))|
  {
    AbsorbKeeps(t, c, m);
    AbsorbFrame(c, m);
  }

  /** Nothing delivered is taken back. */
  lemma ExchangeDelivers(x: Conn, y: Conn, m: Segment)
    requires Pair(x, y) && x.h.synced && x.h.finsTaken == 0 && m in y.h.sent && !m.flags.rst && !m.flags.fin
    ensures |Delivered(x)| <= |Delivered(AckThenReceive(x, m))|
  {
    var x1 := ProcessAck(x, m);
    ProcessAckFrame(x, m);
    RxSame(x, x1, y);
    assert SegOk(StreamOf(y), Reach(y, x1), m);
    AbsorbDelivers(StreamOf(y), x1, m);
    assert Delivered(AckThenReceive(x, m)) == Delivered(Absorb(x1, m));
  }

  /** What follows the exchange is a flush or a change of label. */
  lemma AfterExchange(x: Conn, m: Segment, now: nat)
    requires TakesData(x.state) && !m.flags.rst && !m.flags.fin
    ensures Flushed(AckThenReceive(x, m), ProcessSegment(x, m, now))
  {
    AckThenReceiveFrame(x, m);
    if x.state == Established {
      EstablishedIs(x, m, now);
      FlushMoves(AckThenReceive(x, m), now);
    }
  }

  lemma SegmentOnward(e: Endpoint, y: Conn, m: Segment, iss: U32, now: nat)
    requires Open(e) && Pair(e.conn, y) && LabelOk(e.conn) && m in y.h.sent && !m.flags.rst && !m.flags.fin
    ensures Onward(e, HandleSegment(e, m, iss, now))
  {
    ExchangeFrame(e.conn, m);
    ExchangeDelivers(e.conn, y, m);
    AfterExchange(e.conn, m, now);
    OnwardBy(e, ProcessSegment(e.conn, m, now), AckThenReceive(e.conn, m));
  }

  lemma OnwardBy(e: Endpoint, c: Conn, c2: Conn)
    requires Open(e) && SameBacklog(e.conn, c2) && |Delivered(e.conn)| <= |Delivered(c2)| && Flushed(c2, c)
    ensures Onward(e, Clean(e.(conn := c)))
  {
  }

  /** Only the application reads. */
  lemma SegmentUnread(e: Endpoint, m: Segment, iss: U32, now: nat)
    requires e.life == Alive && TakesData(e.conn.state) && !m.flags.rst && !m.flags.fin
    ensures var c' := HandleSegment(e, m, iss, now).conn; c'.h.handed == e.conn.h.handed && c'.recvCap == e.conn.recvCap
  {
    ExchangeFrame(e.conn, m);
    AfterExchange(e.conn, m, now);
  }

  lemma RecvOnward(e: Endpoint, now: nat)
    requires Open(e)
    ensures var e' := Step(e, [], Recvs(|e.conn.recvBuf|), now);
      Onward(e, e') && e'.conn.recvBuf == [] && Delivered(e'.conn) == Delivered(e.conn) && e'.conn.queue == e.conn.queue
  {
    RecvIs(e.conn, |e.conn.recvBuf|);
  }

  lemma FlushOnward(e: Endpoint, now: nat)
    requires Open(e)
    ensures Onward(e, Step(e, [], Sends([]), now))
    ensures e.conn.state == Established && e.conn.pending != [] && Off(e.conn.sndUna, e.conn.sndNxt) < e.conn.sndWnd ==>
      |Step(e, [], Sends([]), now).conn.pending| < |e.conn.pending|
  {
    SendNothing(e.conn, now);
    FlushMoves(e.conn, now);
  }

  /** Sending no bytes is a flush. */
  lemma SendNothing(c: Conn, now: nat)
    ensures Send(c, [], now) == FlushSend(c, now)
  {
    assert c.pending + [] == c.pending && c.h.accepted + [] == c.h.accepted;
    assert Backlogged(c, []) == c;
  }

  lemma TickMoves(c: Conn, now: nat)
    requires TakesData(c.state) && !GivesUp(c, now)
    ensures Flushed(c, Tick(c, now))
  {
    TimersFrame(c, now);
    TimersFrame(Probe(c, now), now);
    FlushMoves(Retransmit(Probe(c, now), now), now);
  }

  lemma TickOnward(e: Endpoint, now: nat)
    requires Open(e) && !GivesUp(e.conn, now)
    ensures Onward(e, Step(e, [], Ticks, now)) && Step(e, [], Ticks, now).conn == Tick(e.conn, now)
  {
    TickMoves(e.conn, now);
  }

  // ---------------------------------------------------------------- retries

  /** The front entry, if any, may be sent again. */
  predicate MayRetry(c: Conn) {
    c.queue != [] ==> c.queue[0].retryCount < MAX_RETRIES
  }

  /** From the `k`-th on, every entry may. */
  predicate Spare(q: seq<Unacked>, k: nat) {
    forall i :: k <= i < |q| ==> q[i].retryCount < MAX_RETRIES
  }

  /** Only the front is ever retried, so the front decides. */
  lemma FrontDecides(c: Conn)
    requires QueueTimed(c.queue) && MayRetry(c)
    ensures Spare(c.queue, 0)
  {
  }

  lemma {:induction false} FlushLoopSpare(c: Conn, k: nat, now: nat)
    requires Spare(c.queue, k)
    ensures Spare(FlushLoop(c, now).queue, k)
    decreases |c.pending|
  {
    if c.pending != [] && Off(c.sndUna, c.sndNxt) < c.sndWnd {
      FlushLoopSpare(SendChunk(c, now), k, now);
    }
  }

  lemma FlushSpare(c: Conn, k: nat, now: nat)
    requires Spare(c.queue, k)
    ensures Spare(FlushSend(c, now).queue, k)
  {
    if CanSend(c.state) {
      ArmIs(c, now);
      FlushLoopSpare(ArmProbe(c, now), k, now);
    }
  }

  lemma ProcessAckSpare(c: Conn, m: Segment)
    requires Spare(c.queue, 0)
    ensures Spare(ProcessAck(c, m).queue, 0)
  {
    RemoveAckedPops(c.(sndUna := m.ackNum), m.ackNum);
  }

  /** Once the front is acknowledged its retries no longer matter. */
  lemma PoppedSpare(c: Conn, m: Segment)
    requires Spare(c.queue, 1) && c.queue != [] && m.flags.ack && m.ackNum > c.sndUna && End(c.queue[0]) <= m.ackNum
    ensures Spare(ProcessAck(c, m).queue, 0)
  {
    RemoveAckedPops(c.(sndUna := m.ackNum), m.ackNum);
  }

  /** Nothing after `process_ack` uses up a retry. */
  lemma SegmentSpare(c: Conn, m: Segment, now: nat)
    requires TakesData(c.state) && !m.flags.rst && Spare(ProcessAck(c, m).queue, 0)
    ensures Spare(ProcessSegment(c, m, now).queue, 0)
  {
    AbsorbFrame(ProcessAck(c, m), m);
    if c.state == Established {
      EstablishedIs(c, m, now);
      FlushSpare(Taken(c, m), 0, now);
    } else {
      FinWaitIs(c, m, now);
    }
  }

  /** A tick uses up one retry of the front only. */
  lemma TickSpare(c: Conn, now: nat)
    requires Spare(c.queue, 0) && TakesData(c.state)
    ensures Spare(Tick(c, now).queue, 1)
  {
    TimersFrame(c, now);
    ProbeIs(c, now);
    RetransmitIs(Probe(c, now), now);
    FlushSpare(Retransmit(Probe(c, now), now), 1, now);
  }

  // ---------------------------------------------------------------- journeys that go on

  ghost predicate Goes(j: Journey, j': Journey)
    requires Valid(j)
  {
    Going(j') && Extends(j, j') && Onward(At(j).a, At(j').a) && Onward(At(j).b, At(j').b)
  }

  lemma ThenGoes(j: Journey, j1: Journey, j2: Journey)
    requires Valid(j) && Goes(j, j1) && Goes(j1, j2)
    ensures Goes(j, j2)
  {
  }

  ghost predicate SpareAt(j: Journey)
    requires Valid(j)
  {
    Spare(At(j).a.conn.queue, 0) && Spare(At(j).b.conn.queue, 0)
  }

  /** Segments that may still arrive: on a journey that counts the link as empty, only new ones. */
  ghost predicate InFlight(j: Journey, dir: bool, i: nat)
    requires Valid(j)
  {
    && i < |Src(dir, At(j)).conn.h.sent|
    && (j.newOnly ==> i >= |Src(dir, Last(j.run)).conn.h.sent|)
  }

  lemma DeliveryOnward(j: Journey, dir: bool, i: nat)
    requires Going(j) && i < |Src(dir, At(j)).conn.h.sent|
    requires var m := Src(dir, At(j)).conn.h.sent[i]; !m.flags.rst && !m.flags.fin
    ensures var y := Dst(dir, At(j)); Onward(y, HandleSegment(y, Src(dir, At(j)).conn.h.sent[i], 0, j.now))
  {
    var x, y := Src(dir, At(j)), Dst(dir, At(j));
    Facts(j, dir);
    SegmentOnward(y, x.conn, x.conn.h.sent[i], 0, j.now);
  }

  /** The destination gets the source's `i`-th segment. */
  lemma DeliverTo(j: Journey, dir: bool, i: nat) returns (j': Journey)
    requires Going(j) && InFlight(j, dir, i)
    requires var m := Src(dir, At(j)).conn.h.sent[i]; !m.flags.rst && !m.flags.fin
    ensures Goes(j, j') && j'.now == j.now
    ensures j'.ms == j.ms + [Move(!dir, Deliver(i, 0), j.now)]
    ensures Src(dir, At(j')) == Src(dir, At(j))
    ensures Dst(dir, At(j')) == HandleSegment(Dst(dir, At(j)), Src(dir, At(j)).conn.h.sent[i], 0, j.now)
  {
    DeliveryOnward(j, dir, i);
    j' := Take(j, !dir, Deliver(i, 0), j.now);
  }

  lemma DeliverySpares(e: Endpoint, m: Segment, now: nat)
    requires Open(e) && Spare(e.conn.queue, 0) && !m.flags.rst
    ensures Spare(HandleSegment(e, m, 0, now).conn.queue, 0)
  {
    ProcessAckSpare(e.conn, m);
    SegmentSpare(e.conn, m, now);
  }

  /** As `DeliverTo`, for a destination with retries to spare. */
  lemma DeliverSparing(j: Journey, dir: bool, i: nat) returns (j': Journey)
    requires Going(j) && InFlight(j, dir, i) && Spare(Dst(dir, At(j)).conn.queue, 0)
    requires var m := Src(dir, At(j)).conn.h.sent[i]; !m.flags.rst && !m.flags.fin
    ensures Goes(j, j') && j'.now == j.now
    ensures Src(dir, At(j')) == Src(dir, At(j)) && Spare(Dst(dir, At(j')).conn.queue, 0)
    ensures Dst(dir, At(j')) == HandleSegment(Dst(dir, At(j)), Src(dir, At(j)).conn.h.sent[i], 0, j.now)
  {
    DeliverySpares(Dst(dir, At(j)), Src(dir, At(j)).conn.h.sent[i], j.now);
    j' := DeliverTo(j, dir, i);
  }

  // ---------------------------------------------------------------- a timeout, a copy, an answer

  /** Unacknowledged data keeps a connection out of FIN_WAIT_2. */
  lemma DataIsUnacked(x: Conn)
    requires TxOk(x) && NoWrap(x) && Tight(x) && x.queue != []
    ensures x.state != FinWait2 && x.sndUna < End(x.queue[0])
  {
    EndOff(x, 0);
  }

  lemma TickResends(e: Endpoint, now: nat) returns (i: nat)
    requires Open(e) && Spare(e.conn.queue, 0) && TimesOut(e.conn, now)
    ensures Onward(e, Step(e, [], Ticks, now)) && Step(e, [], Ticks, now).conn == Tick(e.conn, now)
    ensures Resends(e.conn, Tick(e.conn, now), i) && Spare(Tick(e.conn, now).queue, 1)
  {
    TickOnward(e, now);
    TickSpare(e.conn, now);
    i := TimeoutResends(e.conn, now);
  }

  /** The moment the front entry's timer runs out, or now. */
  function Timeout(j: Journey, x: Conn): nat
    requires x.queue != []
  {
    var t := x.queue[0].sentAt + x.queue[0].rto;
    if t <= j.now then j.now else t
  }

  /** The clock moves on to the timeout, and the front segment is sent again. */
  lemma WaitAndResend(j: Journey, dir: bool) returns (j': Journey, i: nat)
    requires Going(j) && Src(dir, At(j)).conn.queue != [] && Spare(Src(dir, At(j)).conn.queue, 0)
    ensures Goes(j, j') && Dst(dir, At(j')) == Dst(dir, At(j)) && InFlight(j', dir, i)
    ensures Resends(Src(dir, At(j)).conn, Src(dir, At(j')).conn, i) && Spare(Src(dir, At(j')).conn.queue, 1)
  {
    var e := Src(dir, At(j));
    i := TickResends(e, Timeout(j, e.conn));
    j' := Take(j, dir, Ticks, Timeout(j, e.conn));
  }

  /** A copy of the front data segment at place `i` of the log. */
  ghost predicate FrontAt(x: Conn, i: nat) {
    && x.queue != [] && x.queue[0].data != [] && i < |x.h.sent|
    && x.h.sent[i].seqNum == x.queue[0].seqNum && x.h.sent[i].data == x.queue[0].data
    && x.h.sent[i].flags.psh && !x.h.sent[i].flags.rst && !x.h.sent[i].flags.fin
  }

  /** Whenever the answer to the copy comes back, the front is gone. */
  lemma AnswerPops(x: Conn, y: Conn, i: nat, now: nat, later: nat)
    requires Sound(x, y) && TakesData(x.state) && TakesData(y.state) && FrontAt(x, i) && Spare(x.queue, 1)
    ensures var y' := ProcessSegment(y, x.h.sent[i], now);
      && |y'.h.sent| > |y.h.sent|
      && var n := y'.h.sent[|y.h.sent|];
         var x' := ProcessSegment(x, n, later);
         n.flags == ACK && |x'.h.popped| > |x.h.popped| && Spare(x'.queue, 0)
  {
    var m := x.h.sent[i];
    DataIsUnacked(x);
    CopyIsAcked(x, y, m, now);
    CopyRecovers(x, y, m, now, later);
    var n := ProcessSegment(y, m, now).h.sent[|y.h.sent|];
    PoppedSpare(x, n);
    SegmentSpare(x, n, later);
  }

  lemma CopyIsAnswered(j: Journey, dir: bool, i: nat)
    requires Going(j) && FrontAt(Src(dir, At(j)).conn, i) && Spare(Src(dir, At(j)).conn.queue, 1)
    ensures var x, y := Src(dir, At(j)).conn, Dst(dir, At(j)).conn;
      var y' := ProcessSegment(y, x.h.sent[i], j.now);
      && |y'.h.sent| > |y.h.sent|
      && var n := y'.h.sent[|y.h.sent|];
         var x' := ProcessSegment(x, n, j.now);
         n.flags == ACK && |x'.h.popped| > |x.h.popped| && Spare(x'.queue, 0)
  {
    Facts(j, dir);
    AnswerPops(Src(dir, At(j)).conn, Dst(dir, At(j)).conn, i, j.now, j.now);
  }

  /** The copy arrives and its answer comes back. */
  lemma CopyRound(j: Journey, dir: bool, i: nat) returns (j': Journey)
    requires Going(j) && InFlight(j, dir, i) && FrontAt(Src(dir, At(j)).conn, i)
    requires Spare(Src(dir, At(j)).conn.queue, 1)
    requires Spare(HandleSegment(Dst(dir, At(j)), Src(dir, At(j)).conn.h.sent[i], 0, j.now).conn.queue, 0)
    ensures Goes(j, j') && SpareAt(j')
    ensures |Src(dir, At(j')).conn.h.popped| > |Src(dir, At(j)).conn.h.popped|
  {
    CopyIsAnswered(j, dir, i);
    var j1 := DeliverTo(j, dir, i);
    j' := DeliverTo(j1, !dir, |Dst(dir, At(j)).conn.h.sent|);
    ThenGoes(j, j1, j');
  }

  /** Nothing old arrives: the timer runs out, the copy gets through, the answer too. */
  lemma TimeoutRound(j: Journey, dir: bool) returns (j': Journey)
    requires Going(j) && SpareAt(j)
    requires Src(dir, At(j)).conn.queue != [] && Src(dir, At(j)).conn.queue[0].data != []
    ensures Goes(j, j') && SpareAt(j')
    ensures |Src(dir, At(j')).conn.h.popped| > |Src(dir, At(j)).conn.h.popped|
  {
    Facts(j, dir);
    FrontIsData(Src(dir, At(j)).conn);
    var j1, i := WaitAndResend(j, dir);
    DeliverySpares(Dst(dir, At(j1)), Src(dir, At(j1)).conn.h.sent[i], j1.now);
    j' := CopyRound(j1, dir, i);
    ThenGoes(j, j1, j');
  }

  // ---------------------------------------------------------------- a backlog can be sent

  lemma OldDataReceived(y: Conn, m: Segment)
    requires m.data != [] && m.seqNum < y.rcvNxt && y.recvBuf == [] && y.ooo == map[] && y.recvCap > 0
    ensures Receive(y, m) == SendAckOnly(y) && AdvertiseWindow(y) > 0
  {
  }

  /** A receiver with empty buffers answers old data with an open window. */
  lemma OldDataAnswered(y: Conn, m: Segment, now: nat)
    requires TakesData(y.state) && m.data != [] && m.seqNum < y.rcvNxt && !m.flags.rst && !m.flags.fin
    requires y.recvBuf == [] && y.ooo == map[] && y.recvCap > 0
    ensures var y' := ProcessSegment(y, m, now);
      && |y'.h.sent| > |y.h.sent|
      && var n := y'.h.sent[|y.h.sent|]; n.flags == ACK && n.ackNum == y.rcvNxt && n.window > 0
  {
    var y1 := ProcessAck(y, m);
    ProcessAckFrame(y, m);
    ProcessAckBacklog(y, m);
    ProcessAckSent(y, m);
    OldDataReceived(y1, m);
    if y.state == Established {
      EstablishedLogs(y, m, now);
    }
  }

  lemma ReceiveSender(x: Conn, m: Segment)
    ensures var x' := Receive(x, m); x'.sndUna == x.sndUna && x'.sndNxt == x.sndNxt && x'.sndWnd == x.sndWnd
  {
    AbsorbFrame(x, m);
  }

  /** An acknowledgement of everything with an open window sets the backlog moving. */
  lemma AckRefills(x: Conn, n: Segment, now: nat)
    requires x.state == Established && x.pending != [] && x.sndUna <= x.sndNxt
    requires n.flags == ACK && n.ackNum == x.sndNxt && n.window > 0
    ensures |ProcessSegment(x, n, now).pending| < |x.pending|
  {
    var x1 := ProcessAck(x, n);
    ProcessAckBacklog(x, n);
    ProcessAckFrame(x, n);
    RemoveAckedFrame(x.(sndUna := n.ackNum), n.ackNum);
    assert Off(x1.sndUna, x1.sndNxt) == 0 && x1.sndWnd > 0;
    ReceiveBacklog(x1, n);
    ReceiveSender(x1, n);
    FlushMoves(Receive(x1, n), now);
  }

  /** All that was sent has been delivered, and more is waiting. */
  ghost predicate CaughtUp(x: Conn, y: Conn) {
    x.state == Established && x.pending != [] && |Delivered(y)| >= |x.h.out|
  }

  lemma CaughtUpMeans(x: Conn, y: Conn)
    requires Sound(x, y) && TakesData(y.state) && CaughtUp(x, y)
    ensures y.ooo == map[] && y.rcvNxt == x.sndNxt && x.iss < x.sndUna <= x.sndNxt
  {
    AheadIs(StreamOf(x), y);
    OffInjective(x.iss, y.rcvNxt, x.sndNxt);
    NothingAhead(StreamOf(x), y);
  }

  lemma NothingAhead(t: Stream, r: Conn)
    requires OooAhead(t, r) && Off(t.iss, r.rcvNxt) > |t.out|
    ensures r.ooo == map[]
  {
    assert forall k :: k in r.ooo ==> |r.ooo[k]| == 0 && |r.ooo[k]| > 0;
  }

  /** The destination reads everything. */
  lemma ReadAll(j: Journey, dir: bool) returns (j': Journey)
    requires Going(j) && SpareAt(j)
    ensures Goes(j, j') && SpareAt(j') && Src(dir, At(j')) == Src(dir, At(j))
    ensures var y, y' := Dst(dir, At(j)).conn, Dst(dir, At(j')).conn;
      y'.recvBuf == [] && Delivered(y') == Delivered(y) && y'.rcvNxt == y.rcvNxt
  {
    var y := Dst(dir, At(j));
    RecvOnward(y, j.now);
    j' := Take(j, !dir, Recvs(|y.conn.recvBuf|), j.now);
  }

  /** Old data in flight. */
  ghost predicate OldDataAt(j: Journey, dir: bool, i: nat)
    requires Valid(j)
  {
    && InFlight(j, dir, i)
    && var m := Src(dir, At(j)).conn.h.sent[i];
       m.data != [] && m.seqNum < Dst(dir, At(j)).conn.rcvNxt && !m.flags.rst && !m.flags.fin
  }

  lemma AnswerIsThere(j: Journey, dir: bool, i: nat)
    requires Going(j) && OldDataAt(j, dir, i) && Dst(dir, At(j)).conn.recvCap > 0
    requires CaughtUp(Src(dir, At(j)).conn, Dst(dir, At(j)).conn) && Dst(dir, At(j)).conn.recvBuf == []
    ensures var x, y := Src(dir, At(j)).conn, Dst(dir, At(j)).conn;
      var y' := ProcessSegment(y, x.h.sent[i], j.now);
      && |y'.h.sent| > |y.h.sent|
      && var n := y'.h.sent[|y.h.sent|]; n.flags == ACK && |ProcessSegment(x, n, j.now).pending| < |x.pending|
  {
    var x, y := Src(dir, At(j)).conn, Dst(dir, At(j)).conn;
    Facts(j, dir);
    CaughtUpMeans(x, y);
    OldDataAnswered(y, x.h.sent[i], j.now);
    AckRefills(x, ProcessSegment(y, x.h.sent[i], j.now).h.sent[|y.h.sent|], j.now);
  }

  /** Old data reaches a destination that has read everything, and its answer comes back. */
  lemma Answered(j: Journey, dir: bool, i: nat) returns (j': Journey)
    requires Going(j) && SpareAt(j) && OldDataAt(j, dir, i) && Dst(dir, At(j)).conn.recvCap > 0
    requires CaughtUp(Src(dir, At(j)).conn, Dst(dir, At(j)).conn) && Dst(dir, At(j)).conn.recvBuf == []
    ensures Goes(j, j') && SpareAt(j')
    ensures |Src(dir, At(j')).conn.pending| < |Src(dir, At(j)).conn.pending|
  {
    AnswerIsThere(j, dir, i);
    var j1 := DeliverSparing(j, dir, i);
    j' := DeliverSparing(j1, !dir, |Dst(dir, At(j)).conn.h.sent|);
    ThenGoes(j, j1, j');
  }

  lemma Refill(j: Journey, dir: bool, i: nat) returns (j': Journey)
    requires Going(j) && SpareAt(j) && OldDataAt(j, dir, i) && Dst(dir, At(j)).conn.recvCap > 0
    requires CaughtUp(Src(dir, At(j)).conn, Dst(dir, At(j)).conn)
    ensures Goes(j, j') && SpareAt(j')
    ensures |Src(dir, At(j')).conn.pending| < |Src(dir, At(j)).conn.pending|
  {
    var j1 := ReadAll(j, dir);
    j' := Answered(j1, dir, i);
    ThenGoes(j, j1, j');
  }

  /** The persist timer armed by a flush that cannot send. */
  lemma ArmsProbe(e: Endpoint, now: nat)
    requires e.life == Alive && e.conn.state == Established && e.conn.pending != [] && e.conn.sndWnd == 0
    ensures var e' := Step(e, [], Sends([]), now);
      e' == e.(conn := e.conn.(probeDeadline := e'.conn.probeDeadline)) && e'.conn.probeDeadline.Some?
  {
    SendNothing(e.conn, now);
  }

  /** With nothing to retransmit, a tick at the deadline sends the probe and nothing else. */
  lemma ProbeGoesOut(e: Endpoint, now: nat)
    requires e.life == Alive && e.conn.state == Established && e.conn.pending != [] && e.conn.sndWnd == 0
    requires e.conn.queue == [] && ProbeDue(e.conn, now)
    ensures var e' := Step(e, [], Ticks, now);
      e' == e.(conn := Log(e.conn, ProbeSegment(e.conn)).(
                 probeDeadline := e'.conn.probeDeadline, probeRto := e'.conn.probeRto))
  {
    ProbeIs(e.conn, now);
  }

  lemma Armed(j: Journey, dir: bool) returns (j': Journey)
    requires Going(j) && SpareAt(j)
    requires var x := Src(dir, At(j)).conn; x.state == Established && x.pending != [] && x.sndWnd == 0
    ensures Goes(j, j') && SpareAt(j') && Dst(dir, At(j')) == Dst(dir, At(j))
    ensures var e, e' := Src(dir, At(j)), Src(dir, At(j'));
      e' == e.(conn := e.conn.(probeDeadline := e'.conn.probeDeadline)) && e'.conn.probeDeadline.Some?
  {
    ArmsProbe(Src(dir, At(j)), j.now);
    j' := Take(j, dir, Sends([]), j.now);
  }

  /** The persist timer's deadline, or now. */
  function Deadline(j: Journey, x: Conn): nat
    requires x.probeDeadline.Some?
  {
    if x.probeDeadline.value <= j.now then j.now else x.probeDeadline.value
  }

  lemma Probed(j: Journey, dir: bool) returns (j': Journey)
    requires Going(j)
    requires var x := Src(dir, At(j)).conn;
      x.state == Established && x.pending != [] && x.sndWnd == 0 && x.queue == [] && x.probeDeadline.Some?
    ensures Goes(j, j') && Dst(dir, At(j')) == Dst(dir, At(j))
    ensures var x, x' := Src(dir, At(j)).conn, Src(dir, At(j')).conn;
      && x'.state == Established && x'.pending == x.pending && x'.h.out == x.h.out
      && x'.queue == [] && x'.rcvNxt == x.rcvNxt
      && x'.h.sent == x.h.sent + [ProbeSegment(x)]
  {
    var e := Src(dir, At(j));
    ProbeGoesOut(e, Deadline(j, e.conn));
    j' := Take(j, dir, Ticks, Deadline(j, e.conn));
  }

  lemma ProbeIsOld(x: Conn, y: Conn)
    requires Sound(x, y) && TakesData(y.state) && CaughtUp(x, y)
    ensures ProbeSegment(x).seqNum < y.rcvNxt
  {
    CaughtUpMeans(x, y);
  }

  /** A backlog that faces a closed window with nothing outstanding: the probe reopens it. */
  lemma ProbeRound(j: Journey, dir: bool) returns (j': Journey)
    requires Going(j) && SpareAt(j) && Dst(dir, At(j)).conn.recvCap > 0
    requires CaughtUp(Src(dir, At(j)).conn, Dst(dir, At(j)).conn)
    requires Src(dir, At(j)).conn.queue == [] && Src(dir, At(j)).conn.sndWnd == 0
    ensures Goes(j, j') && SpareAt(j')
    ensures |Src(dir, At(j')).conn.pending| < |Src(dir, At(j)).conn.pending|
  {
    Facts(j, dir);
    ProbeIsOld(Src(dir, At(j)).conn, Dst(dir, At(j)).conn);
    var j1 := Armed(j, dir);
    var j2 := Probed(j1, dir);
    ThenGoes(j, j1, j2);
    j' := Refill(j2, dir, |Src(dir, At(j1)).conn.h.sent|);
    ThenGoes(j, j2, j');
  }

  /** An open window and nothing outstanding: a flush is enough. */
  lemma FlushRound(j: Journey, dir: bool) returns (j': Journey)
    requires Going(j) && SpareAt(j)
    requires var x := Src(dir, At(j)).conn;
      x.state == Established && x.pending != [] && Off(x.sndUna, x.sndNxt) < x.sndWnd
    ensures Goes(j, j') && SpareAt(j')
    ensures |Src(dir, At(j')).conn.pending| < |Src(dir, At(j)).conn.pending|
  {
    var e := Src(dir, At(j));
    FlushOnward(e, j.now);
    SendNothing(e.conn, j.now);
    FlushSpare(e.conn, 0, j.now);
    j' := Take(j, dir, Sends([]), j.now);
  }

  /** With nothing queued everything sent has been delivered, and the window is all free. */
  lemma NothingQueued(x: Conn, y: Conn)
    requires Sound(x, y) && TakesData(y.state) && x.queue == []
    ensures Off(x.sndUna, x.sndNxt) == 0 && |Delivered(y)| >= |x.h.out|
  {
    PairNothingLost(x, y);
  }

  lemma PendingRound(j: Journey, dir: bool) returns (j': Journey)
    requires Going(j) && SpareAt(j) && Dst(dir, At(j)).conn.recvCap > 0
    requires Src(dir, At(j)).conn.queue == [] && Src(dir, At(j)).conn.pending != []
    ensures Goes(j, j') && SpareAt(j')
    ensures |Src(dir, At(j')).conn.pending| < |Src(dir, At(j)).conn.pending|
  {
    var x := Src(dir, At(j)).conn;
    Facts(j, dir);
    NothingQueued(x, Dst(dir, At(j)).conn);
    if x.sndWnd == 0 {
      j' := ProbeRound(j, dir);
    } else {
      j' := FlushRound(j, dir);
    }
  }

  // ---------------------------------------------------------------- everything can be delivered

  /** What is not delivered is queued as data at the front, or waits behind an empty queue. */
  lemma Undelivered(x: Conn, y: Conn)
    requires Sound(x, y) && TakesData(x.state) && TakesData(y.state)
    requires x.pending != [] ==> x.state == Established
    requires |Delivered(y)| < |x.h.accepted|
    ensures if x.queue != [] then x.queue[0].data != [] else x.pending != []
  {
    PairNothingLost(x, y);
    if x.queue != [] {
      assert EntryOk(StreamOf(x), x.h.synced, x.queue[0]);
    }
  }

  lemma {:induction false} DeliverAll(j: Journey, dir: bool) returns (j': Journey)
    requires Going(j) && SpareAt(j) && Dst(dir, At(j)).conn.recvCap > 0
    ensures Goes(j, j') && SpareAt(j')
    ensures |Delivered(Dst(dir, At(j')).conn)| >= |Src(dir, At(j)).conn.h.accepted|
    decreases |Src(dir, At(j)).conn.h.accepted| - |Src(dir, At(j)).conn.h.popped|, |Src(dir, At(j)).conn.pending|
  {
    var x, y := Src(dir, At(j)).conn, Dst(dir, At(j)).conn;
    if |Delivered(y)| >= |x.h.accepted| {
      j' := j;
    } else {
      Facts(j, dir);
      Undelivered(x, y);
      var j1;
      if x.queue != [] {
        j1 := TimeoutRound(j, dir);
      } else {
        j1 := PendingRound(j, dir);
      }
      j' := DeliverAll(j1, dir);
      ThenGoes(j, j1, j');
    }
  }

  // ---------------------------------------------------------------- over whole runs

  lemma StepTimers(e: Endpoint, peerSent: seq<Segment>, ev: Event, now: nat)
    requires e.life != Listening && TimersOk(e.conn)
    ensures TimersOk(Step(e, peerSent, ev, now).conn)
  {
    if ev.Deliver? {
      if ev.i < |peerSent| {
        SegmentTimers(e.conn, peerSent[ev.i], now);
      }
    } else {
      ActTimers(e.conn, ev, now);
    }
  }

  ghost predicate BothTimed(s: System) {
    s.a.life != Listening && TimersOk(s.a.conn) && (s.b.life != Listening ==> TimersOk(s.b.conn))
  }

  lemma NextTimed(s: System, s': System)
    requires BothTimed(s) && Next(s, s')
    ensures BothTimed(s')
  {
    var ev: Event, now: nat :| StepA(s, s', ev, now) || StepB(s, s', ev, now);
    if StepA(s, s', ev, now) {
      StepTimers(s.a, s.b.conn.h.sent, ev, now);
    } else if s.b.life != Listening {
      StepTimers(s.b, s.a.conn.h.sent, ev, now);
    } else if s'.b.life != Listening {
      BornTimers(s'.b.conn);
    }
  }

  lemma {:induction false} RunTimed(run: seq<System>)
    requires IsRun(run)
    ensures BothTimed(Last(run))
    decreases |run|
  {
    if |run| == 1 {
      BornTimers(run[0].a.conn);
    } else {
      var n := |run| - 1;
      RunPrefix(run, n);
      RunTimed(run[..n]);
      NextTimed(run[n - 1], run[n]);
    }
  }

  /** ESTABLISHED, with nothing accepted near the wrap. */
  predicate Flowing(e: Endpoint) {
    e.life == Alive && e.conn.state == Established && e.conn.iss + |e.conn.h.accepted| + 2 < MOD
  }

  lemma FlowingIsOpen(run: seq<System>)
    requires IsRun(run) && NoneWraps(Last(run)) && Flowing(Last(run).a) && Flowing(Last(run).b)
    ensures Open(Last(run).a) && Open(Last(run).b)
  {
    RunInv(run);
  }

  /** Each application can read every byte the other one's `send` has accepted. */
  predicate AllDelivered(s: System) {
    Delivered(s.b.conn) == s.a.conn.h.accepted && Delivered(s.a.conn) == s.b.conn.h.accepted
  }

  lemma AllIsThere(run: seq<System>)
    requires IsRun(run) && BothFit(Last(run))
    requires |Delivered(Last(run).b.conn)| >= |Last(run).a.conn.h.accepted|
    requires |Delivered(Last(run).a.conn)| >= |Last(run).b.conn.h.accepted|
    ensures AllDelivered(Last(run))
  {
    EndToEndSafety(run);
  }

  lemma AllHasArrived(j: Journey)
    requires Going(j)
    requires |Delivered(At(j).b.conn)| >= |At(j).a.conn.h.accepted|
    requires |Delivered(At(j).a.conn)| >= |At(j).b.conn.h.accepted|
    ensures AllDelivered(At(j))
  {
    PlayedIsRun(j.run, j.ms);
    AllIsThere(Played(j.run, j.ms));
  }

  /** With retries to spare on both sides, everything accepted can be delivered. */
  lemma DeliverBoth(j: Journey) returns (j': Journey)
    requires Going(j) && SpareAt(j) && At(j).a.conn.recvCap > 0 && At(j).b.conn.recvCap > 0
    ensures Goes(j, j') && AllDelivered(At(j'))
  {
    var j1 := DeliverAll(j, true);
    j' := DeliverAll(j1, false);
    ThenGoes(j, j1, j');
    AllHasArrived(j');
  }
}
