/** The sending half: `flush_send`, `remove_acked` and `process_ack` keep the pair consistent. */
module Sender {
  import opened SeqSpace
  import opened Connection
  import opened Invariants
  import opened Pairs

  // ---------------------------------------------------------------- flush_send

  lemma SendChunkIs(c: Conn, now: nat)
    requires c.pending != [] && Off(c.sndUna, c.sndNxt) < c.sndWnd
    ensures exists n :: 0 < n <= |c.pending| && n <= MSS && SendChunk(c, now) == Queued(c, PSH_ACK, c.pending[..n], now)
  {
    var n := Min(MSS, Min(c.sndWnd - Off(c.sndUna, c.sndNxt), |c.pending|));
    assert |c.pending[..n]| == n;
    assert SendChunk(c, now) == Queued(c, PSH_ACK, c.pending[..n], now);
  }

  /** One chunk as a queued entry and a logged segment. */
  lemma SendChunkParts(x: Conn, now: nat) returns (u: Unacked, m: Segment)
    requires x.pending != [] && Off(x.sndUna, x.sndNxt) < x.sndWnd && x.h.synced && x.h.fins == 0
    ensures var x' := SendChunk(x, now);
      && Queueable(x, u.flags, u.data) && IsQueued(x, x', u)
      && x'.h.sent == x.h.sent + [m] && m.ackNum == x.rcvNxt && m.window == AdvertiseWindow(x)
      && m.seqNum == u.seqNum && m.flags == u.flags && m.data == u.data
      && x'.sndWnd == x.sndWnd && x'.recvCap == x.recvCap
      && x'.h.fins == 0 && |x'.pending| < |x.pending| && u.retryCount == 0
  {
    SendChunkIs(x, now);
    var n :| 0 < n <= |x.pending| && n <= MSS && SendChunk(x, now) == Queued(x, PSH_ACK, x.pending[..n], now);
    var d := x.pending[..n];
    QueuedIs(x, PSH_ACK, d, now);
    u := Unacked(x.sndNxt, PSH_ACK, d, now, INITIAL_RTO, 0, [now]);
    m := Segment(x.sndNxt, x.rcvNxt, PSH_ACK, AdvertiseWindow(x), d);
  }

  /** The send loop touches nothing but the queue, the backlog and the output. */
  ghost predicate OnlyQueues(c: Conn, c': Conn) {
    && c' == c.(queue := c'.queue, sndNxt := c'.sndNxt, pending := c'.pending,
                h := c.h.(sent := c'.h.sent, out := c'.h.out, cuts := c'.h.cuts))
    && c.h.out <= c'.h.out
  }

  lemma {:induction false} FlushLoopFrame(c: Conn, now: nat)
    ensures OnlyQueues(c, FlushLoop(c, now))
    decreases |c.pending|
  {
    if c.pending != [] && Off(c.sndUna, c.sndNxt) < c.sndWnd {
      FlushLoopFrame(SendChunk(c, now), now);
    }
  }

  lemma {:induction false} FlushLoopKeeps(x: Conn, y: Conn, now: nat)
    requires Pair(x, y) && x.h.synced && x.h.fins == 0 && Fits(FlushLoop(x, now))
    ensures Pair(FlushLoop(x, now), y)
    decreases |x.pending|
  {
    if x.pending != [] && Off(x.sndUna, x.sndNxt) < x.sndWnd {
      var x1 := SendChunk(x, now);
      FlushLoopFrame(x1, now);
      var u, m := SendChunkParts(x, now);
      QueuedPair(x, x1, y, u, m);
      FlushLoopKeeps(x1, y, now);
    }
  }

  lemma SendFinKeeps(x: Conn, y: Conn, now: nat)
    requires Pair(x, y) && x.h.synced && x.h.fins == 0
    ensures Pair(SendFin(x, now), y)
  {
    QueuedIs(x, FIN_ACK, [], now);
    QueuedKeeps(x, y, FIN_ACK, [], now);
    OtherFieldsKeep(Queued(x, FIN_ACK, [], now), SendFin(x, now), y);
  }

  /** `flush_send` up to the deferred FIN. */
  ghost function Drain(x: Conn, now: nat): Conn {
    FlushLoop(ArmProbe(x, now), now)
  }

  /** Arming the persist timer touches nothing else. */
  lemma ArmIs(x: Conn, now: nat)
    ensures ArmProbe(x, now) == x.(probeDeadline := ArmProbe(x, now).probeDeadline)
  {
  }

  lemma ArmKeeps(x: Conn, y: Conn, now: nat)
    requires Pair(x, y)
    ensures Pair(ArmProbe(x, now), y)
  {
    ArmIs(x, now);
    OtherFieldsKeep(x, ArmProbe(x, now), y);
  }

  lemma DrainKeeps(x: Conn, y: Conn, now: nat)
    requires Pair(x, y) && x.h.synced && x.h.fins == 0 && Fits(Drain(x, now))
    ensures Pair(Drain(x, now), y)
    ensures Drain(x, now).h.synced && Drain(x, now).h.fins == 0
  {
    ArmIs(x, now);
    ArmKeeps(x, y, now);
    FlushLoopFrame(ArmProbe(x, now), now);
    FlushLoopKeeps(ArmProbe(x, now), y, now);
  }

  lemma FlushKeeps(x: Conn, y: Conn, now: nat)
    requires Pair(x, y) && Fits(FlushSend(x, now))
    requires CanSend(x.state) ==> x.h.synced && x.h.fins == 0
    ensures Pair(FlushSend(x, now), y)
  {
    if CanSend(x.state) {
      DrainKeeps(x, y, now);
      var x1 := Drain(x, now);
      if x1.pendingClose && x1.pending == [] {
        SendFinKeeps(x1, y, now);
      }
    }
  }

  // ---------------------------------------------------------------- remove_acked, process_ack

  ghost function PopFront(c: Conn): Conn
    requires c.queue != []
  {
    c.(queue := c.queue[1..], h := c.h.(popped := c.h.popped + c.queue[0].data))
  }

  lemma PopFrontQueueOk(x: Conn)
    requires QueueOk(x) && x.queue != [] && Off(x.iss, x.sndNxt) == 1 + |x.h.out| + x.h.fins
    ensures QueueOk(PopFront(x))
  {
    var x' := PopFront(x);
    forall i | 0 <= i < |x'.queue|
      ensures EntryOk(StreamOf(x'), x'.h.synced, x'.queue[i])
      ensures Off(x'.iss, x'.queue[i].seqNum) + SegLen(x'.queue[i].flags, x'.queue[i].data) == NextOff(x', i)
    {
      assert x'.queue[i] == x.queue[i + 1];
      assert EntryOk(StreamOf(x), x.h.synced, x.queue[i + 1]);
      assert NextOff(x', i) == NextOff(x, i + 1);
    }
    assert EntryOk(StreamOf(x), x.h.synced, x.queue[0]);
    assert NextOff(x, 0) == Off(x.iss, x.queue[0].seqNum) + SegLen(x.queue[0].flags, x.queue[0].data);
  }

  lemma PopFrontTxOk(x: Conn)
    requires TxOk(x) && x.queue != []
    ensures TxOk(PopFront(x))
  {
    PopFrontQueueOk(x);
    PopConserves(x.h.popped, x.queue);
  }

  lemma PopConserves(popped: seq<Byte>, q: seq<Unacked>)
    requires q != []
    ensures popped + QueueBytes(q) == popped + q[0].data + QueueBytes(q[1..])
  {
  }

  /** `remove_acked` touches nothing but the queue. */
  ghost predicate OnlyPops(c: Conn, c': Conn) {
    c' == c.(queue := c'.queue, h := c.h.(popped := c'.h.popped))
  }

  lemma {:induction false} RemoveAckedFrame(c: Conn, una: U32)
    ensures OnlyPops(c, RemoveAcked(c, una))
    decreases |c.queue|
  {
    if c.queue != [] && End(c.queue[0]) <= una {
      RemoveAckedFrame(PopFront(c), una);
    }
  }

  lemma {:induction false} RemoveAckedTxOk(x: Conn, una: U32)
    requires TxOk(x)
    ensures TxOk(RemoveAcked(x, una))
    decreases |x.queue|
  {
    if x.queue != [] && End(x.queue[0]) <= una {
      PopFrontTxOk(x);
      RemoveAckedTxOk(PopFront(x), una);
    }
  }

  /** Moving `sndUna` to an honest acknowledgement, with the pops that go with it. */
  lemma UnaKeeps(x: Conn, y: Conn, ack: U32)
    requires Pair(x, y) && Off(x.iss, ack) <= Reach(x, y)
    ensures Pair(RemoveAcked(x.(sndUna := ack), ack), y)
  {
    var x0 := x.(sndUna := ack);
    var x' := RemoveAcked(x0, ack);
    TxSame(x, x0);
    RemoveAckedTxOk(x0, ack);
    RemoveAckedFrame(x0, ack);
    AcksSame(x, x');
    RxSame(x, x', y);
    LinkGrows(x, x', y);
  }

  /** An acknowledgement of the peer never runs ahead of what the peer received. */
  lemma AckWithinReach(x: Conn, y: Conn, m: Segment)
    requires Pair(x, y) && m in y.h.sent && !m.flags.rst && m.flags.ack
    ensures y.h.synced && y.irs == x.iss
    ensures 1 <= Off(x.iss, m.ackNum) <= Reach(x, y) <= Off(x.iss, x.sndNxt)
  {
    assert AckHonest(y, m);
  }

  /** The part of `process_ack` that moves `sndUna`. */
  ghost function TakeAck(x: Conn, ack: U32): Conn {
    if ack > x.sndUna then RemoveAcked(x.(sndUna := ack), ack) else x
  }

  lemma ProcessAckIs(x: Conn, m: Segment)
    requires m.flags.ack
    ensures var x' := ProcessAck(x, m);
      x' == TakeAck(x, m.ackNum).(sndWnd := m.window, probeDeadline := x'.probeDeadline, probeRto := x'.probeRto)
  {
  }

  lemma ProcessAckKeeps(x: Conn, y: Conn, m: Segment)
    requires Pair(x, y) && m in y.h.sent && !m.flags.rst
    ensures Pair(ProcessAck(x, m), y)
  {
    if m.flags.ack {
      AckWithinReach(x, y, m);
      if m.ackNum > x.sndUna {
        UnaKeeps(x, y, m.ackNum);
      }
      ProcessAckIs(x, m);
      OtherFieldsKeep(TakeAck(x, m.ackNum), ProcessAck(x, m), y);
    }
  }
}
