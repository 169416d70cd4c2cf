/** `flush_send`: it never overruns the window, and it never stops short of it. */
module Window {
  import opened SeqSpace
  import opened Connection
  import opened Invariants
  import opened Pairs
  import opened Sender

  /** A data segment of at most one segment size that ends inside the peer's window. */
  predicate InWindow(c: Conn, m: Segment) {
    && m.flags == PSH_ACK
    && 1 <= |m.data| <= 1400
    && Off(c.sndUna, m.seqNum) + |m.data| <= c.sndWnd
  }

  /** Payloads in the order they were sent. */
  function Payloads(ms: seq<Segment>): seq<Byte> {
    if ms == [] then [] else ms[0].data + Payloads(ms[1..])
  }

  /** The effect of one chunk on what the window argument needs. */
  lemma SendChunkEffect(c: Conn, now: nat)
    requires c.pending != [] && Off(c.sndUna, c.sndNxt) < c.sndWnd
    ensures var c' := SendChunk(c, now);
      && c'.sndUna == c.sndUna && c'.sndWnd == c.sndWnd
      && (exists m :: c'.h.sent == c.h.sent + [m] && InWindow(c, m) && m.data + c'.pending == c.pending)
      && Off(c.sndUna, c'.sndNxt) <= c.sndWnd
      && |c'.pending| < |c.pending|
  {
    var n := Min(MSS, Min(c.sndWnd - Off(c.sndUna, c.sndNxt), |c.pending|));
    var c' := SendChunk(c, now);
    var m := Segment(c.sndNxt, c.rcvNxt, PSH_ACK, AdvertiseWindow(c), c.pending[..n]);
    OffAdd(c.sndUna, c.sndNxt, n);
    assert c'.h.sent == c.h.sent + [m];
    assert InWindow(c, m) && m.data + c'.pending == c.pending;
  }

  /**
   The send loop cuts a prefix of the backlog into in-window segments and stops only when the
   backlog is empty or the window is full.
   */
  ghost predicate Fills(c: Conn, c': Conn, ms: seq<Segment>) {
    && c'.h.sent == c.h.sent + ms
    && (forall m :: m in ms ==> InWindow(c, m))
    && Payloads(ms) + c'.pending == c.pending
    && (ms != [] ==> Off(c.sndUna, c'.sndNxt) <= c.sndWnd)
    && (ms == [] ==> c' == c)
    && (c'.pending == [] || Off(c.sndUna, c'.sndNxt) >= c.sndWnd)
  }

  lemma FillsStep(c: Conn, c1: Conn, c': Conn, m: Segment, ms: seq<Segment>)
    requires c1.sndUna == c.sndUna && c1.sndWnd == c.sndWnd
    requires c1.h.sent == c.h.sent + [m] && InWindow(c, m) && m.data + c1.pending == c.pending
    requires Off(c.sndUna, c1.sndNxt) <= c.sndWnd
    requires Fills(c1, c', ms)
    ensures Fills(c, c', [m] + ms)
  {
    assert ([m] + ms)[1..] == ms;
    assert c.h.sent + [m] + ms == c.h.sent + ([m] + ms);
    assert m.data + Payloads(ms) + c'.pending == m.data + (Payloads(ms) + c'.pending);
    forall n | n in [m] + ms
      ensures InWindow(c, n)
    {
      assert n == m || InWindow(c1, n);
    }
  }

  lemma {:induction false} FlushLoopFills(c: Conn, now: nat) returns (ms: seq<Segment>)
    ensures Fills(c, FlushLoop(c, now), ms)
    decreases |c.pending|
  {
    if c.pending != [] && Off(c.sndUna, c.sndNxt) < c.sndWnd {
      var c1 := SendChunk(c, now);
      SendChunkEffect(c, now);
      var m :| c1.h.sent == c.h.sent + [m] && InWindow(c, m) && m.data + c1.pending == c.pending;
      var rest := FlushLoopFills(c1, now);
      FillsStep(c, c1, FlushLoop(c, now), m, rest);
      ms := [m] + rest;
    } else {
      ms := [];
      assert c.h.sent + [] == c.h.sent;
      assert Payloads(ms) + c.pending == c.pending;
    }
  }

  /** How much the window still lets through. */
  function Room(c: Conn): nat {
    var flight := Off(c.sndUna, c.sndNxt);
    if flight < c.sndWnd then c.sndWnd - flight else 0
  }

  lemma SendChunkExact(c: Conn, now: nat)
    requires c.pending != [] && Room(c) > 0
    ensures var c' := SendChunk(c, now);
      |c'.pending| < |c.pending| && Room(c) - Room(c') == |c.pending| - |c'.pending|
  {
    OffAdd(c.sndUna, c.sndNxt, Min(MSS, Min(Room(c), |c.pending|)));
  }

  /** The send loop sends as much as there is or as the window lets through, whichever is less. */
  lemma {:induction false} FlushLoopExact(c: Conn, now: nat)
    ensures |FlushLoop(c, now).pending| == |c.pending| - Min(|c.pending|, Room(c))
    decreases |c.pending|
  {
    if c.pending != [] && Off(c.sndUna, c.sndNxt) < c.sndWnd {
      SendChunkExact(c, now);
      FlushLoopExact(SendChunk(c, now), now);
    }
  }

  /** Every segment but the last is as large as a segment can be. */
  ghost predicate Packed(ms: seq<Segment>) {
    forall i :: 0 <= i < |ms| - 1 ==> |ms[i].data| == 1400
  }

  lemma FirstChunk(c: Conn, now: nat)
    requires c.pending != [] && Room(c) > 0
    ensures var c' := SendChunk(c, now);
      && |c'.h.sent| == |c.h.sent| + 1 && |c'.h.sent[|c.h.sent|].data| == Min(1400, Min(Room(c), |c.pending|))
      && (|c'.h.sent[|c.h.sent|].data| < 1400 ==> c'.pending == [] || Room(c') == 0)
  {
    OffAdd(c.sndUna, c.sndNxt, Min(MSS, Min(Room(c), |c.pending|)));
  }

  lemma NothingMore(c: Conn, ms: seq<Segment>)
    requires Fills(c, c, ms)
    ensures ms == []
  {
    assert |c.h.sent| == |c.h.sent + ms|;
  }

  /** The send loop wastes no segment: only the last one may be short. */
  lemma {:induction false} FlushLoopPacks(c: Conn, now: nat) returns (ms: seq<Segment>)
    ensures Fills(c, FlushLoop(c, now), ms) && Packed(ms)
    decreases |c.pending|
  {
    if c.pending != [] && Off(c.sndUna, c.sndNxt) < c.sndWnd {
      var c1 := SendChunk(c, now);
      SendChunkEffect(c, now);
      FirstChunk(c, now);
      var m :| c1.h.sent == c.h.sent + [m] && InWindow(c, m) && m.data + c1.pending == c.pending;
      var rest := FlushLoopPacks(c1, now);
      FillsStep(c, c1, FlushLoop(c, now), m, rest);
      if |m.data| < 1400 {
        NothingMore(c1, rest);
      }
      ms := [m] + rest;
    } else {
      ms := FlushLoopFills(c, now);
      NothingMore(c, ms);
    }
  }

  /** The persist timer is armed whenever the backlog waits for a closed window. */
  lemma FlushExit(c: Conn, now: nat)
    requires CanSend(c.state)
    ensures var c' := FlushSend(c, now);
      CanSend(c'.state) ==>
        && (c'.pending == [] || Off(c'.sndUna, c'.sndNxt) >= c'.sndWnd)
        && (c'.sndWnd == 0 && c'.pending != [] ==> c'.probeDeadline.Some?)
        && !(c'.pendingClose && c'.pending == [])
  {
    var ms := FlushLoopFills(ArmProbe(c, now), now);
    FlushLoopFrame(ArmProbe(c, now), now);
    var c1 := FlushLoop(ArmProbe(c, now), now);
    assert |c1.pending| <= |c.pending|;
  }

  /** The FIN goes out with the flush that empties the backlog of a closing connection, and only then. */
  lemma FinIffDrained(c: Conn, now: nat)
    ensures var c' := FlushSend(c, now);
      && (c'.h.fins == c.h.fins + 1 <==> CanSend(c.state) && c.pendingClose && c'.pending == [])
      && (c'.h.fins != c.h.fins + 1 ==>
            c'.h.fins == c.h.fins && c'.state == c.state && c'.pendingClose == c.pendingClose)
      && (c'.h.fins == c.h.fins + 1 ==>
            !c'.pendingClose && c'.state == if c.state == Established then FinWait1 else LastAck)
  {
    FlushLoopFrame(ArmProbe(c, now), now);
  }

  /** The bytes the connection still answers for, oldest first. */
  function Held(c: Conn): seq<Byte> {
    QueueBytes(c.queue) + c.pending
  }

  lemma MovedHolds(c: Conn, c': Conn, u: Unacked)
    requires c'.queue == c.queue + [u] && u.data + c'.pending == c.pending
    ensures Held(c') == Held(c)
  {
    QueueBytesAppend(c.queue, u);
    assert QueueBytes(c.queue) + u.data + c'.pending == QueueBytes(c.queue) + (u.data + c'.pending);
  }

  lemma SendChunkHolds(c: Conn, now: nat)
    requires c.pending != [] && Off(c.sndUna, c.sndNxt) < c.sndWnd
    ensures Held(SendChunk(c, now)) == Held(c)
  {
    var n := Min(MSS, Min(c.sndWnd - Off(c.sndUna, c.sndNxt), |c.pending|));
    MovedHolds(c, SendChunk(c, now), Unacked(c.sndNxt, PSH_ACK, c.pending[..n], now, INITIAL_RTO, 0, [now]));
  }

  lemma {:induction false} FlushLoopHolds(c: Conn, now: nat)
    ensures Held(FlushLoop(c, now)) == Held(c)
    decreases |c.pending|
  {
    if c.pending != [] && Off(c.sndUna, c.sndNxt) < c.sndWnd {
      SendChunkHolds(c, now);
      FlushLoopHolds(SendChunk(c, now), now);
    }
  }

  /** A flush only moves bytes from the backlog to the queue, in order. */
  lemma FlushHolds(c: Conn, now: nat)
    ensures Held(FlushSend(c, now)) == Held(c)
  {
    if CanSend(c.state) {
      FlushLoopHolds(ArmProbe(c, now), now);
      var c1 := Drain(c, now);
      if c1.pendingClose && c1.pending == [] {
        MovedHolds(c1, SendFin(c1, now), Unacked(c1.sndNxt, FIN_ACK, [], now, INITIAL_RTO, 0, [now]));
      }
    }
  }

  /** `close` on an open connection sends the FIN at once or remembers to, and abandons no byte. */
  lemma CloseIsGraceful(c: Conn, now: nat)
    requires CanSend(c.state)
    ensures var c' := Close(c, now);
      && (if c'.pending == [] then c'.h.fins == c.h.fins + 1 && !CanSend(c'.state)
          else c'.h.fins == c.h.fins && c'.pendingClose && c'.state == c.state)
      && Held(c') == Held(c)
  {
    FinIffDrained(c.(pendingClose := true), now);
    FlushHolds(c.(pendingClose := true), now);
  }

  /** `send` accepts a prefix of the data, and refuses the rest only when the backlog's cap is reached. */
  lemma SendAccepts(c: Conn, data: seq<Byte>, now: nat)
    ensures var n := Accepts(c, data);
      && Send(c, data, now).h.accepted == c.h.accepted + data[..n]
      && Held(Send(c, data, now)) == Held(c) + data[..n]
      && (n < |data| ==> |c.pending| + n >= c.sendCap)
      && (n > 0 ==> |c.pending| + n <= c.sendCap)
      && (|c.pending| <= c.sendCap ==> |Send(c, data, now).pending| <= c.sendCap)
  {
    var c0 := Backlogged(c, data[..Accepts(c, data)]);
    FlushHolds(c0, now);
    assert Held(c0) == Held(c) + data[..Accepts(c, data)];
    if CanSend(c.state) {
      var ms := FlushLoopFills(ArmProbe(c0, now), now);
      FlushLoopFrame(ArmProbe(c0, now), now);
    }
  }
}
