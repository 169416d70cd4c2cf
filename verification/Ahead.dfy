/**
 Without wrap, the out-of-order buffer holds nothing but whole segments that lie
 ahead of the receiver: nothing delivered is kept twice.
 */
module Ahead {
  import opened SeqSpace
  import opened Connection
  import opened Invariants
  import opened Sender
  import opened Receiver
  import opened Steps
  import opened TwoEndpoints
  import opened NoLoss

  /** Everything buffered out of order lies ahead. */
  predicate KeysAhead(r: Conn) {
    forall k :: k in r.ooo ==> Off(r.irs, r.rcvNxt) < Off(r.irs, k)
  }

  /** Everything buffered out of order is a segment of the stream that lies ahead. */
  ghost predicate OooAhead(t: Stream, r: Conn) {
    forall k :: k in r.ooo ==> ChunkAt(t, k, r.ooo[k]) && Off(t.iss, r.rcvNxt) < Off(t.iss, k)
  }

  lemma AheadIs(t: Stream, r: Conn)
    requires RxOk(t, r) && KeysAhead(r)
    ensures OooAhead(t, r)
  {
    forall k | k in r.ooo
      ensures ChunkAt(t, k, r.ooo[k])
    {
      assert BufferedOk(t, r.rcvNxt, k, r.ooo[k]);
    }
  }

  // ---------------------------------------------------------------- one arrival

  /** As `OooAhead`, while the splice loop is under way. */
  ghost predicate OooNotBehind(t: Stream, r: Conn) {
    forall k :: k in r.ooo ==> ChunkAt(t, k, r.ooo[k]) && Off(t.iss, r.rcvNxt) <= Off(t.iss, k)
  }

  /** Appending a whole segment cannot jump over a buffered one. */
  lemma AppendNotBehind(t: Stream, c: Conn, c': Conn, d: seq<Byte>)
    requires OooNotBehind(t, c) && ChunkAt(t, c.rcvNxt, d) && |t.out| + 2 < MOD
    requires c'.rcvNxt == Add(c.rcvNxt, |d|)
    requires forall k :: k in c'.ooo ==> k in c.ooo && c'.ooo[k] == c.ooo[k] && k != c.rcvNxt
    ensures OooNotBehind(t, c')
  {
    OffAdd(t.iss, c.rcvNxt, |d|);
    forall k | k in c'.ooo
      ensures ChunkAt(t, k, c'.ooo[k]) && Off(t.iss, c'.rcvNxt) <= Off(t.iss, k)
    {
      assert ChunkAt(t, k, c.ooo[k]);
      OffInjective(t.iss, k, c.rcvNxt);
    }
  }

  lemma {:induction false} SpliceAhead(t: Stream, c: Conn)
    requires RxOk(t, c) && c.h.finsTaken == 0 && |t.out| + 2 < MOD && OooNotBehind(t, c)
    ensures OooAhead(t, Splice(c))
    decreases |c.ooo|
  {
    if c.rcvNxt in c.ooo {
      AppendKeeps(t, c, TakeBuffered(c), c.ooo[c.rcvNxt]);
      AppendNotBehind(t, c, TakeBuffered(c), c.ooo[c.rcvNxt]);
      SpliceAhead(t, TakeBuffered(c));
    } else {
      forall k | k in c.ooo
        ensures Off(t.iss, c.rcvNxt) < Off(t.iss, k)
      {
        OffInjective(t.iss, k, c.rcvNxt);
      }
    }
  }

  /** When the FIN is taken nothing can be left in the buffer. */
  lemma TakeFinAhead(t: Stream, c: Conn)
    requires OooAhead(t, c) && Off(t.iss, c.rcvNxt) == |t.out| + 1
    ensures OooAhead(t, TakeFin(c))
  {
  }

  lemma InOrderAhead(t: Stream, c: Conn, m: Segment)
    requires RxOk(t, c) && c.h.finsTaken == 0 && |t.out| + 2 < MOD && OooAhead(t, c)
    requires Honest(t, m) && m.seqNum == c.rcvNxt
    ensures OooAhead(t, Absorb(c, m))
  {
    TakeDataKeeps(t, c, m);
    if m.data == [] {
      assert TakeData(c, m.data) == c;
    } else {
      AppendNotBehind(t, c, TakeData(c, m.data), m.data);
    }
    SpliceAhead(t, TakeData(c, m.data));
    if m.flags.fin {
      SpliceKeeps(t, TakeData(c, m.data));
      NothingAtEnd(t, c);
      TakeFinAhead(t, Splice(TakeData(c, m.data)));
    }
  }

  lemma AbsorbAhead(t: Stream, c: Conn, m: Segment)
    requires RxOk(t, c) && c.h.finsTaken == 0 && t.iss + |t.out| + 2 < MOD && OooAhead(t, c)
    requires !m.flags.rst && SegOk(t, Off(t.iss, c.rcvNxt), m)
    ensures OooAhead(t, Absorb(c, m))
  {
    if m.seqNum == c.rcvNxt {
      InOrderAhead(t, c, m);
    } else if m.seqNum > c.rcvNxt && m.data != [] && BufferedBytes(c) + |m.data| <= c.recvCap {
      OffNumeric(t.iss, c.rcvNxt);
      OffNumeric(t.iss, m.seqNum);
    }
  }

  /** Any segment of the peer leaves only what lies ahead in the buffer. */
  lemma ReceiveAhead(x: Conn, y: Conn, m: Segment)
    requires Pair(x, y) && NoWrap(y) && x.h.synced && x.h.finsTaken == 0 && KeysAhead(x)
    requires m in y.h.sent && !m.flags.rst
    ensures KeysAhead(Absorb(x, m)) && KeysAhead(Receive(x, m))
  {
    assert SegOk(StreamOf(y), Reach(y, x), m);
    AheadIs(StreamOf(y), x);
    AbsorbAhead(StreamOf(y), x, m);
    AbsorbFrame(x, m);
  }

  // ---------------------------------------------------------------- one step

  predicate SameOoo(x: Conn, x': Conn) {
    x'.irs == x.irs && x'.rcvNxt == x.rcvNxt && x'.ooo == x.ooo
  }

  lemma FlushOoo(x: Conn, now: nat)
    ensures SameOoo(x, FlushSend(x, now))
  {
    FlushLoopFrame(ArmProbe(x, now), now);
  }

  lemma AckThenReceiveAhead(x: Conn, y: Conn, m: Segment)
    requires Pair(x, y) && NoWrap(y) && x.h.synced && x.h.finsTaken == 0 && KeysAhead(x)
    requires m in y.h.sent && !m.flags.rst
    ensures KeysAhead(AckThenReceive(x, m))
  {
    ProcessAckKeeps(x, y, m);
    ProcessAckFrame(x, m);
    ReceiveAhead(ProcessAck(x, m), y, m);
  }

  lemma SynRcvdAhead(x: Conn, y: Conn, m: Segment)
    requires Pair(x, y) && NoWrap(y) && x.h.synced && x.h.finsTaken == 0 && KeysAhead(x)
    requires m in y.h.sent && !m.flags.rst
    ensures KeysAhead(OnSynRcvd(x, m))
  {
    if AcksAll(x, m) {
      AcceptedKeeps(x, y, m);
      ReceiveAhead(Accepted(x, m), y, m);
    }
  }

  /** Before the peer's sequence number is known nothing is buffered. */
  lemma SynSentAhead(x: Conn, m: Segment)
    requires x.ooo == map[]
    ensures KeysAhead(OnSynSent(x, m))
  {
    RemoveAckedFrame(LearnPeer(x, m), m.ackNum);
  }

  lemma SendingAhead(x: Conn, y: Conn, m: Segment, now: nat)
    requires Pair(x, y) && NoWrap(y) && x.h.synced && x.h.finsTaken == 0 && KeysAhead(x)
    requires m in y.h.sent && !m.flags.rst
    ensures KeysAhead(OnEstablished(x, m, now))
  {
    AckThenReceiveAhead(x, y, m);
    EstablishedIs(x, m, now);
    FlushOoo(Taken(x, m), now);
  }

  lemma FinWaitAhead(x: Conn, y: Conn, m: Segment, now: nat)
    requires Pair(x, y) && NoWrap(y) && x.h.synced && x.h.finsTaken == 0 && KeysAhead(x)
    requires m in y.h.sent && !m.flags.rst
    ensures KeysAhead(OnFinWait1(x, m, now)) && KeysAhead(OnFinWait2(x, m, now))
  {
    AckThenReceiveAhead(x, y, m);
    FinWaitIs(x, m, now);
  }

  /** States that take no data leave the buffer alone. */
  lemma ClosingOoo(x: Conn, m: Segment, now: nat)
    ensures SameOoo(x, OnClosing(x, m, now)) && SameOoo(x, OnLastAck(x, m)) && SameOoo(x, OnTimeWait(x, m, now))
    ensures SameOoo(x, FlushSend(ProcessAck(x, m), now))
  {
    ProcessAckFrame(x, m);
    FlushOoo(ProcessAck(x, m), now);
  }

  lemma SegmentAhead(x: Conn, y: Conn, m: Segment, now: nat)
    requires Pair(x, y) && LabelOk(x) && NoWrap(y) && KeysAhead(x) && m in y.h.sent
    ensures KeysAhead(ProcessSegment(x, m, now))
  {
    if !m.flags.rst {
      match x.state {
        case SynSent => SynSentAhead(x, m);
        case SynRcvd => SynRcvdAhead(x, y, m);
        case Established => SendingAhead(x, y, m, now);
        case FinWait1 => FinWaitAhead(x, y, m, now);
        case FinWait2 => FinWaitAhead(x, y, m, now);
        case Closed =>
        case _ => ClosingOoo(x, m, now);
      }
    }
  }

  lemma TickOoo(x: Conn, now: nat)
    ensures SameOoo(x, Tick(x, now))
  {
    TimersFrame(x, now);
    TimersFrame(Probe(x, now), now);
    FlushOoo(Retransmit(Probe(x, now), now), now);
  }

  lemma ActOoo(x: Conn, ev: Event, now: nat)
    ensures SameOoo(x, Act(x, ev, now))
  {
    match ev {
      case Ticks => TickOoo(x, now);
      case Sends(data) => FlushOoo(Backlogged(x, data[..Accepts(x, data)]), now);
      case Recvs(room) => RecvIs(x, room);
      case Closes => FlushOoo(x.(pendingClose := true), now);
      case _ =>
    }
  }

  lemma StepAhead(e: Endpoint, y: Conn, ev: Event, now: nat)
    requires e.life != Listening && Pair(e.conn, y) && LabelOk(e.conn) && NoWrap(y) && KeysAhead(e.conn)
    ensures KeysAhead(Step(e, y.h.sent, ev, now).conn)
  {
    if ev.Deliver? {
      if ev.i < |y.h.sent| && e.life == Alive {
        SegmentAhead(e.conn, y, y.h.sent[ev.i], now);
      }
    } else {
      ActOoo(e.conn, ev, now);
    }
  }

  // ---------------------------------------------------------------- over whole runs

  ghost predicate BothAhead(s: System) {
    KeysAhead(s.a.conn) && KeysAhead(s.b.conn)
  }

  lemma NextAhead(s: System, s': System)
    requires Inv(s) && NoneWraps(s) && Next(s, s') && BothAhead(s)
    ensures BothAhead(s')
  {
    var ev: Event, now: nat :| StepA(s, s', ev, now) || StepB(s, s', ev, now);
    if StepA(s, s', ev, now) {
      StepAhead(s.a, if Connected(s) then s.b.conn else Nobody(), ev, now);
    } else if s.b.life != Listening {
      StepAhead(s.b, s.a.conn, ev, now);
    } else {
      ListenerStep(s, s', ev, now);
    }
  }

  lemma StaysAhead(run: seq<System>, n: nat)
    requires IsRun(run) && 0 < n == |run| - 1 && NoneWraps(Last(run)) && BothAhead(run[n - 1])
    ensures BothAhead(Last(run))
  {
    NoneWrapBefore(run, n);
    RunPrefix(run, n);
    RunInv(run[..n]);
    NextAhead(run[n - 1], run[n]);
  }

  /** In every run without wrap, nothing is buffered that has been delivered already. */
  lemma {:induction false} RunAhead(run: seq<System>)
    requires IsRun(run) && NoneWraps(Last(run))
    ensures BothAhead(Last(run))
    decreases |run|
  {
    if |run| > 1 {
      var n := |run| - 1;
      NoneWrapBefore(run, n);
      RunPrefix(run, n);
      RunAhead(run[..n]);
      StaysAhead(run, n);
    }
  }
}
