/** No segment is ever put on the link more than seven times. */
module Copies {
  import opened SeqSpace
  import opened Connection
  import opened Invariants
  import opened Pairs
  import opened Sender
  import opened Receiver
  import opened Steps
  import opened TwoEndpoints
  import opened NoLoss

  /** Carries a SYN, a FIN or data: the segments that go through the retransmission queue. */
  predicate Queueing(m: Segment) {
    !m.flags.rst && (m.flags.syn || m.flags.fin || (m.flags.psh && m.data != []))
  }

  /** How often such a segment starting at `s` has been sent. */
  function Count(ms: seq<Segment>, s: U32): nat {
    if ms == [] then 0 else
      Count(ms[..|ms| - 1], s) + if Queueing(ms[|ms| - 1]) && ms[|ms| - 1].seqNum == s then 1 else 0
  }

  lemma CountAppend(ms: seq<Segment>, m: Segment, s: U32)
    ensures Count(ms + [m], s) == Count(ms, s) + if Queueing(m) && m.seqNum == s then 1 else 0
  {
    assert (ms + [m])[..|ms|] == ms;
  }

  lemma {:induction false} CountZero(ms: seq<Segment>, s: U32)
    requires forall m :: m in ms && Queueing(m) ==> m.seqNum != s
    ensures Count(ms, s) == 0
    decreases |ms|
  {
    if ms != [] {
      assert ms[|ms| - 1] in ms;
      CountZero(ms[..|ms| - 1], s);
    }
  }

  /** Each queued entry has been sent once plus once per retry; nothing has been sent more than seven times. */
  ghost predicate CopiesOk(c: Conn) {
    && (forall i :: 0 <= i < |c.queue| ==> Count(c.h.sent, c.queue[i].seqNum) == 1 + c.queue[i].retryCount)
    && (forall s: U32 :: Count(c.h.sent, s) <= 7)
  }

  // ---------------------------------------------------------------- each operation

  lemma LogCopies(x: Conn, m: Segment)
    requires CopiesOk(x) && !Queueing(m)
    ensures CopiesOk(Log(x, m))
  {
    forall s: U32
      ensures Count(Log(x, m).h.sent, s) == Count(x.h.sent, s)
    {
      CountAppend(x.h.sent, m, s);
    }
  }

  lemma SameCopies(x: Conn, x': Conn)
    requires CopiesOk(x) && x'.queue == x.queue && x'.h.sent == x.h.sent
    ensures CopiesOk(x')
  {
  }

  /** The next sequence number has never been used. */
  lemma NextIsUnused(x: Conn, y: Conn)
    requires Pair(x, y)
    ensures Count(x.h.sent, x.sndNxt) == 0
    ensures forall i :: 0 <= i < |x.queue| ==> x.queue[i].seqNum != x.sndNxt
  {
    forall m | m in x.h.sent && Queueing(m)
      ensures m.seqNum != x.sndNxt
    {
      assert SegOk(StreamOf(x), Reach(x, y), m);
    }
    CountZero(x.h.sent, x.sndNxt);
    forall i | 0 <= i < |x.queue|
      ensures x.queue[i].seqNum != x.sndNxt
    {
      assert EntryOk(StreamOf(x), x.h.synced, x.queue[i]);
    }
  }

  lemma QueuedCopies(x: Conn, x': Conn, y: Conn, u: Unacked, m: Segment)
    requires Pair(x, y) && CopiesOk(x) && IsQueued(x, x', u) && u.retryCount == 0
    requires x'.h.sent == x.h.sent + [m] && m.seqNum == u.seqNum && Queueing(m)
    ensures CopiesOk(x')
  {
    NextIsUnused(x, y);
    forall s: U32
      ensures Count(x'.h.sent, s) == if s == x.sndNxt then 1 else Count(x.h.sent, s)
    {
      CountAppend(x.h.sent, m, s);
    }
  }

  lemma {:induction false} FlushLoopCopies(x: Conn, y: Conn, now: nat)
    requires Pair(x, y) && CopiesOk(x) && x.h.synced && x.h.fins == 0 && Fits(FlushLoop(x, now))
    ensures CopiesOk(FlushLoop(x, now))
    decreases |x.pending|
  {
    if x.pending != [] && Off(x.sndUna, x.sndNxt) < x.sndWnd {
      var x1 := SendChunk(x, now);
      FlushLoopFrame(x1, now);
      var u, m := SendChunkParts(x, now);
      ChunkCopies(x, x1, y, u, m);
      FlushLoopCopies(x1, y, now);
    }
  }

  lemma ChunkCopies(x: Conn, x': Conn, y: Conn, u: Unacked, m: Segment)
    requires Pair(x, y) && CopiesOk(x) && Fits(x')
    requires Queueable(x, u.flags, u.data) && IsQueued(x, x', u) && u.retryCount == 0
    requires x'.h.sent == x.h.sent + [m] && m.ackNum == x.rcvNxt
    requires m.seqNum == u.seqNum && m.flags == u.flags && m.data == u.data
    ensures CopiesOk(x') && Pair(x', y)
  {
    QueuedCopies(x, x', y, u, m);
    QueuedPair(x, x', y, u, m);
  }

  lemma DrainCopies(x: Conn, y: Conn, now: nat)
    requires Pair(x, y) && CopiesOk(x) && x.h.synced && x.h.fins == 0 && Fits(Drain(x, now))
    ensures CopiesOk(Drain(x, now))
  {
    ArmIs(x, now);
    ArmKeeps(x, y, now);
    SameCopies(x, ArmProbe(x, now));
    FlushLoopCopies(ArmProbe(x, now), y, now);
  }

  lemma SendFinCopies(x: Conn, y: Conn, now: nat)
    requires Pair(x, y) && CopiesOk(x)
    ensures CopiesOk(SendFin(x, now))
  {
    QueuedIs(x, FIN_ACK, [], now);
    QueuedCopies(x, Queued(x, FIN_ACK, [], now), y,
      Unacked(x.sndNxt, FIN_ACK, [], now, INITIAL_RTO, 0, [now]),
      Segment(x.sndNxt, x.rcvNxt, FIN_ACK, AdvertiseWindow(x), []));
    SameCopies(Queued(x, FIN_ACK, [], now), SendFin(x, now));
  }

  lemma FlushCopies(x: Conn, y: Conn, now: nat)
    requires Pair(x, y) && CopiesOk(x) && Fits(FlushSend(x, now))
    requires CanSend(x.state) ==> x.h.synced && x.h.fins == 0
    ensures CopiesOk(FlushSend(x, now))
  {
    if CanSend(x.state) {
      DrainCopies(x, y, now);
      DrainKeeps(x, y, now);
      SendFinCopies(Drain(x, now), y, now);
    }
  }

  lemma RemoveAckedCopies(c: Conn, una: U32)
    requires CopiesOk(c)
    ensures CopiesOk(RemoveAcked(c, una))
  {
    RemoveAckedFrame(c, una);
    RemoveAckedPops(c, una);
  }

  lemma ProcessAckCopies(c: Conn, m: Segment)
    requires CopiesOk(c)
    ensures CopiesOk(ProcessAck(c, m))
  {
    if m.flags.ack {
      ProcessAckIs(c, m);
      SameCopies(c, c.(sndUna := m.ackNum));
      RemoveAckedCopies(c.(sndUna := m.ackNum), m.ackNum);
      SameCopies(TakeAck(c, m.ackNum), ProcessAck(c, m));
    }
  }

  lemma AckOnlyCopies(c: Conn)
    requires CopiesOk(c)
    ensures CopiesOk(SendAckOnly(c))
  {
    LogCopies(c, Segment(c.sndNxt, c.rcvNxt, ACK, AdvertiseWindow(c), []));
  }

  lemma ReceiveCopies(c: Conn, m: Segment)
    requires CopiesOk(c)
    ensures CopiesOk(Receive(c, m))
  {
    AbsorbFrame(c, m);
    SameCopies(c, Absorb(c, m));
    AckOnlyCopies(Absorb(c, m));
  }

  lemma AckThenReceiveCopies(c: Conn, m: Segment)
    requires CopiesOk(c)
    ensures CopiesOk(AckThenReceive(c, m))
  {
    ProcessAckCopies(c, m);
    ReceiveCopies(ProcessAck(c, m), m);
  }

  // ---------------------------------------------------------------- one segment

  lemma HandshakeCopies(c: Conn, m: Segment)
    requires CopiesOk(c)
    ensures CopiesOk(OnSynSent(c, m)) && CopiesOk(OnSynRcvd(c, m))
  {
    SameCopies(c, LearnPeer(c, m));
    RemoveAckedCopies(LearnPeer(c, m), m.ackNum);
    SameCopies(RemoveAcked(LearnPeer(c, m), m.ackNum), Opened(c, m));
    AckOnlyCopies(Opened(c, m));
    SameCopies(c, c.(sndUna := m.ackNum));
    RemoveAckedCopies(c.(sndUna := m.ackNum), m.ackNum);
    SameCopies(RemoveAcked(c.(sndUna := m.ackNum), m.ackNum), Accepted(c, m));
    ReceiveCopies(Accepted(c, m), m);
  }

  lemma EstablishedCopies(x: Conn, y: Conn, m: Segment, now: nat)
    requires Pair(x, y) && LabelOk(x) && CopiesOk(x) && m in y.h.sent && !m.flags.rst && x.state == Established
    requires Fits(OnEstablished(x, m, now))
    ensures CopiesOk(OnEstablished(x, m, now))
  {
    AckThenReceiveCopies(x, m);
    AckThenReceiveKeeps(x, y, m);
    AckThenReceiveFrame(x, m);
    var x2 := AckThenReceive(x, m);
    RelabelKeeps(x2, y, CloseWait, 0);
    SameCopies(x2, x2.(state := CloseWait));
    FlushCopies(if TakesFin(x, m) then x2.(state := CloseWait) else x2, y, now);
  }

  lemma CloseWaitCopies(x: Conn, y: Conn, m: Segment, now: nat)
    requires Pair(x, y) && CopiesOk(x) && m in y.h.sent && !m.flags.rst && x.h.synced && x.h.fins == 0
    requires Fits(FlushSend(ProcessAck(x, m), now))
    ensures CopiesOk(FlushSend(ProcessAck(x, m), now))
  {
    ProcessAckCopies(x, m);
    ProcessAckKeeps(x, y, m);
    ProcessAckFrame(x, m);
    FlushCopies(ProcessAck(x, m), y, now);
  }

  lemma FinWaitCopies(c: Conn, m: Segment, now: nat)
    requires CopiesOk(c)
    ensures CopiesOk(OnFinWait1(c, m, now)) && CopiesOk(OnFinWait2(c, m, now))
  {
    AckThenReceiveCopies(c, m);
  }

  lemma ClosingCopies(c: Conn, m: Segment, now: nat)
    requires CopiesOk(c)
    ensures CopiesOk(OnClosing(c, m, now)) && CopiesOk(OnLastAck(c, m)) && CopiesOk(OnTimeWait(c, m, now))
  {
    ProcessAckCopies(c, m);
    AckOnlyCopies(c);
  }

  lemma SegmentCopies(x: Conn, y: Conn, m: Segment, now: nat)
    requires Pair(x, y) && LabelOk(x) && CopiesOk(x) && m in y.h.sent && Fits(ProcessSegment(x, m, now))
    ensures CopiesOk(ProcessSegment(x, m, now))
  {
    if m.flags.rst {
      SameCopies(x, x.(state := Closed));
    } else {
      match x.state {
        case SynSent => HandshakeCopies(x, m);
        case SynRcvd => HandshakeCopies(x, m);
        case Established => EstablishedCopies(x, y, m, now);
        case CloseWait => CloseWaitCopies(x, y, m, now);
        case FinWait1 => FinWaitCopies(x, m, now);
        case FinWait2 => FinWaitCopies(x, m, now);
        case Closed =>
        case _ => ClosingCopies(x, m, now);
      }
    }
  }

  // ---------------------------------------------------------------- timers and calls

  lemma ProbeCopies(x: Conn, now: nat)
    requires CopiesOk(x)
    ensures CopiesOk(Probe(x, now))
  {
    ProbeIs(x, now);
    LogCopies(x, ProbeSegment(x));
  }

  /** Entries of the queue start at different places. */
  lemma {:induction false} EntriesApart(x: Conn, i: nat, j: nat)
    requires TxOk(x) && i < j < |x.queue|
    ensures Off(x.iss, x.queue[i].seqNum) < Off(x.iss, x.queue[j].seqNum)
    decreases j - i
  {
    assert EntryOk(StreamOf(x), x.h.synced, x.queue[i]);
    assert NextOff(x, i) == Off(x.iss, x.queue[i + 1].seqNum);
    if i + 1 < j {
      EntriesApart(x, i + 1, j);
    }
  }

  lemma RetransmitCopies(x: Conn, now: nat)
    requires TxOk(x) && CopiesOk(x) && !GivesUp(x, now)
    ensures CopiesOk(Retransmit(x, now))
  {
    RetransmitIs(x, now);
    if x.queue != [] && Expired(x.queue[0], now) {
      var x' := Retransmit(x, now);
      var f := x.queue[0];
      assert EntryOk(StreamOf(x), x.h.synced, f);
      forall s: U32
        ensures Count(x'.h.sent, s) == Count(x.h.sent, s) + if s == f.seqNum then 1 else 0
      {
        CountAppend(x.h.sent, Resent(x), s);
      }
      forall i | 0 <= i < |x'.queue|
        ensures Count(x'.h.sent, x'.queue[i].seqNum) == 1 + x'.queue[i].retryCount
      {
        if i > 0 {
          EntriesApart(x, 0, i);
        }
      }
    }
  }

  lemma FlushedCopies(x: Conn, x': Conn, y: Conn, now: nat)
    requires Pair(x', y) && LabelOk(x) && SameLabel(x, x') && CopiesOk(x') && Fits(FlushSend(x', now))
    ensures CopiesOk(FlushSend(x', now))
  {
    FlushCopies(x', y, now);
  }

  lemma TickRestCopies(x: Conn, x1: Conn, y: Conn, now: nat)
    requires Pair(x1, y) && LabelOk(x) && OnlyTimers(x, x1) && CopiesOk(x1) && !GivesUp(x1, now)
    requires Fits(FlushSend(Retransmit(x1, now), now))
    ensures CopiesOk(FlushSend(Retransmit(x1, now), now))
  {
    RetransmitKeeps(x1, y, now);
    RetransmitCopies(x1, now);
    TimersFrame(x1, now);
    FlushedCopies(x, Retransmit(x1, now), y, now);
  }

  lemma TickCopies(x: Conn, y: Conn, now: nat)
    requires Pair(x, y) && LabelOk(x) && CopiesOk(x) && Fits(Tick(x, now))
    ensures CopiesOk(Tick(x, now))
  {
    if x.state != TimeWait {
      ProbeCopies(x, now);
      ProbeKeeps(x, y, now);
      TimersFrame(x, now);
      if !GivesUp(Probe(x, now), now) {
        TickRestCopies(x, Probe(x, now), y, now);
      }
    }
  }

  lemma SendCopies(x: Conn, y: Conn, data: seq<Byte>, now: nat)
    requires Pair(x, y) && LabelOk(x) && CopiesOk(x) && Fits(Send(x, data, now))
    ensures CopiesOk(Send(x, data, now))
  {
    BackloggedKeeps(x, y, data[..Accepts(x, data)]);
    SameCopies(x, Backlogged(x, data[..Accepts(x, data)]));
    FlushedCopies(x, Backlogged(x, data[..Accepts(x, data)]), y, now);
  }

  lemma CloseCopies(x: Conn, y: Conn, now: nat)
    requires Pair(x, y) && LabelOk(x) && CopiesOk(x) && Fits(Close(x, now))
    ensures CopiesOk(Close(x, now))
  {
    if CanSend(x.state) {
      OtherFieldsKeep(x, x.(pendingClose := true), y);
      SameCopies(x, x.(pendingClose := true));
      FlushedCopies(x, x.(pendingClose := true), y, now);
    }
  }

  lemma ActCopies(x: Conn, y: Conn, ev: Event, now: nat)
    requires Pair(x, y) && LabelOk(x) && CopiesOk(x) && Fits(Act(x, ev, now))
    ensures CopiesOk(Act(x, ev, now))
  {
    match ev {
      case Ticks => TickCopies(x, y, now);
      case Sends(data) => SendCopies(x, y, data, now);
      case Recvs(room) => RecvIs(x, room);
      case Closes => CloseCopies(x, y, now);
      case _ =>
    }
  }

  lemma StepCopies(e: Endpoint, y: Conn, ev: Event, now: nat)
    requires e.life != Listening
    requires Pair(e.conn, y) && LabelOk(e.conn) && CopiesOk(e.conn) && Fits(Step(e, y.h.sent, ev, now).conn)
    ensures CopiesOk(Step(e, y.h.sent, ev, now).conn)
  {
    if ev.Deliver? {
      if ev.i < |y.h.sent| {
        if e.life == Alive {
          SegmentCopies(e.conn, y, y.h.sent[ev.i], now);
        } else {
          LogCopies(e.conn, RstFor(y.h.sent[ev.i]));
        }
      }
    } else if e.life == Alive && !ev.Cleans? {
      ActCopies(e.conn, y, ev, now);
    }
  }

  // ---------------------------------------------------------------- over whole runs

  lemma CountOne(m: Segment, s: U32)
    ensures Count([m], s) == if Queueing(m) && m.seqNum == s then 1 else 0
  {
    assert [m][..0] == [];
  }

  /** One segment on the link and in the queue. */
  lemma FirstCopies(c: Conn, u: Unacked, m: Segment)
    requires c.queue == [u] && c.h.sent == [m] && u.seqNum == m.seqNum && u.retryCount == 0 && Queueing(m)
    ensures CopiesOk(c)
  {
    forall s: U32
      ensures Count(c.h.sent, s) <= 1 && (s == m.seqNum ==> Count(c.h.sent, s) == 1)
    {
      CountOne(m, s);
    }
  }

  lemma OpenedCopies(c: Conn, flags: Flags, now: nat)
    requires c.h.sent == [] && c.queue == [] && !flags.rst && flags.syn
    ensures CopiesOk(QueueAndSend(c, flags, [], now))
  {
    var c' := QueueAndSend(c, flags, [], now);
    FirstCopies(c', c'.queue[0], c'.h.sent[0]);
  }

  lemma NextCopies(s: System, s': System)
    requires Inv(s) && Next(s, s') && BothFit(s')
    requires CopiesOk(s.a.conn) && CopiesOk(s.b.conn)
    ensures CopiesOk(s'.a.conn) && CopiesOk(s'.b.conn)
  {
    var ev: Event, now: nat :| StepA(s, s', ev, now) || StepB(s, s', ev, now);
    if StepA(s, s', ev, now) {
      StepCopies(s.a, if Connected(s) then s.b.conn else Nobody(), ev, now);
    } else if s.b.life != Listening {
      StepCopies(s.b, s.a.conn, ev, now);
    } else {
      ListenerStep(s, s', ev, now);
      if s' != s {
        OpenedCopies(FreshFromSyn(s.a.conn.h.sent[ev.i], ev.iss), SYN_ACK, now);
      }
    }
  }

  /** In every run, no SYN, FIN or data segment goes out more than seven times. */
  lemma {:induction false} AtMostSevenCopies(run: seq<System>)
    requires IsRun(run) && BothFit(Last(run))
    ensures CopiesOk(Last(run).a.conn) && CopiesOk(Last(run).b.conn)
    decreases |run|
  {
    if |run| == 1 {
      var iss: U32, now: nat :| run[0].a.conn == Connect(iss, now);
      OpenedCopies(NewConn().(iss := iss, sndUna := iss, sndNxt := iss, state := SynSent), SYN, now);
    } else {
      var n := |run| - 1;
      RunPrefix(run, n);
      RunQuiet(run[..n]);
      NextGrew(run[n - 1], run[n]);
      RunInv(run[..n]);
      AtMostSevenCopies(run[..n]);
      NextCopies(run[n - 1], run[n]);
    }
  }
}
