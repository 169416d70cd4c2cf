/**
 No byte is lost while the sequence numbers do not wrap: what leaves the
 retransmission queue has reached the peer, and what the peer lacks is still queued.
 */
module NoLoss {
  import opened SeqSpace
  import opened Connection
  import opened Invariants
  import opened Pairs
  import opened Sender
  import opened Receiver
  import opened Steps
  import opened TwoEndpoints

  /** From the SYN to the FIN, no sequence number wraps: the plain `<=` comparisons are sound. */
  predicate NoWrap(c: Conn) {
    c.iss + |c.h.out| + 2 < MOD
  }

  /** `sndUna` lies in the front entry of the queue; an empty queue means everything is acknowledged. */
  ghost predicate UnaOk(c: Conn) {
    if c.queue == [] then c.sndUna == c.sndNxt
    else Off(c.iss, c.queue[0].seqNum) <= Off(c.iss, c.sndUna)
         < Off(c.iss, c.queue[0].seqNum) + SegLen(c.queue[0].flags, c.queue[0].data)
  }

  /** In FIN_WAIT_2 and TIME_WAIT nothing is outstanding. */
  ghost predicate FinAckedOk(c: Conn) {
    c.state == FinWait2 || c.state == TimeWait ==> c.sndUna == c.sndNxt
  }

  ghost predicate Tight(c: Conn) {
    UnaOk(c) && FinAckedOk(c)
  }

  // ---------------------------------------------------------------- remove_acked

  lemma {:induction false} EndOff(c: Conn, i: nat)
    requires TxOk(c) && NoWrap(c) && i < |c.queue|
    ensures c.iss <= c.queue[i].seqNum
    ensures End(c.queue[i]) == c.iss + NextOff(c, i)
    ensures Off(c.iss, c.queue[i].seqNum) < NextOff(c, i) <= Off(c.iss, c.sndNxt)
    decreases |c.queue| - i
  {
    assert EntryOk(StreamOf(c), c.h.synced, c.queue[i]);
    if i + 1 < |c.queue| {
      EndOff(c, i + 1);
    }
  }

  /** Under an honest acknowledgement, `remove_acked` leaves `sndUna` in the front entry. */
  lemma {:induction false} RemoveAckedUna(c: Conn)
    requires TxOk(c) && NoWrap(c)
    requires Off(c.iss, c.sndUna) <= Off(c.iss, c.sndNxt)
    requires c.queue != [] ==> Off(c.iss, c.queue[0].seqNum) <= Off(c.iss, c.sndUna)
    requires c.queue == [] ==> c.sndUna == c.sndNxt
    ensures UnaOk(RemoveAcked(c, c.sndUna))
    decreases |c.queue|
  {
    if c.queue != [] {
      EndOff(c, 0);
      if End(c.queue[0]) <= c.sndUna {
        PopFrontTxOk(c);
        RemoveAckedUna(PopFront(c));
      }
    }
  }

  /** How many entries at the front end at or below `una`. */
  function PopCount(q: seq<Unacked>, una: U32): nat {
    if q != [] && End(q[0]) <= una then 1 + PopCount(q[1..], una) else 0
  }

  ghost predicate EndsSorted(q: seq<Unacked>) {
    forall i, j :: 0 <= i <= j < |q| ==> End(q[i]) <= End(q[j])
  }

  lemma {:induction false} PopCountExact(q: seq<Unacked>, una: U32)
    requires EndsSorted(q)
    ensures PopCount(q, una) <= |q|
    ensures forall i :: 0 <= i < |q| ==> (i < PopCount(q, una) <==> End(q[i]) <= una)
  {
    if q != [] && End(q[0]) <= una {
      var rest := q[1..];
      assert forall i :: 0 <= i < |rest| ==> rest[i] == q[i + 1];
      PopCountExact(rest, una);
      assert forall i :: 0 < i < |q| ==> q[i] == rest[i - 1];
    }
  }

  lemma {:induction false} RemoveAckedPops(c: Conn, una: U32)
    ensures PopCount(c.queue, una) <= |c.queue|
    ensures RemoveAcked(c, una).queue == c.queue[PopCount(c.queue, una)..]
    ensures RemoveAcked(c, una).h.popped == c.h.popped + QueueBytes(c.queue[..PopCount(c.queue, una)])
    decreases |c.queue|
  {
    var q := c.queue;
    var k := PopCount(q, una);
    if q != [] && End(q[0]) <= una {
      RemoveAckedPops(PopFront(c), una);
      assert q[..k][1..] == q[1..][..k - 1];
      var tail := QueueBytes(q[1..][..k - 1]);
      assert c.h.popped + q[0].data + tail == c.h.popped + (q[0].data + tail);
    } else {
      assert q[..0] == [];
    }
  }

  /** Entries begin one after the other. */
  lemma {:induction false} NextOffSorted(c: Conn, i: nat, j: nat)
    requires i <= j < |c.queue|
    requires forall k {:trigger NextOff(c, k)} :: 0 <= k < |c.queue| ==> Off(c.iss, c.queue[k].seqNum) <= NextOff(c, k)
    ensures NextOff(c, i) <= NextOff(c, j)
    decreases j - i
  {
    if i < j {
      assert NextOff(c, i) == Off(c.iss, c.queue[i + 1].seqNum) <= NextOff(c, i + 1);
      NextOffSorted(c, i + 1, j);
    }
  }

  lemma EndsOrdered(c: Conn, i: nat, j: nat)
    requires TxOk(c) && NoWrap(c) && i <= j < |c.queue|
    ensures End(c.queue[i]) <= End(c.queue[j])
  {
    EndOff(c, i);
    EndOff(c, j);
    NextOffSorted(c, i, j);
  }

  /** `remove_acked` pops exactly the entries that are acknowledged to the end, and keeps their bytes in order. */
  lemma RemoveAckedExact(c: Conn, una: U32) returns (k: nat)
    requires TxOk(c) && NoWrap(c)
    ensures k <= |c.queue|
    ensures RemoveAcked(c, una).queue == c.queue[k..]
    ensures RemoveAcked(c, una).h.popped == c.h.popped + QueueBytes(c.queue[..k])
    ensures forall i :: 0 <= i < |c.queue| ==> (i < k <==> End(c.queue[i]) <= una)
  {
    k := PopCount(c.queue, una);
    RemoveAckedPops(c, una);
    forall i, j | 0 <= i <= j < |c.queue|
      ensures End(c.queue[i]) <= End(c.queue[j])
    {
      EndsOrdered(c, i, j);
    }
    PopCountExact(c.queue, una);
  }

  // ---------------------------------------------------------------- the other steps

  lemma QueuedUna(x: Conn, x': Conn, u: Unacked)
    requires TxOk(x) && UnaOk(x) && IsQueued(x, x', u) && SegLen(u.flags, u.data) > 0
    ensures UnaOk(x')
  {
    if x.queue != [] {
      assert x'.queue[0] == x.queue[0];
    }
  }

  lemma {:induction false} FlushLoopUna(x: Conn, y: Conn, now: nat)
    requires Pair(x, y) && x.h.synced && x.h.fins == 0 && Fits(FlushLoop(x, now)) && UnaOk(x)
    ensures UnaOk(FlushLoop(x, now))
    decreases |x.pending|
  {
    if x.pending != [] && Off(x.sndUna, x.sndNxt) < x.sndWnd {
      var x1 := SendChunk(x, now);
      FlushLoopFrame(x1, now);
      var u, m := SendChunkParts(x, now);
      QueuedPair(x, x1, y, u, m);
      QueuedUna(x, x1, u);
      FlushLoopUna(x1, y, now);
    }
  }

  lemma DrainTight(x: Conn, y: Conn, now: nat)
    requires Pair(x, y) && x.h.synced && x.h.fins == 0 && Fits(Drain(x, now)) && UnaOk(x)
    ensures UnaOk(Drain(x, now)) && Drain(x, now).state == x.state
  {
    ArmIs(x, now);
    ArmKeeps(x, y, now);
    FlushLoopFrame(ArmProbe(x, now), now);
    FlushLoopUna(ArmProbe(x, now), y, now);
  }

  lemma FlushTight(x: Conn, y: Conn, now: nat)
    requires Pair(x, y) && Fits(FlushSend(x, now)) && Tight(x)
    requires CanSend(x.state) ==> x.h.synced && x.h.fins == 0
    ensures Tight(FlushSend(x, now))
  {
    if CanSend(x.state) {
      DrainTight(x, y, now);
      DrainKeeps(x, y, now);
      SendFinTight(Drain(x, now), now);
    }
  }

  lemma SendFinTight(x: Conn, now: nat)
    requires TxOk(x) && UnaOk(x)
    ensures UnaOk(SendFin(x, now))
  {
    QueuedIs(x, FIN_ACK, [], now);
    QueuedUna(x, Queued(x, FIN_ACK, [], now), Unacked(x.sndNxt, FIN_ACK, [], now, INITIAL_RTO, 0, [now]));
  }

  lemma UnaStepTight(x: Conn, y: Conn, ack: U32)
    requires Pair(x, y) && NoWrap(x) && UnaOk(x)
    requires Off(x.iss, x.sndUna) <= Off(x.iss, ack) <= Reach(x, y)
    ensures UnaOk(RemoveAcked(x.(sndUna := ack), ack))
  {
    var x0 := x.(sndUna := ack);
    TxSame(x, x0);
    RemoveAckedUna(x0);
  }

  lemma ProcessAckTight(x: Conn, y: Conn, m: Segment)
    requires Pair(x, y) && NoWrap(x) && Tight(x) && m in y.h.sent && !m.flags.rst
    ensures UnaOk(ProcessAck(x, m)) && FinAckedOk(ProcessAck(x, m))
    ensures AcksAll(x, m) ==> ProcessAck(x, m).sndUna == x.sndNxt
  {
    if m.flags.ack {
      AckWithinReach(x, y, m);
      ProcessAckIs(x, m);
      if m.ackNum > x.sndUna {
        UnaStepTight(x, y, m.ackNum);
        RemoveAckedFrame(x.(sndUna := m.ackNum), m.ackNum);
      }
    }
  }

  /** Receiving leaves the sending half alone. */
  lemma ReceiveTight(x: Conn, m: Segment)
    ensures UnaOk(x) ==> UnaOk(Receive(x, m))
    ensures Receive(x, m).sndUna == x.sndUna && Receive(x, m).sndNxt == x.sndNxt
  {
    AbsorbFrame(x, m);
  }

  // ---------------------------------------------------------------- one segment

  lemma HandshakeTight(x: Conn, y: Conn, m: Segment)
    requires Pair(x, y) && NoWrap(x) && UnaOk(x) && m in y.h.sent && !m.flags.rst && AcksAll(x, m)
    ensures UnaOk(RemoveAcked(LearnPeer(x, m), m.ackNum))
    ensures UnaOk(RemoveAcked(x.(sndUna := m.ackNum), m.ackNum))
  {
    AckWithinReach(x, y, m);
    TxSame(x, LearnPeer(x, m));
    RemoveAckedUna(LearnPeer(x, m));
    UnaStepTight(x, y, m.ackNum);
  }

  lemma SynSentTight(x: Conn, y: Conn, m: Segment)
    requires Pair(x, y) && NoWrap(x) && Tight(x) && m in y.h.sent && !m.flags.rst
    ensures Tight(OnSynSent(x, m))
  {
    if m.flags.syn && AcksAll(x, m) {
      HandshakeTight(x, y, m);
    }
  }

  lemma SynRcvdTight(x: Conn, y: Conn, m: Segment)
    requires Pair(x, y) && NoWrap(x) && Tight(x) && m in y.h.sent && !m.flags.rst
    ensures Tight(OnSynRcvd(x, m))
  {
    if AcksAll(x, m) {
      HandshakeTight(x, y, m);
      var x1 := RemoveAcked(x.(sndUna := m.ackNum), m.ackNum).(sndWnd := m.window, state := Established);
      ReceiveTight(x1, m);
      ReceiveFrame(x1, m);
    }
  }

  lemma AckThenReceiveTight(x: Conn, y: Conn, m: Segment)
    requires Pair(x, y) && NoWrap(x) && Tight(x) && m in y.h.sent && !m.flags.rst
    ensures Tight(AckThenReceive(x, m))
    ensures AcksAll(x, m) ==> AckThenReceive(x, m).sndUna == AckThenReceive(x, m).sndNxt
  {
    ProcessAckTight(x, y, m);
    ProcessAckFrame(x, m);
    ReceiveTight(ProcessAck(x, m), m);
    ReceiveFrame(ProcessAck(x, m), m);
  }

  lemma EstablishedTight(x: Conn, y: Conn, m: Segment, now: nat)
    requires Pair(x, y) && LabelOk(x) && x.state == Established && m in y.h.sent && !m.flags.rst
    requires NoWrap(x) && Tight(x) && Fits(OnEstablished(x, m, now))
    ensures Tight(OnEstablished(x, m, now))
  {
    AckThenReceiveTight(x, y, m);
    AckThenReceiveKeeps(x, y, m);
    AckThenReceiveFrame(x, m);
    var x2 := AckThenReceive(x, m);
    RelabelKeeps(x2, y, CloseWait, 0);
    FlushTight(if TakesFin(x, m) then x2.(state := CloseWait) else x2, y, now);
  }

  lemma CloseWaitTight(x: Conn, y: Conn, m: Segment, now: nat)
    requires Pair(x, y) && m in y.h.sent && !m.flags.rst && x.h.synced && x.h.fins == 0
    requires NoWrap(x) && Tight(x) && Fits(FlushSend(ProcessAck(x, m), now))
    ensures Tight(FlushSend(ProcessAck(x, m), now))
  {
    ProcessAckTight(x, y, m);
    ProcessAckKeeps(x, y, m);
    ProcessAckFrame(x, m);
    FlushTight(ProcessAck(x, m), y, now);
  }

  lemma FinWaitTight(x: Conn, y: Conn, m: Segment, now: nat)
    requires Pair(x, y) && m in y.h.sent && !m.flags.rst && NoWrap(x) && Tight(x)
    ensures Tight(OnFinWait1(x, m, now)) && (x.state == FinWait2 ==> Tight(OnFinWait2(x, m, now)))
  {
    AckThenReceiveTight(x, y, m);
    AckThenReceiveFrame(x, m);
  }

  lemma ClosingTight(x: Conn, y: Conn, m: Segment, now: nat)
    requires Pair(x, y) && m in y.h.sent && !m.flags.rst && NoWrap(x) && Tight(x)
    ensures Tight(OnClosing(x, m, now)) && Tight(OnLastAck(x, m)) && Tight(OnTimeWait(x, m, now))
  {
    ProcessAckTight(x, y, m);
    ProcessAckFrame(x, m);
  }

  lemma SegmentTight(x: Conn, y: Conn, m: Segment, now: nat)
    requires Pair(x, y) && LabelOk(x) && m in y.h.sent && NoWrap(x) && Tight(x)
    requires Fits(ProcessSegment(x, m, now))
    ensures Tight(ProcessSegment(x, m, now))
  {
    if !m.flags.rst {
      match x.state {
        case SynSent => SynSentTight(x, y, m);
        case SynRcvd => SynRcvdTight(x, y, m);
        case Established => EstablishedTight(x, y, m, now);
        case CloseWait => CloseWaitTight(x, y, m, now);
        case FinWait1 => FinWaitTight(x, y, m, now);
        case FinWait2 => FinWaitTight(x, y, m, now);
        case Closed =>
        case _ => ClosingTight(x, y, m, now);
      }
    }
  }

  // ---------------------------------------------------------------- timers and calls

  lemma TimersTight(x: Conn, now: nat)
    requires Tight(x)
    ensures Tight(Probe(x, now)) && Tight(Retransmit(x, now))
  {
    RetransmitIs(x, now);
  }

  lemma FlushedTight(x: Conn, x': Conn, y: Conn, now: nat)
    requires Pair(x', y) && LabelOk(x) && SameLabel(x, x') && Tight(x') && Fits(FlushSend(x', now))
    ensures Tight(FlushSend(x', now))
  {
    FlushTight(x', y, now);
  }

  lemma TickRestTight(x: Conn, x1: Conn, y: Conn, now: nat)
    requires Pair(x1, y) && LabelOk(x) && OnlyTimers(x, x1) && Tight(x1)
    requires Fits(FlushSend(Retransmit(x1, now), now))
    ensures Tight(FlushSend(Retransmit(x1, now), now))
  {
    RetransmitKeeps(x1, y, now);
    TimersFrame(x1, now);
    TimersTight(x1, now);
    FlushedTight(x, Retransmit(x1, now), y, now);
  }

  lemma TickTight(x: Conn, y: Conn, now: nat)
    requires Pair(x, y) && LabelOk(x) && Tight(x) && Fits(Tick(x, now))
    ensures Tight(Tick(x, now))
  {
    if x.state != TimeWait {
      ProbeKeeps(x, y, now);
      TimersFrame(x, now);
      TimersTight(x, now);
      if !GivesUp(Probe(x, now), now) {
        TickRestTight(x, Probe(x, now), y, now);
      }
    }
  }

  lemma SendTight(x: Conn, y: Conn, data: seq<Byte>, now: nat)
    requires Pair(x, y) && LabelOk(x) && Tight(x) && Fits(Send(x, data, now))
    ensures Tight(Send(x, data, now))
  {
    BackloggedKeeps(x, y, data[..Accepts(x, data)]);
    FlushedTight(x, Backlogged(x, data[..Accepts(x, data)]), y, now);
  }

  lemma CloseTight(x: Conn, y: Conn, now: nat)
    requires Pair(x, y) && LabelOk(x) && Tight(x) && Fits(Close(x, now))
    ensures Tight(Close(x, now))
  {
    if CanSend(x.state) {
      OtherFieldsKeep(x, x.(pendingClose := true), y);
      FlushedTight(x, x.(pendingClose := true), y, now);
    }
  }

  lemma ActTight(x: Conn, y: Conn, ev: Event, now: nat)
    requires Pair(x, y) && LabelOk(x) && Tight(x) && Fits(Act(x, ev, now))
    ensures Tight(Act(x, ev, now))
  {
    match ev {
      case Ticks => TickTight(x, y, now);
      case Sends(data) => SendTight(x, y, data, now);
      case Recvs(room) => RecvIs(x, room);
      case Closes => CloseTight(x, y, now);
      case _ =>
    }
  }

  lemma StepTight(e: Endpoint, y: Conn, ev: Event, now: nat)
    requires e.life != Listening
    requires Pair(e.conn, y) && LabelOk(e.conn) && Tight(e.conn) && NoWrap(e.conn)
    requires Fits(Step(e, y.h.sent, ev, now).conn)
    ensures Tight(Step(e, y.h.sent, ev, now).conn)
  {
    if ev.Deliver? {
      if ev.i < |y.h.sent| {
        DeliverTight(e, y, y.h.sent[ev.i], ev.iss, now);
      }
    } else if e.life == Alive && !ev.Cleans? {
      ActTight(e.conn, y, ev, now);
    }
  }

  lemma DeliverTight(e: Endpoint, y: Conn, m: Segment, iss: U32, now: nat)
    requires e.life != Listening && m in y.h.sent
    requires Pair(e.conn, y) && LabelOk(e.conn) && Tight(e.conn) && NoWrap(e.conn)
    requires Fits(HandleSegment(e, m, iss, now).conn)
    ensures Tight(HandleSegment(e, m, iss, now).conn)
  {
    if e.life == Alive {
      SegmentTight(e.conn, y, m, now);
    }
  }

  // ---------------------------------------------------------------- over whole runs

  predicate NoneWraps(s: System) {
    NoWrap(s.a.conn) && NoWrap(s.b.conn)
  }

  ghost predicate BothTight(s: System) {
    Tight(s.a.conn) && (s.b.life != Listening ==> Tight(s.b.conn))
  }

  ghost predicate TightInv(s: System) {
    Inv(s) && BothTight(s)
  }

  lemma OpenedTight(m: Segment, iss: U32, now: nat)
    ensures Tight(Connect(iss, now)) && Tight(PassiveOpen(m, iss, now))
  {
  }

  lemma InitTight(s: System)
    requires Init(s)
    ensures BothTight(s)
  {
    var iss: U32, now: nat :| s.a.conn == Connect(iss, now);
    OpenedTight(Segment(0, 0, SYN, 0, []), iss, now);
  }

  lemma NextTight(s: System, s': System)
    requires TightInv(s) && NoneWraps(s) && Next(s, s') && BothFit(s')
    ensures BothTight(s')
  {
    var ev: Event, now: nat :| StepA(s, s', ev, now) || StepB(s, s', ev, now);
    if StepA(s, s', ev, now) {
      StepTight(s.a, if Connected(s) then s.b.conn else Nobody(), ev, now);
    } else if s.b.life != Listening {
      StepTight(s.b, s.a.conn, ev, now);
    } else {
      ListenerStep(s, s', ev, now);
      if s' != s {
        OpenedTight(s.a.conn.h.sent[ev.i], ev.iss, now);
      }
    }
  }

  /** If the last state does not wrap, no earlier one does. */
  lemma NoneWrapBefore(run: seq<System>, n: nat)
    requires IsRun(run) && 0 < n == |run| - 1 && NoneWraps(Last(run))
    ensures NoneWraps(run[n - 1])
  {
    RunPrefix(run, n);
    RunQuiet(run[..n]);
    NextGrew(run[n - 1], run[n]);
  }

  lemma StaysTight(run: seq<System>, n: nat)
    requires IsRun(run) && 0 < n == |run| - 1 && NoneWraps(Last(run)) && BothTight(run[n - 1])
    ensures BothTight(Last(run))
  {
    NoneWrapBefore(run, n);
    RunPrefix(run, n);
    RunInv(run[..n]);
    NextTight(run[n - 1], run[n]);
  }

  lemma {:induction false} RunBothTight(run: seq<System>)
    requires IsRun(run) && NoneWraps(Last(run))
    ensures BothTight(Last(run))
    decreases |run|
  {
    if |run| == 1 {
      InitTight(run[0]);
    } else {
      var n := |run| - 1;
      NoneWrapBefore(run, n);
      RunPrefix(run, n);
      RunBothTight(run[..n]);
      StaysTight(run, n);
    }
  }

  lemma RunTight(run: seq<System>)
    requires IsRun(run) && NoneWraps(Last(run))
    ensures TightInv(Last(run))
  {
    RunInv(run);
    RunBothTight(run);
  }
}
