/**
 Flow control over whole runs: on a link that drops, duplicates and reorders
 anything, a receive buffer stays within its cap as long as no acknowledgement
 puts the sender's limit beyond what was promised and no cap is set below it.
 */
module FlowRuns {
  import opened SeqSpace
  import opened Connection
  import opened Invariants
  import opened Pairs
  import opened Sender
  import opened Steps
  import opened TwoEndpoints
  import opened NoLoss
  import opened Ahead
  import opened Logs
  import opened Scripts
  import opened FlowControl

  // ---------------------------------------------------------------- one segment

  lemma SynchronisedFlow(tx: bool, x: Conn, y: Conn, m: Segment)
    requires Pair(x, y) && Flows(tx, x, y) && !x.h.synced
    ensures Flows(tx, Synchronised(x, m), y)
  {
    forall n | n in x.h.sent
      ensures !IsAck(n)
    {
      assert AckHonest(x, n);
    }
    FurthestOfNone(x.irs, x.h.sent);
    FurthestOfNone(m.seqNum, x.h.sent);
  }

  lemma OpenedFlow(tx: bool, x: Conn, y: Conn, m: Segment)
    requires Pair(x, y) && Flows(tx, x, y) && !x.h.synced && m in y.h.sent && IsAck(m) && m.flags.syn
    ensures Flows(tx, Opened(x, m), y)
  {
    SynchronisedKeeps(x, y, m);
    SynchronisedFlow(tx, x, y, m);
    OpenedFrame(x, m);
    PromiseHeard(x, y, m);
    AckFlow(tx, Synchronised(x, m), Opened(x, m), y);
  }

  lemma SynSentFlow(tx: bool, x: Conn, y: Conn, m: Segment)
    requires Pair(x, y) && Flows(tx, x, y) && !x.h.synced && m in y.h.sent && !m.flags.rst
    ensures Flows(tx, OnSynSent(x, m), y)
  {
    if m.flags.syn && AcksAll(x, m) {
      OpenedFlow(tx, x, y, m);
      OpenedKeeps(x, y, m);
      OpenedFrame(x, m);
      AckOnlyFlow(tx, Opened(x, m), y);
    }
  }

  lemma AcceptedFlow(tx: bool, x: Conn, y: Conn, m: Segment)
    requires Pair(x, y) && Flows(tx, x, y) && m in y.h.sent && IsAck(m)
    ensures Flows(tx, Accepted(x, m), y)
  {
    AcceptedKeeps(x, y, m);
    PromiseHeard(x, y, m);
    AckFlow(tx, x, Accepted(x, m), y);
  }

  lemma SynRcvdFlow(tx: bool, x: Conn, y: Conn, m: Segment)
    requires Pair(x, y) && Flows(tx, x, y) && KeysAhead(x) && NoWrap(y) && x.h.synced && x.h.finsTaken == 0
    requires m in y.h.sent && !m.flags.rst
    ensures Flows(tx, OnSynRcvd(x, m), y)
  {
    if AcksAll(x, m) {
      AcceptedKeeps(x, y, m);
      AcceptedFlow(tx, x, y, m);
      if m.data != [] || m.flags.fin {
        FirstDataFlow(tx, Accepted(x, m), y, m);
      }
    }
  }

  lemma FirstDataFlow(tx: bool, x: Conn, y: Conn, m: Segment)
    requires Pair(x, y) && Flows(tx, x, y) && KeysAhead(x) && NoWrap(y) && x.h.synced && x.h.finsTaken == 0
    requires m in y.h.sent && !m.flags.rst && x.state == Established
    ensures Flows(tx, Receive(x, m), y) && Flows(tx, Receive(x, m).(state := CloseWait), y)
  {
    ReceiveFlow(tx, x, y, m);
    ReceiveFrame(x, m);
    RelabelFlow(tx, Receive(x, m), y, CloseWait, 0);
  }

  lemma AckThenReceiveFlow(tx: bool, x: Conn, y: Conn, m: Segment)
    requires Pair(x, y) && Flows(tx, x, y) && KeysAhead(x) && NoWrap(y) && x.h.synced && x.h.finsTaken == 0
    requires m in y.h.sent && !m.flags.rst && (tx ==> Current(x, m, y.h.sent))
    ensures Flows(tx, AckThenReceive(x, m), y)
  {
    ProcessAckFlow(tx, x, y, m);
    ProcessAckKeeps(x, y, m);
    ProcessAckFrame(x, m);
    ReceiveFlow(tx, ProcessAck(x, m), y, m);
  }

  /** A label that does not start sending changes nothing. */
  lemma RelabelFlow(tx: bool, x: Conn, y: Conn, s: TcpState, deadline: nat)
    requires Flows(tx, x, y) && (CanSend(s) ==> CanSend(x.state))
    ensures Flows(tx, x.(state := s), y)
    ensures Flows(tx, x.(state := s, timeWaitDeadline := deadline), y)
  {
    FlowOther(tx, x, x.(state := s), y);
    FlowOther(tx, x, x.(state := s, timeWaitDeadline := deadline), y);
  }

  lemma RelabelledFlow(tx: bool, x: Conn, x': Conn, y: Conn)
    requires Flows(tx, x, y) && Relabelled(x, x')
    ensures Flows(tx, x', y)
  {
    FlowOther(tx, x, x', y);
  }

  lemma EstablishedFlow(tx: bool, x: Conn, y: Conn, m: Segment, now: nat)
    requires Pair(x, y) && Flows(tx, x, y) && KeysAhead(x) && NoWrap(y) && LabelOk(x) && x.state == Established
    requires m in y.h.sent && !m.flags.rst && (tx ==> Current(x, m, y.h.sent)) && Fits(OnEstablished(x, m, now))
    ensures Flows(tx, OnEstablished(x, m, now), y)
  {
    AckThenReceiveFlow(tx, x, y, m);
    AckThenReceiveKeeps(x, y, m);
    AckThenReceiveAhead(x, y, m);
    AckThenReceiveFrame(x, m);
    RelabelKeeps(AckThenReceive(x, m), y, Taken(x, m).state, 0);
    RelabelFlow(tx, AckThenReceive(x, m), y, Taken(x, m).state, 0);
    EstablishedIs(x, m, now);
    FlushFlow(tx, Taken(x, m), y, now);
  }

  lemma CloseWaitFlow(tx: bool, x: Conn, y: Conn, m: Segment, now: nat)
    requires Pair(x, y) && Flows(tx, x, y) && KeysAhead(x) && x.h.synced && x.h.fins == 0
    requires m in y.h.sent && !m.flags.rst && (tx ==> Current(x, m, y.h.sent)) && Fits(FlushSend(ProcessAck(x, m), now))
    ensures Flows(tx, FlushSend(ProcessAck(x, m), now), y)
  {
    ProcessAckFlow(tx, x, y, m);
    ProcessAckKeeps(x, y, m);
    ProcessAckFrame(x, m);
    FlushFlow(tx, ProcessAck(x, m), y, now);
  }

  lemma FinWaitFlow(tx: bool, x: Conn, y: Conn, m: Segment, now: nat)
    requires Pair(x, y) && Flows(tx, x, y) && KeysAhead(x) && NoWrap(y) && x.h.synced && x.h.finsTaken == 0
    requires m in y.h.sent && !m.flags.rst && (tx ==> Current(x, m, y.h.sent))
    ensures Flows(tx, OnFinWait1(x, m, now), y) && Flows(tx, OnFinWait2(x, m, now), y)
  {
    AckThenReceiveFlow(tx, x, y, m);
    FinWaitIs(x, m, now);
    RelabelledFlow(tx, AckThenReceive(x, m), OnFinWait1(x, m, now), y);
    RelabelledFlow(tx, AckThenReceive(x, m), OnFinWait2(x, m, now), y);
  }

  lemma ClosingFlow(tx: bool, x: Conn, y: Conn, m: Segment, now: nat)
    requires Pair(x, y) && Flows(tx, x, y) && m in y.h.sent && !m.flags.rst && (tx ==> Current(x, m, y.h.sent))
    ensures Flows(tx, OnClosing(x, m, now), y) && Flows(tx, OnLastAck(x, m), y)
  {
    ProcessAckFlow(tx, x, y, m);
    ClosingIs(x, m, now);
    RelabelledFlow(tx, ProcessAck(x, m), OnClosing(x, m, now), y);
    RelabelledFlow(tx, ProcessAck(x, m), OnLastAck(x, m), y);
  }

  lemma TimeWaitFlow(tx: bool, x: Conn, y: Conn, m: Segment, now: nat)
    requires Pair(x, y) && Flows(tx, x, y) && KeysAhead(x) && x.h.synced
    ensures Flows(tx, OnTimeWait(x, m, now), y)
  {
    AckOnlyFlow(tx, x, y);
    FlowOther(tx, SendAckOnly(x), SendAckOnly(x).(timeWaitDeadline := now + TIME_WAIT_DURATION), y);
  }

  lemma SegmentFlow(tx: bool, x: Conn, y: Conn, m: Segment, now: nat)
    requires Pair(x, y) && Flows(tx, x, y) && KeysAhead(x) && NoWrap(y) && LabelOk(x)
    requires m in y.h.sent && (tx ==> Current(x, m, y.h.sent)) && Fits(ProcessSegment(x, m, now))
    ensures Flows(tx, ProcessSegment(x, m, now), y)
  {
    if m.flags.rst {
      RelabelFlow(tx, x, y, Closed, 0);
    } else {
      match x.state {
        case SynSent => SynSentFlow(tx, x, y, m);
        case SynRcvd => SynRcvdFlow(tx, x, y, m);
        case Established => EstablishedFlow(tx, x, y, m, now);
        case FinWait1 => FinWaitFlow(tx, x, y, m, now);
        case FinWait2 => FinWaitFlow(tx, x, y, m, now);
        case CloseWait => CloseWaitFlow(tx, x, y, m, now);
        case TimeWait => TimeWaitFlow(tx, x, y, m, now);
        case Closed =>
        case _ => ClosingFlow(tx, x, y, m, now);
      }
    }
  }

  // ---------------------------------------------------------------- timers and calls

  lemma ProbeFlow(tx: bool, x: Conn, y: Conn, now: nat)
    requires Pair(x, y) && Flows(tx, x, y) && KeysAhead(x) && LabelOk(x)
    ensures Flows(tx, Probe(x, now), y)
  {
    ProbeIs(x, now);
    if ProbeDue(x, now) {
      FlowLog(tx, x, y, ProbeSegment(x));
      FlowOther(tx, Log(x, ProbeSegment(x)), Probe(x, now), y);
    } else {
      FlowOther(tx, x, Probe(x, now), y);
    }
  }

  lemma RetransmitFlow(tx: bool, x: Conn, y: Conn, now: nat)
    requires Pair(x, y) && Flows(tx, x, y) && KeysAhead(x)
    ensures Flows(tx, Retransmit(x, now), y)
  {
    RetransmitIs(x, now);
    if x.queue != [] && Expired(x.queue[0], now) {
      assert EntryOk(StreamOf(x), x.h.synced, x.queue[0]);
      FlowLog(tx, x, y, Resent(x));
      FlowOther(tx, Log(x, Resent(x)), Retransmit(x, now), y);
    }
  }

  lemma FlushedFlow(tx: bool, x: Conn, x': Conn, y: Conn, now: nat)
    requires Pair(x', y) && LabelOk(x) && SameLabel(x, x') && Flows(tx, x', y) && KeysAhead(x')
    requires Fits(FlushSend(x', now))
    ensures Flows(tx, FlushSend(x', now), y)
  {
    FlushFlow(tx, x', y, now);
  }

  lemma TickRestFlow(tx: bool, x: Conn, x1: Conn, y: Conn, now: nat)
    requires Pair(x1, y) && Flows(tx, x1, y) && KeysAhead(x1) && LabelOk(x) && OnlyTimers(x, x1)
    requires !GivesUp(x1, now) ==> Fits(FlushSend(Retransmit(x1, now), now))
    ensures !GivesUp(x1, now) ==> Flows(tx, FlushSend(Retransmit(x1, now), now), y)
    ensures Flows(tx, x1.(state := Closed), y)
  {
    RelabelFlow(tx, x1, y, Closed, 0);
    if !GivesUp(x1, now) {
      RetransmitKeeps(x1, y, now);
      RetransmitFlow(tx, x1, y, now);
      TimersFrame(x1, now);
      FlushedFlow(tx, x, Retransmit(x1, now), y, now);
    }
  }

  lemma TickFlow(tx: bool, x: Conn, y: Conn, now: nat)
    requires Pair(x, y) && Flows(tx, x, y) && KeysAhead(x) && LabelOk(x) && Fits(Tick(x, now))
    ensures Flows(tx, Tick(x, now), y)
  {
    if x.state == TimeWait {
      RelabelFlow(tx, x, y, Closed, 0);
    } else {
      ProbeKeeps(x, y, now);
      ProbeFlow(tx, x, y, now);
      TimersFrame(x, now);
      TickRestFlow(tx, x, Probe(x, now), y, now);
    }
  }

  lemma SendFlow(tx: bool, x: Conn, y: Conn, data: seq<Byte>, now: nat)
    requires Pair(x, y) && Flows(tx, x, y) && KeysAhead(x) && LabelOk(x) && Fits(Send(x, data, now))
    ensures Flows(tx, Send(x, data, now), y)
  {
    var d := data[..Accepts(x, data)];
    BackloggedKeeps(x, y, d);
    FlowOther(tx, x, Backlogged(x, d), y);
    FlushedFlow(tx, x, Backlogged(x, d), y, now);
  }

  lemma CloseFlow(tx: bool, x: Conn, y: Conn, now: nat)
    requires Pair(x, y) && Flows(tx, x, y) && KeysAhead(x) && LabelOk(x) && Fits(Close(x, now))
    ensures Flows(tx, Close(x, now), y)
  {
    if CanSend(x.state) {
      OtherFieldsKeep(x, x.(pendingClose := true), y);
      FlowOther(tx, x, x.(pendingClose := true), y);
      FlushedFlow(tx, x, x.(pendingClose := true), y, now);
    } else {
      RelabelFlow(tx, x, y, Closed, 0);
    }
  }

  lemma ActFlow(tx: bool, x: Conn, y: Conn, ev: Event, now: nat)
    requires Pair(x, y) && Flows(tx, x, y) && KeysAhead(x) && LabelOk(x) && Fits(Act(x, ev, now))
    requires !tx && ev.SetsCaps? ==> Covers(x, ev.recvCap)
    ensures Flows(tx, Act(x, ev, now), y)
  {
    match ev {
      case Ticks => TickFlow(tx, x, y, now);
      case Sends(data) => SendFlow(tx, x, y, data, now);
      case Recvs(room) => RecvFlow(tx, x, y, room);
      case Closes => CloseFlow(tx, x, y, now);
      case SetsCaps(r, s) => SetCapFlow(tx, x, y, r, s);
      case _ =>
    }
  }

  // ---------------------------------------------------------------- calm runs

  /**
   What one direction asks of an endpoint: of its sender, that no acknowledgement puts its limit beyond what was
   promised; of its receiver, that a new cap covers what was promised.
   */
  ghost predicate Calm(tx: bool, e: Endpoint, peerSent: seq<Segment>, ev: Event) {
    e.life == Alive ==>
      && (tx && ev.Deliver? && ev.i < |peerSent| ==> Current(e.conn, peerSent[ev.i], peerSent))
      && (!tx && ev.SetsCaps? ==> Covers(e.conn, ev.recvCap))
  }

  /** A step that keeps the promises about data from `a` to `b` (`dir`), or from `b` to `a`. */
  ghost predicate CalmA(dir: bool, s: System, s': System, ev: Event, now: nat) {
    StepA(s, s', ev, now) && Calm(dir, s.a, s.b.conn.h.sent, ev)
  }

  ghost predicate CalmB(dir: bool, s: System, s': System, ev: Event, now: nat) {
    StepB(s, s', ev, now) && Calm(!dir, s.b, s.a.conn.h.sent, ev)
  }

  ghost predicate CalmNext(dir: bool, s: System, s': System) {
    exists ev: Event, now: nat :: CalmA(dir, s, s', ev, now) || CalmB(dir, s, s', ev, now)
  }

  ghost predicate CalmAt(dir: bool, run: seq<System>, i: nat)
    requires i + 1 < |run|
  {
    CalmNext(dir, run[i], run[i + 1])
  }

  ghost predicate IsCalmRun(dir: bool, run: seq<System>) {
    IsRun(run) && forall i: nat :: i + 1 < |run| ==> CalmAt(dir, run, i)
  }

  lemma CalmPrefix(dir: bool, run: seq<System>, n: nat)
    requires IsCalmRun(dir, run) && 0 < n < |run|
    ensures IsCalmRun(dir, run[..n]) && Last(run[..n]) == run[n - 1] && CalmNext(dir, run[n - 1], run[n])
  {
    RunPrefix(run, n);
    forall i: nat | i + 1 < n
      ensures CalmAt(dir, run[..n], i)
    {
      assert CalmAt(dir, run, i);
    }
    assert CalmAt(dir, run, n - 1);
  }

  ghost predicate FlowInv(dir: bool, s: System) {
    Flows(dir, s.a.conn, if s.b.life == Listening then Nobody() else s.b.conn)
  }

  lemma StepFlow(tx: bool, e: Endpoint, y: Conn, ev: Event, now: nat)
    requires e.life != Listening && Calm(tx, e, y.h.sent, ev)
    requires Pair(e.conn, y) && Flows(tx, e.conn, y) && KeysAhead(e.conn) && NoWrap(y) && LabelOk(e.conn)
    requires Fits(Step(e, y.h.sent, ev, now).conn)
    ensures Flows(tx, Step(e, y.h.sent, ev, now).conn, y)
  {
    if ev.Deliver? {
      if ev.i < |y.h.sent| {
        DeliverFlow(tx, e, y, y.h.sent[ev.i], ev.iss, now);
      }
    } else if e.life == Alive && !ev.Cleans? {
      ActFlow(tx, e.conn, y, ev, now);
    }
  }

  lemma DeliverFlow(tx: bool, e: Endpoint, y: Conn, m: Segment, iss: U32, now: nat)
    requires e.life != Listening && m in y.h.sent && (e.life == Alive ==> (tx ==> Current(e.conn, m, y.h.sent)))
    requires Pair(e.conn, y) && Flows(tx, e.conn, y) && KeysAhead(e.conn) && NoWrap(y) && LabelOk(e.conn)
    requires Fits(HandleSegment(e, m, iss, now).conn)
    ensures Flows(tx, HandleSegment(e, m, iss, now).conn, y)
  {
    if e.life == Alive {
      SegmentFlow(tx, e.conn, y, m, now);
    } else {
      FlowLog(tx, e.conn, y, RstFor(m));
    }
  }

  /** The listener's first promise. */
  lemma OpenFlow(tx: bool, x: Conn, m: Segment, iss: U32, now: nat)
    requires Flows(tx, x, Nobody()) && Silent(x) && LabelOk(x)
    ensures Flows(tx, x, PassiveOpen(m, iss, now))
  {
    var y := PassiveOpen(m, iss, now);
    OffAdd(m.seqNum, m.seqNum, 1);
    FurthestAppend(y.irs, [], y.h.sent[0]);
    assert [] + [y.h.sent[0]] == y.h.sent;
  }

  /** Two that have sent nothing but a SYN owe each other nothing. */
  lemma StrangersFlow(tx: bool, x: Conn, y: Conn)
    requires x.state == SynSent && y.state == SynSent && x.h.out == [] && y.h.out == []
    requires (forall m :: m in x.h.sent ==> !IsAck(m)) && (forall m :: m in y.h.sent ==> !IsAck(m))
    ensures Flows(tx, x, y)
  {
    FurthestOfNone(x.irs, x.h.sent);
    FurthestOfNone(y.irs, y.h.sent);
  }

  lemma InitFlow(dir: bool, s: System)
    requires Init(s)
    ensures FlowInv(dir, s)
  {
    var iss: U32, now: nat :| s.a.conn == Connect(iss, now);
    ConnectLocal(iss, now);
    StrangersFlow(dir, s.a.conn, Nobody());
  }

  /** The same direction seen from the other side. */
  lemma FlipFlow(tx: bool, x: Conn, y: Conn)
    ensures Flows(tx, x, y) <==> Flows(!tx, y, x)
  {
  }

  lemma CalmAFlow(dir: bool, s: System, s': System, ev: Event, now: nat)
    requires Inv(s) && BothAhead(s) && FlowInv(dir, s) && NoneWraps(s) && CalmA(dir, s, s', ev, now) && BothFit(s')
    ensures FlowInv(dir, s')
  {
    StepFlow(dir, s.a, if Connected(s) then s.b.conn else Nobody(), ev, now);
  }

  lemma CalmBFlow(dir: bool, s: System, s': System, ev: Event, now: nat)
    requires Inv(s) && BothAhead(s) && FlowInv(dir, s) && NoneWraps(s) && CalmB(dir, s, s', ev, now) && BothFit(s')
    ensures FlowInv(dir, s')
  {
    if Connected(s) {
      FlipFlow(dir, s.a.conn, s.b.conn);
      StepFlow(!dir, s.b, s.a.conn, ev, now);
      FlipFlow(dir, s.a.conn, s'.b.conn);
    } else {
      OpeningFlow(dir, s, s', ev, now);
    }
  }

  lemma OpeningFlow(dir: bool, s: System, s': System, ev: Event, now: nat)
    requires Opening(s) && FlowInv(dir, s) && StepB(s, s', ev, now)
    ensures FlowInv(dir, s')
  {
    ListenerStep(s, s', ev, now);
    if s' != s {
      OpenFlow(dir, s.a.conn, s.a.conn.h.sent[ev.i], ev.iss, now);
    }
  }

  lemma StaysInFlow(dir: bool, run: seq<System>, n: nat)
    requires IsCalmRun(dir, run) && 0 < n == |run| - 1 && NoneWraps(Last(run)) && FlowInv(dir, run[n - 1])
    ensures FlowInv(dir, Last(run))
  {
    NoneWrapBefore(run, n);
    CalmPrefix(dir, run, n);
    RunInv(run[..n]);
    RunAhead(run[..n]);
    var s, s' := run[n - 1], run[n];
    var ev: Event, now: nat :| CalmA(dir, s, s', ev, now) || CalmB(dir, s, s', ev, now);
    if CalmA(dir, s, s', ev, now) {
      CalmAFlow(dir, s, s', ev, now);
    } else {
      CalmBFlow(dir, s, s', ev, now);
    }
  }

  lemma {:induction false} RunFlow(dir: bool, run: seq<System>)
    requires IsCalmRun(dir, run) && NoneWraps(Last(run))
    ensures FlowInv(dir, Last(run))
    decreases |run|
  {
    if |run| == 1 {
      InitFlow(dir, run[0]);
    } else {
      var n := |run| - 1;
      NoneWrapBefore(run, n);
      CalmPrefix(dir, run, n);
      RunFlow(dir, run[..n]);
      StaysInFlow(dir, run, n);
    }
  }

  /** The receiver holds no more than its cap, and the sender has not passed the receiver's right edge. */
  ghost predicate WithinCap(dir: bool, s: System) {
    var x, y := Src(dir, s).conn, Dst(dir, s).conn;
    && BufferedBytes(y) <= y.recvCap
    && (s.b.life != Listening ==> |x.h.out| <= |y.h.handed| + y.recvCap)
  }

  lemma FlowWithinCap(dir: bool, s: System)
    requires Inv(s) && BothAhead(s) && FlowInv(dir, s)
    ensures WithinCap(dir, s)
  {
    if Connected(s) {
      BufferWithinCap(Src(dir, s).conn, Dst(dir, s).conn);
    } else if !dir {
      BufferWithinCap(Nobody(), s.a.conn);
    }
  }

  /**
   However the link drops, duplicates and reorders, and whatever caps the applications set: if no acknowledgement
   the sender acts on puts its limit beyond what the receiver has promised, and every new cap of the receiver
   covers what it has promised, the receiver never holds more than its cap.  What happens to data in the other
   direction does not matter.
   */
  lemma BuffersNeverOverflow(dir: bool, run: seq<System>)
    requires IsCalmRun(dir, run) && NoneWraps(Last(run))
    ensures WithinCap(dir, Last(run))
  {
    RunInv(run);
    RunAhead(run);
    RunFlow(dir, run);
    FlowWithinCap(dir, Last(run));
  }
}
