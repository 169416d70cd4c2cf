/**
 A link that may drop segments but does not reorder or repeat them: every
 acknowledgement that arrives is current, so the caps hold without further ado.
 */
module FifoRuns {
  import opened SeqSpace
  import opened Connection
  import opened Invariants
  import opened Sender
  import opened Steps
  import opened TwoEndpoints
  import opened NoLoss
  import opened Logs
  import opened FlowControl
  import opened FlowRuns

  // ---------------------------------------------------------------- what a step believes

  /** `sndUna` stays where it is or moves to an acknowledgement that has just arrived. */
  predicate UnaFrom(x: Conn, x': Conn, m: Segment) {
    x'.sndUna == x.sndUna || (IsAck(m) && x'.sndUna == m.ackNum)
  }

  lemma FlushUna(x: Conn, now: nat)
    ensures FlushSend(x, now).sndUna == x.sndUna
  {
    FlushLoopFrame(ArmProbe(x, now), now);
  }

  lemma HandshakeUna(x: Conn, m: Segment)
    requires !m.flags.rst
    ensures UnaFrom(x, OnSynSent(x, m), m) && UnaFrom(x, OnSynRcvd(x, m), m)
  {
    RemoveAckedFrame(LearnPeer(x, m), m.ackNum);
    RemoveAckedFrame(x.(sndUna := m.ackNum), m.ackNum);
    ReceiveFrame(Accepted(x, m), m);
  }

  lemma OpenUna(x: Conn, m: Segment, now: nat)
    requires !m.flags.rst
    ensures UnaFrom(x, OnEstablished(x, m, now), m) && UnaFrom(x, FlushSend(ProcessAck(x, m), now), m)
  {
    AckThenReceiveFrame(x, m);
    ProcessAckFrame(x, m);
    EstablishedIs(x, m, now);
    FlushUna(Taken(x, m), now);
    FlushUna(ProcessAck(x, m), now);
  }

  lemma ClosingUna(x: Conn, m: Segment, now: nat)
    requires !m.flags.rst
    ensures UnaFrom(x, OnFinWait1(x, m, now), m) && UnaFrom(x, OnFinWait2(x, m, now), m)
    ensures UnaFrom(x, OnClosing(x, m, now), m) && UnaFrom(x, OnLastAck(x, m), m)
  {
    AckThenReceiveFrame(x, m);
    ProcessAckFrame(x, m);
  }

  lemma SegmentUna(x: Conn, m: Segment, now: nat)
    ensures UnaFrom(x, ProcessSegment(x, m, now), m)
  {
    if !m.flags.rst {
      match x.state {
        case SynSent => HandshakeUna(x, m);
        case SynRcvd => HandshakeUna(x, m);
        case Established => OpenUna(x, m, now);
        case CloseWait => OpenUna(x, m, now);
        case Closed =>
        case Listen =>
        case _ => ClosingUna(x, m, now);
      }
    }
  }

  lemma ActUna(x: Conn, ev: Event, now: nat)
    ensures Act(x, ev, now).sndUna == x.sndUna
  {
    match ev {
      case Ticks =>
        TimersFrame(x, now);
        TimersFrame(Probe(x, now), now);
        FlushUna(Retransmit(Probe(x, now), now), now);
      case Sends(data) => FlushUna(Backlogged(x, data[..Accepts(x, data)]), now);
      case Closes => FlushUna(x.(pendingClose := true), now);
      case _ =>
    }
  }

  // ---------------------------------------------------------------- the ordered link

  /** The system with each side's position in the other's log: earlier segments are delivered or dropped. */
  datatype Fifo = Fifo(s: System, toA: nat, toB: nat)

  /** Delivery moves forward only; the position after it. */
  predicate Advances(peerSent: seq<Segment>, ev: Event, p: nat, p': nat) {
    if ev.Deliver? then p <= ev.i < |peerSent| && p' == ev.i + 1 else p' == p
  }

  /** A receiver sets no cap below what it has promised. */
  ghost predicate CapsCover(rx: bool, e: Endpoint, ev: Event) {
    rx && e.life == Alive && ev.SetsCaps? ==> Covers(e.conn, ev.recvCap)
  }

  ghost predicate FifoA(dir: bool, f: Fifo, f': Fifo, ev: Event, now: nat) {
    && StepA(f.s, f'.s, ev, now) && CapsCover(!dir, f.s.a, ev)
    && Advances(f.s.b.conn.h.sent, ev, f.toA, f'.toA) && f'.toB == f.toB
  }

  ghost predicate FifoB(dir: bool, f: Fifo, f': Fifo, ev: Event, now: nat) {
    && StepB(f.s, f'.s, ev, now) && CapsCover(dir, f.s.b, ev)
    && Advances(f.s.a.conn.h.sent, ev, f.toB, f'.toB) && f'.toA == f.toA
  }

  ghost predicate FifoNext(dir: bool, f: Fifo, f': Fifo) {
    exists ev: Event, now: nat :: FifoA(dir, f, f', ev, now) || FifoB(dir, f, f', ev, now)
  }

  ghost predicate FifoAt(dir: bool, run: seq<Fifo>, i: nat)
    requires i + 1 < |run|
  {
    FifoNext(dir, run[i], run[i + 1])
  }

  /** `run` is what `fifo` is without the positions. */
  ghost predicate IsFifoRun(dir: bool, run: seq<System>, fifo: seq<Fifo>) {
    && IsRun(run) && |fifo| == |run|
    && (forall i :: 0 <= i < |run| ==> fifo[i].s == run[i])
    && fifo[0].toA == 0 && fifo[0].toB == 0
    && forall i: nat :: i + 1 < |fifo| ==> FifoAt(dir, fifo, i)
  }

  // ---------------------------------------------------------------- acknowledgements arrive in order

  ghost predicate AcksSorted(iss: U32, ms: seq<Segment>) {
    forall i, j :: 0 <= i <= j < |ms| && IsAck(ms[i]) && IsAck(ms[j]) ==>
      Off(iss, ms[i].ackNum) <= Off(iss, ms[j].ackNum)
  }

  /** Everything in the receiver's log from `p` on is news to the sender. */
  ghost predicate Cursor(s: Conn, r: Conn, p: nat) {
    forall i :: p <= i < |r.h.sent| && IsAck(r.h.sent[i]) ==> Off(s.iss, s.sndUna) <= Off(s.iss, r.h.sent[i].ackNum)
  }

  ghost predicate InOrder(x: Conn, y: Conn, px: nat, py: nat) {
    && AcksSorted(x.iss, y.h.sent) && AcksSorted(y.iss, x.h.sent)
    && Cursor(x, y, px) && Cursor(y, x, py)
  }

  /** The receiver's log stays sorted, and what is new in it is news to the sender. */
  lemma LogsInOrder(x: Conn, x': Conn, y: Conn, py: nat)
    requires AcksSorted(y.iss, x.h.sent) && Cursor(y, x, py) && NewAcks(x, x') && Pair(x', y)
    ensures AcksSorted(y.iss, x'.h.sent) && Cursor(y, x', py)
  {
    var s := x'.h.sent;
    forall i, j | 0 <= i <= j < |s| && IsAck(s[i]) && IsAck(s[j])
      ensures Off(y.iss, s[i].ackNum) <= Off(y.iss, s[j].ackNum)
    {
      assert AckHonest(x', s[i]);
      if j < |x.h.sent| {
        assert s[i] == x.h.sent[i] && s[j] == x.h.sent[j];
      }
    }
    forall i | py <= i < |s| && IsAck(s[i])
      ensures Off(y.iss, y.sndUna) <= Off(y.iss, s[i].ackNum)
    {
      assert AckHonest(x', s[i]);
      if i < |x.h.sent| {
        assert s[i] == x.h.sent[i];
      }
    }
  }

  lemma BelievesInOrder(x: Conn, x': Conn, y: Conn, ev: Event, px: nat, px': nat)
    requires AcksSorted(x.iss, y.h.sent) && Cursor(x, y, px) && Advances(y.h.sent, ev, px, px') && x'.iss == x.iss
    requires if ev.Deliver? then UnaFrom(x, x', y.h.sent[ev.i]) else x'.sndUna == x.sndUna
    ensures Cursor(x', y, px')
  {
  }

  lemma StepInOrder(e: Endpoint, y: Conn, ev: Event, now: nat, px: nat, px': nat, py: nat)
    requires e.life != Listening && InOrder(e.conn, y, px, py) && Advances(y.h.sent, ev, px, px')
    requires Pair(Step(e, y.h.sent, ev, now).conn, y)
    ensures InOrder(Step(e, y.h.sent, ev, now).conn, y, px', py)
  {
    StepAcks(e, y.h.sent, ev, now);
    StepGrew(e, y.h.sent, ev, now);
    if ev.Deliver? {
      SegmentUna(e.conn, y.h.sent[ev.i], now);
    } else {
      ActUna(e.conn, ev, now);
    }
    LogsInOrder(e.conn, Step(e, y.h.sent, ev, now).conn, y, py);
    BelievesInOrder(e.conn, Step(e, y.h.sent, ev, now).conn, y, ev, px, px');
  }

  /** Before the listener has opened nobody has acknowledged anything. */
  lemma SilentInOrder(x: Conn, y: Conn, px: nat, py: nat)
    requires Silent(x) && (y.h.sent == [] || (px == 0 && |y.h.sent| == 1 && Off(x.iss, x.sndUna) == 0))
    ensures InOrder(x, y, px, py)
  {
  }

  ghost predicate FifoInv(f: Fifo) {
    && InOrder(f.s.a.conn, f.s.b.conn, f.toA, f.toB)
    && (f.s.b.life == Listening ==> f.toA == 0)
  }

  lemma FifoAInOrder(dir: bool, f: Fifo, f': Fifo, ev: Event, now: nat)
    requires Inv(f.s) && Inv(f'.s) && FifoInv(f) && FifoA(dir, f, f', ev, now)
    ensures FifoInv(f')
  {
    if Connected(f.s) {
      StepInOrder(f.s.a, f.s.b.conn, ev, now, f.toA, f'.toA, f.toB);
    } else {
      SilentInOrder(f'.s.a.conn, f'.s.b.conn, f'.toA, f'.toB);
    }
  }

  lemma OpeningUna(s: System)
    requires Opening(s)
    ensures Off(s.a.conn.iss, s.a.conn.sndUna) == 0
  {
    assert Link(s.a.conn, Nobody());
  }

  lemma FlipInOrder(x: Conn, y: Conn, px: nat, py: nat)
    requires InOrder(x, y, px, py)
    ensures InOrder(y, x, py, px)
  {
  }

  lemma FifoBInOrder(dir: bool, f: Fifo, f': Fifo, ev: Event, now: nat)
    requires Inv(f.s) && Inv(f'.s) && FifoInv(f) && FifoB(dir, f, f', ev, now)
    ensures FifoInv(f')
  {
    var x, y := f.s.a.conn, f.s.b.conn;
    if Connected(f.s) {
      FlipInOrder(x, y, f.toA, f.toB);
      StepInOrder(f.s.b, x, ev, now, f.toB, f'.toB, f.toA);
      FlipInOrder(f'.s.b.conn, x, f'.toB, f.toA);
    } else {
      ListenerStep(f.s, f'.s, ev, now);
      OpeningUna(f.s);
      SilentInOrder(x, f'.s.b.conn, f'.toA, f'.toB);
    }
  }

  // ---------------------------------------------------------------- so they are current

  lemma CursorCurrent(x: Conn, y: Conn, px: nat, i: nat)
    requires Pair(x, y) && Cursor(x, y, px) && NoWrap(x) && px <= i < |y.h.sent|
    ensures Current(x, y.h.sent[i], y.h.sent)
  {
    var m := y.h.sent[i];
    if IsAck(m) {
      AckWithinReach(x, y, m);
      OffNumeric(x.iss, x.sndUna);
      OffNumeric(x.iss, m.ackNum);
      NewerIsCurrent(x, m, y.h.sent);
    }
  }

  lemma FifoIsCalm(dir: bool, f: Fifo, f': Fifo)
    requires Inv(f.s) && FifoInv(f) && NoneWraps(f.s) && FifoNext(dir, f, f')
    ensures CalmNext(dir, f.s, f'.s)
  {
    var ev: Event, now: nat :| FifoA(dir, f, f', ev, now) || FifoB(dir, f, f', ev, now);
    if FifoA(dir, f, f', ev, now) {
      if ev.Deliver? && Connected(f.s) {
        CursorCurrent(f.s.a.conn, f.s.b.conn, f.toA, ev.i);
      }
      assert CalmA(dir, f.s, f'.s, ev, now);
    } else {
      if ev.Deliver? && Connected(f.s) {
        CursorCurrent(f.s.b.conn, f.s.a.conn, f.toB, ev.i);
      }
      assert CalmB(dir, f.s, f'.s, ev, now);
    }
  }

  lemma FifoNextKeeps(dir: bool, f: Fifo, f': Fifo)
    requires Inv(f.s) && Inv(f'.s) && FifoInv(f) && FifoNext(dir, f, f')
    ensures FifoInv(f')
  {
    var ev: Event, now: nat :| FifoA(dir, f, f', ev, now) || FifoB(dir, f, f', ev, now);
    if FifoA(dir, f, f', ev, now) {
      FifoAInOrder(dir, f, f', ev, now);
    } else {
      FifoBInOrder(dir, f, f', ev, now);
    }
  }

  lemma FifoInit(f: Fifo)
    requires Init(f.s) && f.toA == 0 && f.toB == 0
    ensures FifoInv(f)
  {
    InitInv(f.s);
    SilentInOrder(f.s.a.conn, f.s.b.conn, 0, 0);
  }

  lemma FifoPrefix(dir: bool, run: seq<System>, fifo: seq<Fifo>, n: nat)
    requires IsFifoRun(dir, run, fifo) && 0 < n < |run|
    ensures IsFifoRun(dir, run[..n], fifo[..n]) && FifoNext(dir, fifo[n - 1], fifo[n])
  {
    RunPrefix(run, n);
    forall i: nat | i + 1 < n
      ensures FifoAt(dir, fifo[..n], i)
    {
      assert FifoAt(dir, fifo, i);
    }
    assert FifoAt(dir, fifo, n - 1);
  }

  lemma CalmAppend(dir: bool, run: seq<System>, n: nat)
    requires IsRun(run) && 0 < n == |run| - 1 && IsCalmRun(dir, run[..n]) && CalmNext(dir, run[n - 1], run[n])
    ensures IsCalmRun(dir, run)
  {
    forall i: nat | i + 1 < |run|
      ensures CalmAt(dir, run, i)
    {
      if i + 1 < n {
        assert CalmAt(dir, run[..n], i);
      }
    }
  }

  lemma FifoStays(dir: bool, run: seq<System>, fifo: seq<Fifo>, n: nat)
    requires IsFifoRun(dir, run, fifo) && 0 < n == |run| - 1 && NoneWraps(Last(run)) && FifoInv(fifo[n - 1])
    ensures FifoInv(fifo[n]) && CalmNext(dir, run[n - 1], run[n])
  {
    FifoPrefix(dir, run, fifo, n);
    NoneWrapBefore(run, n);
    RunPrefix(run, n);
    RunInv(run);
    RunInv(run[..n]);
    FifoNextKeeps(dir, fifo[n - 1], fifo[n]);
    FifoIsCalm(dir, fifo[n - 1], fifo[n]);
  }

  lemma {:induction false} FifoRunInv(dir: bool, run: seq<System>, fifo: seq<Fifo>)
    requires IsFifoRun(dir, run, fifo) && NoneWraps(Last(run))
    ensures FifoInv(fifo[|run| - 1]) && IsCalmRun(dir, run)
    decreases |run|
  {
    if |run| == 1 {
      FifoInit(fifo[0]);
    } else {
      var n := |run| - 1;
      FifoPrefix(dir, run, fifo, n);
      NoneWrapBefore(run, n);
      FifoRunInv(dir, run[..n], fifo[..n]);
      FifoStays(dir, run, fifo, n);
      CalmAppend(dir, run, n);
    }
  }

  /** On such a link no receiver ever holds more than its cap, as long as its caps cover what it promised. */
  lemma OrderedNeverOverflows(dir: bool, run: seq<System>, fifo: seq<Fifo>)
    requires IsFifoRun(dir, run, fifo) && NoneWraps(Last(run))
    ensures WithinCap(dir, Last(run))
  {
    FifoRunInv(dir, run, fifo);
    BuffersNeverOverflow(dir, run);
  }
}
