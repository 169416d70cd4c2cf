/**
 The seventh copy is the last: a segment that has used up its retries and has
 not reached the peer never will, once what is on the link is lost.
 */
module Exhausted {
  import opened SeqSpace
  import opened Connection
  import opened Invariants
  import opened Sender
  import opened Receiver
  import opened Steps
  import opened TwoEndpoints
  import opened NoLoss
  import opened Ahead
  import opened Copies
  import opened Safety
  import opened StateMachine
  import opened Scripts

  // ---------------------------------------------------------------- no further copy

  lemma {:induction false} CountGrows(ms: seq<Segment>, more: seq<Segment>, s: U32)
    requires ms <= more
    ensures Count(ms, s) <= Count(more, s)
    ensures forall i :: |ms| <= i < |more| && Queueing(more[i]) && more[i].seqNum == s ==> Count(ms, s) < Count(more, s)
    decreases |more|
  {
    if |more| > |ms| {
      CountGrows(ms, more[..|more| - 1], s);
    } else {
      assert ms == more;
    }
  }

  /** Out of retries at `s`, so no copy is sent later. */
  lemma NoMoreCopies(x: Conn, x': Conn, i: nat)
    requires x.queue != [] && CopiesOk(x) && CopiesOk(x') && x.h.sent <= x'.h.sent
    requires x.queue[0].retryCount == MAX_RETRIES && |x.h.sent| <= i < |x'.h.sent|
    ensures !(Queueing(x'.h.sent[i]) && x'.h.sent[i].seqNum == x.queue[0].seqNum)
  {
    CountGrows(x.h.sent, x'.h.sent, x.queue[0].seqNum);
  }

  // ---------------------------------------------------------------- what moves nothing

  /** Neither at the receiver's position nor carrying anything there. */
  ghost predicate Inert(y: Conn, m: Segment) {
    m.seqNum != y.rcvNxt || (m.data == [] && !m.flags.fin && y.rcvNxt !in y.ooo)
  }

  lemma EmptyAbsorbed(y: Conn, m: Segment)
    requires m.seqNum == y.rcvNxt && m.data == [] && !m.flags.fin && y.rcvNxt !in y.ooo
    ensures Absorb(y, m) == y
  {
    assert y.recvBuf + [] == y.recvBuf;
    assert TakeData(y, m.data) == y;
  }

  lemma InertReceived(y: Conn, m: Segment)
    requires Inert(y, m)
    ensures SameDelivery(y, Receive(y, m)) && SameDelivery(y, AckThenReceive(y, m))
  {
    ProcessAckFrame(y, m);
    if m.seqNum == y.rcvNxt {
      EmptyAbsorbed(y, m);
      EmptyAbsorbed(ProcessAck(y, m), m);
    } else {
      OldSegmentReceived(y, m);
    }
  }

  lemma InertSynRcvd(y: Conn, m: Segment)
    requires Inert(y, m)
    ensures SameDelivery(y, OnSynRcvd(y, m))
  {
    AcceptedFrame(y, m);
    InertReceived(Accepted(y, m), m);
  }

  lemma InertSending(y: Conn, m: Segment, now: nat)
    requires Inert(y, m)
    ensures SameDelivery(y, OnEstablished(y, m, now)) && SameDelivery(y, FlushSend(ProcessAck(y, m), now))
  {
    InertReceived(y, m);
    EstablishedIs(y, m, now);
    FlushNotTaken(Taken(y, m), now);
    ProcessAckFrame(y, m);
    FlushNotTaken(ProcessAck(y, m), now);
  }

  lemma InertClosing(y: Conn, m: Segment, now: nat)
    requires Inert(y, m)
    ensures SameDelivery(y, OnFinWait1(y, m, now)) && SameDelivery(y, OnFinWait2(y, m, now))
    ensures SameDelivery(y, OnClosing(y, m, now)) && SameDelivery(y, OnLastAck(y, m))
  {
    InertReceived(y, m);
    FinWaitIs(y, m, now);
    ProcessAckFrame(y, m);
    ClosingIs(y, m, now);
  }

  /** Such a segment delivers nothing, in any state that knows its peer. */
  lemma InertIgnored(y: Conn, m: Segment, now: nat)
    requires Inert(y, m) && y.state != SynSent
    ensures SameDelivery(y, ProcessSegment(y, m, now))
  {
    match y.state {
      case SynRcvd => InertSynRcvd(y, m);
      case Established => InertSending(y, m, now);
      case CloseWait => InertSending(y, m, now);
      case TimeWait =>
      case Closed =>
      case Listen =>
      case _ => InertClosing(y, m, now);
    }
  }

  /** The receiver's position and the delivered bytes are the same. */
  predicate Still(y: Conn, y': Conn) {
    y'.rcvNxt == y.rcvNxt && Delivered(y') == Delivered(y)
  }

  lemma TickStill(y: Conn, now: nat)
    ensures Still(y, Tick(y, now))
  {
    TimersFrame(y, now);
    TimersFrame(Probe(y, now), now);
    FlushStill(Retransmit(Probe(y, now), now), now);
  }

  lemma FlushStill(y: Conn, now: nat)
    ensures Still(y, FlushSend(y, now))
  {
    FlushLoopFrame(ArmProbe(y, now), now);
  }

  lemma ActStill(y: Conn, ev: Event, now: nat)
    ensures Still(y, Act(y, ev, now))
  {
    match ev {
      case Ticks => TickStill(y, now);
      case Sends(data) => FlushStill(Backlogged(y, data[..Accepts(y, data)]), now);
      case Recvs(room) => RecvIs(y, room);
      case Closes => FlushStill(y.(pendingClose := true), now);
      case _ =>
    }
  }

  // ---------------------------------------------------------------- one step

  /** The front of `x` has used up its retries, and `y` waits for it. */
  predicate Stranded(x: Conn, y: Conn) {
    && x.queue != [] && x.queue[0].data != [] && x.queue[0].retryCount == MAX_RETRIES
    && y.h.synced && y.rcvNxt == x.queue[0].seqNum
  }

  /** At `s'` the destination still waits for what was at the front at `s`. */
  ghost predicate StillStranded(dir: bool, s: System, s': System) {
    && Still(Dst(dir, s).conn, Dst(dir, s').conn)
    && Dst(dir, s').conn.state != SynSent && Dst(dir, s').conn.state != Listen
  }

  /** What holds of both sides at `s` and later at `t`. */
  ghost predicate Known(dir: bool, s: System, t: System) {
    var x, x', y' := Src(dir, s).conn, Src(dir, t).conn, Dst(dir, t).conn;
    && Later(s, t) && CopiesOk(x) && CopiesOk(x') && KeysAhead(y')
    && (forall m :: m in x'.h.sent ==> SegOk(StreamOf(x'), Reach(x', y'), m))
  }

  lemma NewIsInert(dir: bool, s: System, t: System, i: nat)
    requires Known(dir, s, t) && Stranded(Src(dir, s).conn, Dst(dir, s).conn) && StillStranded(dir, s, t)
    requires |Src(dir, s).conn.h.sent| <= i < |Src(dir, t).conn.h.sent| && !Src(dir, t).conn.h.sent[i].flags.rst
    ensures Inert(Dst(dir, t).conn, Src(dir, t).conn.h.sent[i])
  {
    var x, y := Src(dir, t).conn, Dst(dir, t).conn;
    var m := x.h.sent[i];
    assert SegOk(StreamOf(x), Reach(x, y), m);
    NoMoreCopies(Src(dir, s).conn, x, i);
  }

  lemma NewDeliversNothing(dir: bool, s: System, t: System, i: nat, iss: U32, now: nat)
    requires Known(dir, s, t) && Stranded(Src(dir, s).conn, Dst(dir, s).conn) && StillStranded(dir, s, t)
    requires |Src(dir, s).conn.h.sent| <= i < |Src(dir, t).conn.h.sent|
    ensures var e := Dst(dir, t); Still(e.conn, HandleSegment(e, Src(dir, t).conn.h.sent[i], iss, now).conn)
  {
    var m := Src(dir, t).conn.h.sent[i];
    if !m.flags.rst {
      NewIsInert(dir, s, t, i);
      InertIgnored(Dst(dir, t).conn, m, now);
    }
  }

  /** A connection that has left SYN_SENT does not come back to it. */
  lemma StaysSynchronised(e: Endpoint, peerSent: seq<Segment>, ev: Event, now: nat)
    requires e.life != Listening && e.conn.state != SynSent && e.conn.state != Listen
    ensures var c' := Step(e, peerSent, ev, now).conn; c'.state != SynSent && c'.state != Listen
  {
    if ev.Deliver? {
      if ev.i < |peerSent| {
        SegmentStates(e.conn, peerSent[ev.i], now);
      }
    } else {
      ActStates(e.conn, ev, now);
    }
  }

  lemma MoveStrands(dir: bool, s: System, t: System, mv: Move)
    requires Known(dir, s, t) && Stranded(Src(dir, s).conn, Dst(dir, s).conn) && StillStranded(dir, s, t)
    requires mv.ev.Deliver? ==> mv.ev.i >= |Dst(mv.atA, s).conn.h.sent|
    ensures StillStranded(dir, s, Apply(t, mv))
  {
    if mv.atA != dir {
      var e := Dst(dir, t);
      StaysSynchronised(e, Src(dir, t).conn.h.sent, mv.ev, mv.now);
      if !mv.ev.Deliver? {
        ActStill(e.conn, mv.ev, mv.now);
      } else if mv.ev.i < |Src(dir, t).conn.h.sent| {
        NewDeliversNothing(dir, s, t, mv.ev.i, mv.ev.iss, mv.now);
      }
    }
  }

  // ---------------------------------------------------------------- over whole scripts

  lemma StrandedExists(run: seq<System>, dir: bool)
    requires IsRun(run) && NoneWraps(Last(run)) && Stranded(Src(dir, Last(run)).conn, Dst(dir, Last(run)).conn)
    ensures Last(run).a.life != Listening && Last(run).b.life != Listening
    ensures StillStranded(dir, Last(run), Last(run))
  {
    RunInv(run);
  }

  lemma Knows(run: seq<System>, ms: seq<Move>, dir: bool)
    requires IsRun(run) && NoneWraps(Last(run)) && NoneWraps(Play(Last(run), ms))
    requires Last(run).a.life != Listening && Last(run).b.life != Listening
    ensures Known(dir, Last(run), Play(Last(run), ms))
  {
    PlayLater(Last(run), ms);
    AtMostSevenCopies(run);
    PlayedIsRun(run, ms);
    RunInv(Played(run, ms));
    RunAhead(Played(run, ms));
    AtMostSevenCopies(Played(run, ms));
  }

  /** If a move does not wrap, what came before did not. */
  lemma UnwrappedBefore(run: seq<System>, ms: seq<Move>, mv: Move)
    requires IsRun(run) && NoneWraps(Apply(Play(Last(run), ms), mv))
    ensures NoneWraps(Play(Last(run), ms))
  {
    PlayedIsRun(run, ms);
    RunQuiet(Played(run, ms));
    ApplyIsNext(Play(Last(run), ms), mv);
    NextGrew(Play(Last(run), ms), Apply(Play(Last(run), ms), mv));
  }

  lemma {:induction false} UnwrappedAtFirst(run: seq<System>, ms: seq<Move>)
    requires IsRun(run) && NoneWraps(Play(Last(run), ms))
    ensures NoneWraps(Last(run))
    decreases |ms|
  {
    if ms != [] {
      var n := |ms| - 1;
      UnwrappedBefore(run, ms[..n], ms[n]);
      UnwrappedAtFirst(run, ms[..n]);
    }
  }

  lemma {:induction false} StaysStranded(run: seq<System>, dir: bool, ms: seq<Move>)
    requires IsRun(run) && NoneWraps(Play(Last(run), ms)) && Fresh(ms, Last(run))
    requires Stranded(Src(dir, Last(run)).conn, Dst(dir, Last(run)).conn)
    ensures StillStranded(dir, Last(run), Play(Last(run), ms))
    decreases |ms|
  {
    UnwrappedAtFirst(run, ms);
    StrandedExists(run, dir);
    if ms != [] {
      var n := |ms| - 1;
      UnwrappedBefore(run, ms[..n], ms[n]);
      StaysStranded(run, dir, ms[..n]);
      Knows(run, ms[..n], dir);
      MoveStrands(dir, Last(run), Play(Last(run), ms[..n]), ms[n]);
    }
  }

  /**
   If the front segment has been sent seven times and the peer still waits for it, then once everything on the
   link is lost no further byte of that side ever arrives, whatever the two do and whatever the clock shows.
   */
  lemma ExhaustedNeverArrives(run: seq<System>, dir: bool, ms: seq<Move>)
    requires IsRun(run) && NoneWraps(Play(Last(run), ms)) && Fresh(ms, Last(run))
    requires Stranded(Src(dir, Last(run)).conn, Dst(dir, Last(run)).conn)
    ensures Delivered(Dst(dir, Play(Last(run), ms)).conn) == Delivered(Dst(dir, Last(run)).conn)
  {
    StaysStranded(run, dir, ms);
  }
}
