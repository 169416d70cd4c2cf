/**
 When a receiver can be made to hold more than its cap: whenever an
 acknowledgement on the link, believed now, would put the sender's limit beyond
 what the receiver has room for.  The condition of `BuffersNeverOverflow` is exact.
 */
module Overflow {
  import opened SeqSpace
  import opened Connection
  import opened Invariants
  import opened Pairs
  import opened Sender
  import opened Receiver
  import opened Steps
  import opened TwoEndpoints
  import opened NoLoss
  import opened Window
  import opened Ahead
  import opened Copies
  import opened Logs
  import opened FlowControl
  import opened FlowRuns
  import opened StateMachine
  import opened Scripts
  import opened Progress

  // ---------------------------------------------------------------- calm scripts

  ghost predicate CalmMove(dir: bool, s: System, mv: Move) {
    Calm(mv.atA == dir, Src(mv.atA, s), Dst(mv.atA, s).conn.h.sent, mv.ev)
  }

  ghost predicate CalmScript(dir: bool, s: System, ms: seq<Move>)
    decreases |ms|
  {
    ms == [] ||
    (CalmScript(dir, s, ms[..|ms| - 1]) && CalmMove(dir, Play(s, ms[..|ms| - 1]), ms[|ms| - 1]))
  }

  lemma CalmMore(dir: bool, s: System, ms: seq<Move>, mv: Move)
    requires CalmScript(dir, s, ms) && CalmMove(dir, Play(s, ms), mv)
    ensures CalmScript(dir, s, ms + [mv])
  {
    assert (ms + [mv])[..|ms|] == ms;
  }

  lemma CalmApply(dir: bool, s: System, mv: Move)
    requires CalmMove(dir, s, mv)
    ensures CalmNext(dir, s, Apply(s, mv))
  {
    if mv.atA {
      assert CalmA(dir, s, Apply(s, mv), mv.ev, mv.now);
    } else {
      assert CalmB(dir, s, Apply(s, mv), mv.ev, mv.now);
    }
  }

  lemma CalmRunAppend(dir: bool, run: seq<System>, s: System)
    requires IsCalmRun(dir, run) && CalmNext(dir, Last(run), s) && IsRun(run + [s])
    ensures IsCalmRun(dir, run + [s])
  {
    var run' := run + [s];
    forall i: nat | i + 1 < |run'|
      ensures CalmAt(dir, run', i)
    {
      if i + 1 < |run| {
        assert CalmAt(dir, run, i);
      }
    }
  }

  /** A calm run that goes on calmly is calm. */
  lemma {:induction false} CalmPlayed(dir: bool, run: seq<System>, ms: seq<Move>)
    requires IsCalmRun(dir, run) && CalmScript(dir, Last(run), ms)
    ensures IsCalmRun(dir, Played(run, ms)) && Last(Played(run, ms)) == Play(Last(run), ms)
    decreases |ms|
  {
    PlayedIsRun(run, ms);
    if ms != [] {
      var n := |ms| - 1;
      CalmPlayed(dir, run, ms[..n]);
      CalmApply(dir, Play(Last(run), ms[..n]), ms[n]);
      CalmRunAppend(dir, Played(run, ms[..n]), Play(Last(run), ms));
    }
  }

  /** A journey that has been calm since it began. */
  ghost predicate CalmSoFar(dir: bool, j: Journey) {
    Valid(j) && CalmScript(dir, Last(j.run), j.ms)
  }

  // ---------------------------------------------------------------- sent data can still arrive

  lemma {:induction false} CountedIsThere(ms: seq<Segment>, s: U32) returns (i: nat)
    requires Count(ms, s) > 0
    ensures i < |ms| && Queueing(ms[i]) && ms[i].seqNum == s
    decreases |ms|
  {
    var n := |ms| - 1;
    if Queueing(ms[n]) && ms[n].seqNum == s {
      i := n;
    } else {
      i := CountedIsThere(ms[..n], s);
    }
  }

  /** A data segment of the stream at this place. */
  ghost predicate IsData(x: Conn, m: Segment) {
    !m.flags.rst && !m.flags.fin && !m.flags.syn && m.flags.psh && ChunkAt(StreamOf(x), m.seqNum, m.data)
  }

  /** Every data segment in the queue is on the link. */
  lemma QueuedIsSent(x: Conn, y: Conn, j: nat) returns (i: nat)
    requires Pair(x, y) && CopiesOk(x) && j < |x.queue| && x.queue[j].data != []
    ensures i < |x.h.sent| && x.h.sent[i].seqNum == x.queue[j].seqNum && IsData(x, x.h.sent[i])
  {
    var u := x.queue[j];
    assert EntryOk(StreamOf(x), x.h.synced, u);
    i := CountedIsThere(x.h.sent, u.seqNum);
    assert SegOk(StreamOf(x), Reach(x, y), x.h.sent[i]);
  }

  /** A segment boundary inside the sent data is where a queued entry starts, or lies behind the queue. */
  lemma {:induction false} EntryAt(x: Conn, r: U32, j: nat) returns (k: nat)
    requires TxOk(x) && j < |x.queue| && Off(x.iss, x.queue[j].seqNum) <= Off(x.iss, r)
    requires 1 <= Off(x.iss, r) <= |x.h.out| && Off(x.iss, r) - 1 in x.h.cuts
    ensures k < |x.queue| && x.queue[k].seqNum == r && x.queue[k].data != []
    decreases |x.queue| - j
  {
    var u := x.queue[j];
    assert EntryOk(StreamOf(x), x.h.synced, u);
    OffInjective(x.iss, u.seqNum, r);
    if u.seqNum == r {
      k := j;
    } else {
      assert NextOff(x, j) <= Off(x.iss, r);
      k := EntryAt(x, r, j + 1);
    }
  }

  /** The segment the receiver waits for is on the link. */
  lemma NextIsSent(x: Conn, y: Conn) returns (i: nat)
    requires Sound(x, y) && y.h.synced && y.h.finsTaken == 0 && |Delivered(y)| < |x.h.out|
    ensures i < |x.h.sent| && x.h.sent[i].seqNum == y.rcvNxt && IsData(x, x.h.sent[i])
  {
    var k := EntryAt(x, y.rcvNxt, 0);
    i := QueuedIsSent(x, y, k);
  }

  lemma InOrderDelivers(t: Stream, c: Conn, m: Segment)
    requires RxOk(t, c) && c.h.finsTaken == 0 && |t.out| + 2 < MOD && Honest(t, m)
    requires m.seqNum == c.rcvNxt && m.data != [] && !m.flags.rst && !m.flags.fin
    ensures |Delivered(Absorb(c, m))| > |Delivered(c)|
  {
    OffAdd(t.iss, c.rcvNxt, |m.data|);
    TakeDataKeeps(t, c, m);
    SpliceKeeps(t, TakeData(c, m.data));
    AbsorbDelivers(t, c, m);
  }

  /** The awaited segment is taken. */
  lemma AwaitedIsTaken(y: Conn, x: Conn, m: Segment)
    requires Pair(y, x) && y.h.synced && y.h.finsTaken == 0
    requires m in x.h.sent && m.seqNum == y.rcvNxt && IsData(x, m)
    ensures |Delivered(AckThenReceive(y, m))| > |Delivered(y)|
  {
    var y1 := ProcessAck(y, m);
    ProcessAckFrame(y, m);
    RxSame(y, y1, x);
    assert SegOk(StreamOf(x), Reach(x, y), m);
    InOrderDelivers(StreamOf(x), y1, m);
    assert Delivered(AckThenReceive(y, m)) == Delivered(Absorb(y1, m));
  }

  lemma AwaitedIsTakenBy(e: Endpoint, x: Conn, m: Segment, now: nat)
    requires Open(e) && Pair(e.conn, x) && LabelOk(e.conn)
    requires m in x.h.sent && m.seqNum == e.conn.rcvNxt && IsData(x, m)
    ensures |Delivered(HandleSegment(e, m, 0, now).conn)| > |Delivered(e.conn)|
  {
    AwaitedIsTaken(e.conn, x, m);
    AfterExchange(e.conn, m, now);
  }

  /** What is sent and not yet delivered can be delivered next. */
  lemma Awaited(x: Endpoint, y: Endpoint, now: nat) returns (i: nat)
    requires Open(y) && Sound(x.conn, y.conn) && |Delivered(y.conn)| < |x.conn.h.out|
    ensures i < |x.conn.h.sent| && IsData(x.conn, x.conn.h.sent[i])
    ensures |Delivered(HandleSegment(y, x.conn.h.sent[i], 0, now).conn)| > |Delivered(y.conn)|
  {
    i := NextIsSent(x.conn, y.conn);
    AwaitedIsTakenBy(y, x.conn, x.conn.h.sent[i], now);
  }

  /** What is sent and missing arrives, and the application reads nothing. */
  lemma SentRound(j: Journey, dir: bool) returns (j': Journey)
    requires Going(j) && CalmSoFar(dir, j) && !j.newOnly
    requires |Delivered(Dst(dir, At(j)).conn)| < |Src(dir, At(j)).conn.h.out|
    ensures Goes(j, j') && CalmSoFar(dir, j') && Src(dir, At(j')) == Src(dir, At(j))
    ensures var y, y' := Dst(dir, At(j)).conn, Dst(dir, At(j')).conn;
      |Delivered(y')| > |Delivered(y)| && y'.h.handed == y.h.handed && y'.recvCap == y.recvCap
  {
    Facts(j, dir);
    var i := Awaited(Src(dir, At(j)), Dst(dir, At(j)), j.now);
    SegmentUnread(Dst(dir, At(j)), Src(dir, At(j)).conn.h.sent[i], 0, j.now);
    j' := DeliverTo(j, dir, i);
    CalmMore(dir, Last(j.run), j.ms, Move(!dir, Deliver(i, 0), j.now));
  }

  /** All that is sent can reach the destination before its application reads any of it. */
  lemma {:induction false} PileUp(j: Journey, dir: bool) returns (j': Journey)
    requires Going(j) && CalmSoFar(dir, j) && !j.newOnly
    ensures Goes(j, j') && CalmSoFar(dir, j')
    ensures var x, y, y' := Src(dir, At(j)).conn, Dst(dir, At(j)).conn, Dst(dir, At(j')).conn;
      |Delivered(y')| >= |x.h.out| && y'.h.handed == y.h.handed && y'.recvCap == y.recvCap
    decreases |Src(dir, At(j)).conn.h.out| - |Delivered(Dst(dir, At(j)).conn)|
  {
    if |Delivered(Dst(dir, At(j)).conn)| < |Src(dir, At(j)).conn.h.out| {
      var j1 := SentRound(j, dir);
      j' := PileUp(j1, dir);
      ThenGoes(j, j1, j');
    } else {
      j' := j;
    }
  }

  // ---------------------------------------------------------------- a full window piles up

  /** Enough bytes to fill the window and leave some over. */
  function Filler(x: Conn): seq<Byte> {
    seq(x.sndWnd + 1, i => 0)
  }

  lemma FillsWindow(x: Conn, now: nat)
    requires x.state == Established && x.sendCap >= |x.pending| + x.sndWnd + 1
    ensures var x' := Send(x, Filler(x), now);
      && x'.state == Established && Off(x'.sndUna, x'.sndNxt) >= x'.sndWnd
      && x'.h.accepted == x.h.accepted + Filler(x)
      && x'.iss == x.iss && x'.sndUna == x.sndUna && x'.sndWnd == x.sndWnd
  {
    var x0 := Backlogged(x, Filler(x));
    assert Filler(x)[..Accepts(x, Filler(x))] == Filler(x);
    var ms := FlushLoopFills(ArmProbe(x0, now), now);
    FlushLoopExact(ArmProbe(x0, now), now);
    FlushLoopFrame(ArmProbe(x0, now), now);
  }

  /** The limit is beyond what the receiver has room for. */
  predicate Overreaches(x: Conn, y: Conn) {
    Off(x.iss, x.sndUna) + x.sndWnd > RightEdge(y, y.recvCap)
  }

  /** Clear of the wrap even with another window full of bytes. */
  predicate Roomy(x: Conn) {
    x.iss + |x.h.accepted| + 0x1_0003 < MOD
  }

  /** A full window that overreaches means that too much is on the link. */
  lemma FullOverreaches(x: Conn, y: Conn)
    requires Pair(x, y) && LabelOk(x) && LabelOk(y) && x.state == Established && TakesData(y.state)
    requires Overreaches(x, y) && Off(x.sndUna, x.sndNxt) >= x.sndWnd
    ensures |x.h.out| > |y.h.handed| + y.recvCap
  {
    OffDiff(x.iss, x.sndUna, x.sndNxt);
  }

  lemma FilledIsOpen(e: Endpoint, now: nat)
    requires Open(e) && Roomy(e.conn) && e.conn.state == Established && e.conn.sndWnd <= 0xFFFF
    requires e.conn.sendCap >= |e.conn.pending| + e.conn.sndWnd + 1
    ensures var e' := Step(e, [], Sends(Filler(e.conn)), now);
      && Open(e') && e'.conn.state == Established && e'.conn.iss == e.conn.iss
      && e'.conn.sndUna == e.conn.sndUna && e'.conn.sndWnd == e.conn.sndWnd
      && Off(e'.conn.sndUna, e'.conn.sndNxt) >= e'.conn.sndWnd
  {
    var x := e.conn;
    FillsWindow(x, now);
    assert Filler(x)[..Accepts(x, Filler(x))] == Filler(x);
    FlushMoves(Backlogged(x, Filler(x)), now);
    assert x.h.out + (x.pending + Filler(x)) == x.h.out + x.pending + Filler(x);
  }

  /** One more move of the source that promises nothing. */
  lemma TakeCalm(j: Journey, dir: bool, ev: Event) returns (j': Journey)
    requires CalmSoFar(dir, j) && !ev.Deliver?
    ensures CalmSoFar(dir, j') && Extends(j, j') && j'.now == j.now
    ensures Src(dir, At(j')) == Step(Src(dir, At(j)), Dst(dir, At(j)).conn.h.sent, ev, j.now)
    ensures Dst(dir, At(j')) == Dst(dir, At(j))
  {
    j' := Take(j, dir, ev, j.now);
    CalmMore(dir, Last(j.run), j.ms, Move(dir, ev, j.now));
  }

  /** The source's application raises its backlog cap. */
  lemma MakeRoom(j: Journey, dir: bool) returns (j': Journey)
    requires CalmSoFar(dir, j) && Src(dir, At(j)).life == Alive
    ensures CalmSoFar(dir, j') && Extends(j, j') && j'.now == j.now && Dst(dir, At(j')) == Dst(dir, At(j))
    ensures var e := Src(dir, At(j));
      Src(dir, At(j')) == e.(conn := e.conn.(sendCap := |e.conn.pending| + e.conn.sndWnd + 1))
  {
    var x := Src(dir, At(j)).conn;
    j' := TakeCalm(j, dir, SetsCaps(x.recvCap, |x.pending| + x.sndWnd + 1));
  }

  /** The source's application fills the window. */
  lemma FillUp(j: Journey, dir: bool) returns (j': Journey)
    requires Going(j) && CalmSoFar(dir, j)
    requires var x := Src(dir, At(j)).conn; x.state == Established && Roomy(x) && x.sndWnd <= 0xFFFF
    ensures Going(j') && CalmSoFar(dir, j') && Extends(j, j') && Dst(dir, At(j')) == Dst(dir, At(j))
    ensures var x, x' := Src(dir, At(j)).conn, Src(dir, At(j')).conn;
      && x'.state == Established && x'.iss == x.iss && x'.sndUna == x.sndUna && x'.sndWnd == x.sndWnd
      && Off(x'.sndUna, x'.sndNxt) >= x'.sndWnd
  {
    var j1 := MakeRoom(j, dir);
    var e1 := Src(dir, At(j1));
    FilledIsOpen(e1, j.now);
    j' := TakeCalm(j1, dir, Sends(Filler(e1.conn)));
  }

  lemma PiledUp(y: Conn, out: seq<Byte>)
    requires |Delivered(y)| >= |out| > |y.h.handed| + y.recvCap
    ensures BufferedBytes(y) > y.recvCap
  {
  }

  /** The receiver of this direction holds too much. */
  ghost predicate Overflown(dir: bool, s: System) {
    BufferedBytes(Dst(dir, s).conn) > Dst(dir, s).conn.recvCap
  }

  lemma OverreachOverflows(j: Journey, dir: bool) returns (j': Journey)
    requires Going(j) && CalmSoFar(dir, j) && !j.newOnly
    requires var x, y := Src(dir, At(j)).conn, Dst(dir, At(j)).conn;
      x.state == Established && Roomy(x) && x.sndWnd <= 0xFFFF && Overreaches(x, y)
    ensures Going(j') && CalmSoFar(dir, j') && Extends(j, j') && Overflown(dir, At(j'))
    ensures Dst(dir, At(j')).conn.recvCap == Dst(dir, At(j)).conn.recvCap
  {
    var j1 := FillUp(j, dir);
    Facts(j1, dir);
    FullOverreaches(Src(dir, At(j1)).conn, Dst(dir, At(j1)).conn);
    j' := PileUp(j1, dir);
    PiledUp(Dst(dir, At(j')).conn, Src(dir, At(j1)).conn.h.out);
  }

  // ---------------------------------------------------------------- an acknowledgement is believed

  lemma AckBelieved(x: Conn, m: Segment, now: nat)
    requires x.state == Established && !x.pendingClose && IsAck(m) && !m.flags.fin
    ensures var x' := ProcessSegment(x, m, now);
      && x'.state == Established && x'.sndUna == Believed(x, m) && x'.sndWnd == m.window
      && x'.h.accepted == x.h.accepted && x'.iss == x.iss
  {
    SenderFollowsPeer(x, m, now);
    ExchangeFrame(x, m);
    AckThenReceiveFrame(x, m);
    FlushMoves(AckThenReceive(x, m), now);
    FinIffDrained(AckThenReceive(x, m), now);
  }

  /** Both ESTABLISHED and far from the wrap, with a source that has not been told to close. */
  predicate Ripe(dir: bool, s: System) {
    Flowing(s.a) && Flowing(s.b) && !Src(dir, s).conn.pendingClose && Roomy(Src(dir, s).conn)
  }

  /** The state after the source has been given the destination's `i`-th segment. */
  ghost function Heard(dir: bool, s: System, i: nat, now: nat): System {
    Apply(s, Move(dir, Deliver(i, 0), now))
  }

  lemma HeardIs(dir: bool, s: System, i: nat, now: nat)
    requires Src(dir, s).life == Alive && i < |Dst(dir, s).conn.h.sent|
    ensures Src(dir, Heard(dir, s, i, now)).conn == ProcessSegment(Src(dir, s).conn, Dst(dir, s).conn.h.sent[i], now)
    ensures Dst(dir, Heard(dir, s, i, now)) == Dst(dir, s)
  {
  }

  /** An ESTABLISHED connection has not sent a FIN. */
  lemma NoFinYet(run: seq<System>, dir: bool, i: nat)
    requires IsRun(run) && NoneWraps(Last(run)) && Ripe(dir, Last(run))
    requires i < |Dst(dir, Last(run)).conn.h.sent| && IsAck(Dst(dir, Last(run)).conn.h.sent[i])
    ensures !Dst(dir, Last(run)).conn.h.sent[i].flags.fin
  {
    var x, y := Src(dir, Last(run)).conn, Dst(dir, Last(run)).conn;
    RunInv(run);
    assert SegOk(StreamOf(y), Reach(y, x), y.h.sent[i]);
  }

  lemma HeardIsOpen(run: seq<System>, dir: bool, i: nat, now: nat)
    requires IsRun(run) && NoneWraps(Last(run)) && Ripe(dir, Last(run))
    requires i < |Dst(dir, Last(run)).conn.h.sent| && IsAck(Dst(dir, Last(run)).conn.h.sent[i])
    ensures Open(Src(dir, Heard(dir, Last(run), i, now))) && Open(Dst(dir, Last(run)))
  {
    FlowingIsOpen(run);
    NoFinYet(run, dir, i);
    RunFacts(run, dir);
    SegmentOnward(Src(dir, Last(run)), Dst(dir, Last(run)).conn, Dst(dir, Last(run)).conn.h.sent[i], 0, now);
  }

  lemma HeardBelieves(run: seq<System>, dir: bool, i: nat, now: nat)
    requires IsRun(run) && NoneWraps(Last(run)) && Ripe(dir, Last(run))
    requires i < |Dst(dir, Last(run)).conn.h.sent| && IsAck(Dst(dir, Last(run)).conn.h.sent[i])
    ensures var x, x' := Src(dir, Last(run)).conn, Src(dir, Heard(dir, Last(run), i, now)).conn;
      var m := Dst(dir, Last(run)).conn.h.sent[i];
      && x'.state == Established && x'.iss == x.iss && x'.sndUna == Believed(x, m) && x'.sndWnd == m.window
      && Roomy(x')
  {
    NoFinYet(run, dir, i);
    HeardIs(dir, Last(run), i, now);
    AckBelieved(Src(dir, Last(run)).conn, Dst(dir, Last(run)).conn.h.sent[i], now);
  }

  /** A journey that begins where the acknowledgement has just been heard. */
  lemma DepartHeard(run: seq<System>, dir: bool, i: nat, now: nat) returns (j: Journey)
    requires IsRun(run) && NoneWraps(Last(run)) && Ripe(dir, Last(run))
    requires i < |Dst(dir, Last(run)).conn.h.sent| && IsAck(Dst(dir, Last(run)).conn.h.sent[i])
    ensures Going(j) && CalmSoFar(dir, j) && At(j) == Heard(dir, Last(run), i, now)
    ensures j == Journey(run + [Heard(dir, Last(run), i, now)], false, now, [], now)
  {
    var s1 := Heard(dir, Last(run), i, now);
    HeardIsOpen(run, dir, i, now);
    ApplyIsNext(Last(run), Move(dir, Deliver(i, 0), now));
    RunAppend(run, s1);
    j := Depart(run + [s1], false, now);
  }

  // ---------------------------------------------------------------- the condition on acknowledgements is exact

  /** The smallest cap that covers what was promised. */
  function TightCap(y: Conn): int {
    Promised(y) - 1 - |y.h.handed|
  }

  lemma TightCapCovers(x: Conn, y: Conn, m: Segment)
    requires Pair(x, y) && Flow(x, y) && KeysAhead(y) && y.h.finsTaken == 0 && m in y.h.sent && IsAck(m)
    ensures TightCap(y) >= 0 && Covers(y, TightCap(y)) && RightEdge(y, TightCap(y)) == Promised(y)
  {
    PromiseHeard(x, y, m);
    AckWithinReach(x, y, m);
    HeldWasSent(x, y);
  }

  lemma CalmRunCap(run: seq<System>, dir: bool, i: nat)
    requires IsCalmRun(dir, run) && NoneWraps(Last(run)) && Ripe(dir, Last(run))
    requires i < |Dst(dir, Last(run)).conn.h.sent| && IsAck(Dst(dir, Last(run)).conn.h.sent[i])
    ensures var y := Dst(dir, Last(run)).conn;
      && Src(dir, Last(run)).conn.iss == y.irs
      && TightCap(y) >= 0 && Covers(y, TightCap(y)) && RightEdge(y, TightCap(y)) == Promised(y)
  {
    var x, y := Src(dir, Last(run)).conn, Dst(dir, Last(run)).conn;
    RunInv(run);
    RunAhead(run);
    RunFlow(dir, run);
    PromiseHeard(x, y, y.h.sent[i]);
    TightCapCovers(x, y, y.h.sent[i]);
  }

  /** The destination sets the smallest cap it may. */
  lemma Tighten(j: Journey, dir: bool, cap: nat) returns (j': Journey)
    requires Going(j) && CalmSoFar(dir, j) && Covers(Dst(dir, At(j)).conn, cap)
    ensures Going(j') && CalmSoFar(dir, j') && Extends(j, j') && Src(dir, At(j')) == Src(dir, At(j))
    ensures var e := Dst(dir, At(j)); Dst(dir, At(j')) == e.(conn := e.conn.(recvCap := cap))
  {
    var ev := SetsCaps(cap, Dst(dir, At(j)).conn.sendCap);
    j' := Take(j, !dir, ev, j.now);
    CalmMore(dir, Last(j.run), j.ms, Move(!dir, ev, j.now));
  }

  /** After an acknowledgement that is not current, a calm continuation breaks the cap. */
  lemma StaleAckOverflows(run: seq<System>, dir: bool, i: nat, start: nat) returns (ms: seq<Move>)
    requires IsCalmRun(dir, run) && NoneWraps(Last(run)) && Ripe(dir, Last(run))
    requires i < |Dst(dir, Last(run)).conn.h.sent|
    requires var y := Dst(dir, Last(run)).conn; !Current(Src(dir, Last(run)).conn, y.h.sent[i], y.h.sent)
    ensures var s1 := Heard(dir, Last(run), i, start);
      && Clocked(ms, start) && CalmScript(dir, s1, ms) && NoneWraps(Play(s1, ms)) && Overflown(dir, Play(s1, ms))
  {
    var y := Dst(dir, Last(run)).conn;
    CalmRunCap(run, dir, i);
    HeardBelieves(run, dir, i, start);
    var j := DepartHeard(run, dir, i, start);
    var j1 := Tighten(j, dir, TightCap(y));
    var j2 := OverreachOverflows(j1, dir);
    Facts(j2, dir);
    ms := j2.ms;
  }

  /** Nothing the two do from `s` on, calmly and on a forward clock, overfills the receiver. */
  ghost predicate StaysWithin(dir: bool, s: System, start: nat) {
    forall ms :: Clocked(ms, start) && CalmScript(dir, s, ms) && NoneWraps(Play(s, ms)) ==> WithinCap(dir, Play(s, ms))
  }

  lemma CurrentIsSafe(run: seq<System>, dir: bool, i: nat, start: nat, ms: seq<Move>)
    requires IsCalmRun(dir, run) && i < |Dst(dir, Last(run)).conn.h.sent|
    requires var y := Dst(dir, Last(run)).conn; Current(Src(dir, Last(run)).conn, y.h.sent[i], y.h.sent)
    requires var s1 := Heard(dir, Last(run), i, start); CalmScript(dir, s1, ms) && NoneWraps(Play(s1, ms))
    ensures WithinCap(dir, Play(Heard(dir, Last(run), i, start), ms))
  {
    var mv := Move(dir, Deliver(i, 0), start);
    var run1 := run + [Heard(dir, Last(run), i, start)];
    CalmApply(dir, Last(run), mv);
    ApplyIsNext(Last(run), mv);
    RunAppend(run, Last(run1));
    CalmRunAppend(dir, run, Last(run1));
    CalmPlayed(dir, run1, ms);
    BuffersNeverOverflow(dir, Played(run1, ms));
  }

  /**
   After a calm run with both sides ESTABLISHED: delivering an acknowledgement leaves the receiver's cap safe,
   whatever follows calmly, if and only if the acknowledgement is current.
   */
  lemma AckIsSafeIff(run: seq<System>, dir: bool, i: nat, start: nat)
    requires IsCalmRun(dir, run) && NoneWraps(Last(run)) && Ripe(dir, Last(run))
    requires i < |Dst(dir, Last(run)).conn.h.sent|
    ensures var y := Dst(dir, Last(run)).conn;
      StaysWithin(dir, Heard(dir, Last(run), i, start), start)
      <==> Current(Src(dir, Last(run)).conn, y.h.sent[i], y.h.sent)
  {
    var y := Dst(dir, Last(run)).conn;
    var s1 := Heard(dir, Last(run), i, start);
    if Current(Src(dir, Last(run)).conn, y.h.sent[i], y.h.sent) {
      forall ms | Clocked(ms, start) && CalmScript(dir, s1, ms) && NoneWraps(Play(s1, ms))
        ensures WithinCap(dir, Play(s1, ms))
      {
        CurrentIsSafe(run, dir, i, start, ms);
      }
    } else {
      var ms := StaleAckOverflows(run, dir, i, start);
      assert !WithinCap(dir, Play(s1, ms));
    }
  }

  // ---------------------------------------------------------------- caps that do not cover

  lemma HeardOverflows(run: seq<System>, dir: bool, i: nat, start: nat) returns (ms: seq<Move>)
    requires IsRun(run) && NoneWraps(Last(run)) && Ripe(dir, Last(run))
    requires i < |Dst(dir, Last(run)).conn.h.sent|
    requires var x, y := Src(dir, Last(run)).conn, Dst(dir, Last(run)).conn;
      IsAck(y.h.sent[i]) && Off(x.iss, Believed(x, y.h.sent[i])) + y.h.sent[i].window > RightEdge(y, y.recvCap)
    ensures var s' := Play(Heard(dir, Last(run), i, start), ms);
      && Clocked(ms, start) && NoneWraps(s') && Overflown(dir, s')
      && Dst(dir, s').conn.recvCap == Dst(dir, Last(run)).conn.recvCap
  {
    HeardBelieves(run, dir, i, start);
    var j := DepartHeard(run, dir, i, start);
    var j1 := OverreachOverflows(j, dir);
    Facts(j1, dir);
    ms := j1.ms;
  }

  /**
   If believing an acknowledgement that is on the link would put the sender's limit beyond what the receiver
   has room for, the run can go on, on a forward clock, so that the receiver holds more than its cap.
   */
  lemma BadAckOverflows(run: seq<System>, dir: bool, i: nat, start: nat) returns (ms: seq<Move>)
    requires IsRun(run) && NoneWraps(Last(run)) && Ripe(dir, Last(run))
    requires i < |Dst(dir, Last(run)).conn.h.sent|
    requires var x, y := Src(dir, Last(run)).conn, Dst(dir, Last(run)).conn;
      IsAck(y.h.sent[i]) && Off(x.iss, Believed(x, y.h.sent[i])) + y.h.sent[i].window > RightEdge(y, y.recvCap)
    ensures Clocked(ms, start) && NoneWraps(Play(Last(run), ms)) && Overflown(dir, Play(Last(run), ms))
    ensures Dst(dir, Play(Last(run), ms)).conn.recvCap == Dst(dir, Last(run)).conn.recvCap
  {
    var mv := Move(dir, Deliver(i, 0), start);
    var rest := HeardOverflows(run, dir, i, start);
    PlayAfter(Last(run), mv, rest);
    ms := [mv] + rest;
  }

  lemma {:induction false} FurthestIsThere(irs: U32, ms: seq<Segment>) returns (i: nat)
    requires Furthest(irs, ms) > 0
    ensures i < |ms| && IsAck(ms[i]) && EdgeOf(irs, ms[i]) == Furthest(irs, ms)
    decreases |ms|
  {
    var n := |ms| - 1;
    if EdgeOf(irs, ms[n]) == Furthest(irs, ms) {
      i := n;
    } else {
      i := FurthestIsThere(irs, ms[..n]);
    }
  }

  /** Believing a promise puts the limit at least where the promise is. */
  lemma BelievedReaches(x: Conn, y: Conn, m: Segment)
    requires Pair(x, y) && NoWrap(x) && m in y.h.sent && IsAck(m)
    ensures EdgeOf(y.irs, m) <= Off(x.iss, Believed(x, m)) + m.window
  {
    AckWithinReach(x, y, m);
    OffNumeric(x.iss, x.sndUna);
    OffNumeric(x.iss, m.ackNum);
  }

  /** A cap that does not cover what was promised can be exceeded: all it takes is that the promise is believed. */
  lemma UncoveredCapOverflows(run: seq<System>, dir: bool, start: nat) returns (ms: seq<Move>)
    requires IsRun(run) && NoneWraps(Last(run)) && Ripe(dir, Last(run))
    requires !Covers(Dst(dir, Last(run)).conn, Dst(dir, Last(run)).conn.recvCap)
    ensures Clocked(ms, start) && NoneWraps(Play(Last(run), ms)) && Overflown(dir, Play(Last(run), ms))
    ensures Dst(dir, Play(Last(run), ms)).conn.recvCap == Dst(dir, Last(run)).conn.recvCap
  {
    var x, y := Src(dir, Last(run)).conn, Dst(dir, Last(run)).conn;
    if BufferedBytes(y) > y.recvCap {
      ms := [];
    } else {
      var i := FurthestIsThere(y.irs, y.h.sent);
      RunInv(run);
      BelievedReaches(x, y, y.h.sent[i]);
      ms := BadAckOverflows(run, dir, i, start);
    }
  }
}
