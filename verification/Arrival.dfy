/**
 When everything accepted can still arrive over a link that has lost all it
 carried: exactly when no side has used up the retries of a segment that its peer
 still waits for, provided one side at least may retry.
 */
module Arrival {
  import opened SeqSpace
  import opened Connection
  import opened Invariants
  import opened Sender
  import opened TwoEndpoints
  import opened NoLoss
  import opened Window
  import opened Recovery
  import opened Timers
  import opened Logs
  import opened Scripts
  import opened Progress
  import opened Exhausted

  // ---------------------------------------------------------------- news from the peer frees a spent front

  /** The peer has the front segment; only its acknowledgement was lost. */
  predicate Reached(x: Conn, y: Conn) {
    x.queue != [] && End(x.queue[0]) <= y.rcvNxt
  }

  /** An acknowledgement of all the peer has. */
  predicate IsNews(m: Segment, rcvNxt: U32) {
    IsAck(m) && !m.flags.fin && m.ackNum == rcvNxt
  }

  lemma NewsFrees(x: Conn, y: Conn, m: Segment, now: nat)
    requires Sound(x, y) && TakesData(x.state) && Spare(x.queue, 1) && Reached(x, y) && IsNews(m, y.rcvNxt)
    ensures Spare(ProcessSegment(x, m, now).queue, 0)
  {
    DataIsUnacked(x);
    PoppedSpare(x, m);
    SegmentSpare(x, m, now);
  }

  /** The source has spent its front's retries, but the destination has that segment. */
  ghost predicate Locked(j: Journey, dir: bool) {
    && Going(j) && Spare(Src(dir, At(j)).conn.queue, 1) && Reached(Src(dir, At(j)).conn, Dst(dir, At(j)).conn)
    && Spare(Dst(dir, At(j)).conn.queue, 0)
  }

  lemma NewsFreesAt(j: Journey, dir: bool, m: Segment)
    requires Going(j) && Spare(Src(dir, At(j)).conn.queue, 1) && IsNews(m, Dst(dir, At(j)).conn.rcvNxt)
    requires Reached(Src(dir, At(j)).conn, Dst(dir, At(j)).conn)
    ensures Spare(HandleSegment(Src(dir, At(j)), m, 0, j.now).conn.queue, 0)
  {
    Facts(j, dir);
    NewsFreesEndpoint(Src(dir, At(j)), Dst(dir, At(j)).conn, m, j.now);
  }

  lemma NewsFreesEndpoint(e: Endpoint, y: Conn, m: Segment, now: nat)
    requires Open(e) && Sound(e.conn, y) && Spare(e.conn.queue, 1) && Reached(e.conn, y) && IsNews(m, y.rcvNxt)
    ensures Spare(HandleSegment(e, m, 0, now).conn.queue, 0)
  {
    NewsFrees(e.conn, y, m, now);
  }

  // ---------------------------------------------------------------- the peer's retransmission

  /** The destination has something of its own to send again, and that carries the news. */
  lemma FreedByCopy(j: Journey, dir: bool) returns (j': Journey)
    requires Locked(j, dir) && Dst(dir, At(j)).conn.queue != [] && Dst(dir, At(j)).conn.queue[0].data != []
    ensures Goes(j, j') && SpareAt(j')
  {
    Facts(j, !dir);
    FrontIsData(Dst(dir, At(j)).conn);
    var j1, i := WaitAndResend(j, !dir);
    NewsFreesAt(j1, dir, Dst(dir, At(j1)).conn.h.sent[i]);
    j' := CopyRound(j1, !dir, i);
    ThenGoes(j, j1, j');
  }

  // ---------------------------------------------------------------- the peer's new data

  /** Goes on, though the applications may have had more accepted. */
  ghost predicate Lives(j: Journey, j': Journey)
    requires Valid(j)
  {
    && Going(j') && Extends(j, j')
    && At(j).a.conn.h.accepted <= At(j').a.conn.h.accepted && At(j).b.conn.h.accepted <= At(j').b.conn.h.accepted
    && At(j').a.conn.recvCap == At(j).a.conn.recvCap && At(j').b.conn.recvCap == At(j).b.conn.recvCap
  }

  lemma ThenLives(j: Journey, j1: Journey, j2: Journey)
    requires Valid(j) && Lives(j, j1) && Lives(j1, j2)
    ensures Lives(j, j2)
  {
  }

  lemma GoesLives(j: Journey, j': Journey)
    requires Valid(j) && Goes(j, j')
    ensures Lives(j, j')
  {
  }

  /** An open window and a backlog: the flush sends a segment that carries the news. */
  lemma FlushTells(c: Conn, now: nat)
    requires c.state == Established && c.pending != [] && Off(c.sndUna, c.sndNxt) < c.sndWnd
    ensures var c' := FlushSend(c, now);
      |c'.h.sent| > |c.h.sent| && c'.h.sent[|c.h.sent|].flags == PSH_ACK && IsNews(c'.h.sent[|c.h.sent|], c'.rcvNxt)
  {
    var c0 := ArmProbe(c, now);
    var ms := FlushLoopFills(c0, now);
    assert ms != [] && InWindow(c0, ms[0]);
    FlushAcks(c, now);
    FlushLoopFrame(c0, now);
    var c1 := Drain(c, now);
    assert c1.h.sent[|c.h.sent|] == ms[0];
    assert c1.h.sent <= FlushSend(c, now).h.sent;
  }

  /** Something to say: a byte, unless a backlog is waiting already. */
  function Word(c: Conn): seq<Byte> {
    if c.pending == [] then [0] else []
  }

  /** ESTABLISHED with nothing queued, and room for one more byte before the wrap. */
  predicate CanSpeak(c: Conn) {
    c.state == Established && c.queue == [] && c.sendCap > 0 && c.iss + |c.h.accepted| + 3 < MOD
  }

  lemma SpeakIs(c: Conn, now: nat)
    requires CanSpeak(c)
    ensures Send(c, Word(c), now) == FlushSend(Backlogged(c, Word(c)), now) && Backlogged(c, Word(c)).pending != []
  {
    assert Word(c)[..Accepts(c, Word(c))] == Word(c);
  }

  lemma SpeakOpen(e: Endpoint, now: nat)
    requires Open(e) && CanSpeak(e.conn)
    ensures var e' := Step(e, [], Sends(Word(e.conn)), now);
      && Open(e') && Spare(e'.conn.queue, 0)
      && e.conn.h.accepted <= e'.conn.h.accepted && e'.conn.recvCap == e.conn.recvCap
  {
    var c0 := Backlogged(e.conn, Word(e.conn));
    SpeakIs(e.conn, now);
    FlushMoves(c0, now);
    FlushSpare(c0, 0, now);
    assert e.conn.h.out + (e.conn.pending + Word(e.conn)) == e.conn.h.out + e.conn.pending + Word(e.conn);
  }

  /** Faced with a closed window, the word waits and the persist timer runs. */
  lemma SpeakWaits(e: Endpoint, now: nat)
    requires Open(e) && CanSpeak(e.conn) && e.conn.sndWnd == 0
    ensures var c' := Step(e, [], Sends(Word(e.conn)), now).conn;
      && c'.state == Established && c'.pending != [] && c'.sndWnd == 0 && c'.queue == [] && c'.probeDeadline.Some?
      && c'.rcvNxt == e.conn.rcvNxt
  {
    SpeakIs(e.conn, now);
  }

  lemma SpeakTells(e: Endpoint, now: nat)
    requires Open(e) && CanSpeak(e.conn) && e.conn.sndWnd > 0 && e.conn.sndUna == e.conn.sndNxt
    ensures var c, c' := e.conn, Step(e, [], Sends(Word(e.conn)), now).conn;
      && |c'.h.sent| > |c.h.sent| && IsNews(c'.h.sent[|c.h.sent|], c'.rcvNxt) && c'.rcvNxt == c.rcvNxt
  {
    SpeakIs(e.conn, now);
    FlushTells(Backlogged(e.conn, Word(e.conn)), now);
    FlushAcks(Backlogged(e.conn, Word(e.conn)), now);
  }

  lemma Speak(j: Journey, dir: bool) returns (j': Journey)
    requires Locked(j, dir) && CanSpeak(Dst(dir, At(j)).conn)
    ensures Lives(j, j') && j'.now == j.now && Src(dir, At(j')) == Src(dir, At(j))
    ensures Dst(dir, At(j')) == Step(Dst(dir, At(j)), [], Sends(Word(Dst(dir, At(j)).conn)), j.now)
    ensures Spare(Dst(dir, At(j')).conn.queue, 0)
  {
    var e := Dst(dir, At(j));
    SpeakOpen(e, j.now);
    j' := Take(j, !dir, Sends(Word(e.conn)), j.now);
  }

  /** News in flight reaches the locked side. */
  lemma FreedByNews(j: Journey, dir: bool, k: nat) returns (j': Journey)
    requires Locked(j, dir) && InFlight(j, !dir, k)
    requires IsNews(Dst(dir, At(j)).conn.h.sent[k], Dst(dir, At(j)).conn.rcvNxt)
    ensures Goes(j, j') && SpareAt(j')
  {
    NewsFreesAt(j, dir, Dst(dir, At(j)).conn.h.sent[k]);
    j' := DeliverTo(j, !dir, k);
  }

  /** The persist probe carries the news. */
  lemma FreedByProbe(j: Journey, dir: bool) returns (j': Journey)
    requires Locked(j, dir)
    requires var y := Dst(dir, At(j)).conn;
      y.state == Established && y.pending != [] && y.sndWnd == 0 && y.queue == [] && y.probeDeadline.Some?
    ensures Goes(j, j') && SpareAt(j')
  {
    var j1 := ProbedLocked(j, dir);
    j' := FreedByNews(j1, dir, |Dst(dir, At(j)).conn.h.sent|);
    ThenGoes(j, j1, j');
  }

  lemma ProbedLocked(j: Journey, dir: bool) returns (j': Journey)
    requires Locked(j, dir)
    requires var y := Dst(dir, At(j)).conn;
      y.state == Established && y.pending != [] && y.sndWnd == 0 && y.queue == [] && y.probeDeadline.Some?
    ensures Goes(j, j') && Locked(j', dir)
    ensures var y, y' := Dst(dir, At(j)).conn, Dst(dir, At(j')).conn;
      |y'.h.sent| > |y.h.sent| && IsNews(y'.h.sent[|y.h.sent|], y'.rcvNxt)
  {
    j' := Probed(j, !dir);
  }

  /** The destination has nothing to send again; its application says a word. */
  lemma FreedBySpeaking(j: Journey, dir: bool) returns (j': Journey)
    requires Locked(j, dir) && CanSpeak(Dst(dir, At(j)).conn)
    ensures Lives(j, j') && SpareAt(j')
  {
    var e := Dst(dir, At(j));
    Facts(j, !dir);
    var j1 := Speak(j, dir);
    var j2;
    if e.conn.sndWnd == 0 {
      SpeakWaits(e, j.now);
      j2 := FreedByProbe(j1, dir);
    } else {
      SpeakTells(e, j.now);
      j2 := FreedByNews(j1, dir, |e.conn.h.sent|);
    }
    GoesLives(j1, j2);
    ThenLives(j, j1, j2);
    j' := j2;
  }

  /** The destination's application sets a backlog cap that admits its word. */
  lemma MakeVoice(j: Journey, dir: bool) returns (j': Journey)
    requires Locked(j, dir)
    ensures Goes(j, j') && Locked(j', dir) && Src(dir, At(j')) == Src(dir, At(j))
    ensures var e := Dst(dir, At(j)); Dst(dir, At(j')) == e.(conn := e.conn.(sendCap := 1))
  {
    j' := Take(j, !dir, SetsCaps(Dst(dir, At(j)).conn.recvCap, 1), j.now);
  }

  // ---------------------------------------------------------------- unlocking

  /** ESTABLISHED, able to receive, and with room for one more byte before the wrap. */
  predicate Able(e: Endpoint) {
    Flowing(e) && e.conn.recvCap > 0 && e.conn.iss + |e.conn.h.accepted| + 3 < MOD
  }

  /** In ESTABLISHED only data is queued. */
  lemma OnlyDataQueued(x: Conn)
    requires TxOk(x) && Tight(x) && LabelOk(x) && x.state == Established && x.queue != []
    ensures x.queue[0].data != []
  {
    assert EntryOk(StreamOf(x), x.h.synced, x.queue[0]);
  }

  lemma Unlock(j: Journey, dir: bool) returns (j': Journey)
    requires Locked(j, dir) && Able(Dst(dir, At(j)))
    ensures Lives(j, j') && SpareAt(j')
  {
    if Dst(dir, At(j)).conn.queue != [] {
      Facts(j, !dir);
      OnlyDataQueued(Dst(dir, At(j)).conn);
      j' := FreedByCopy(j, dir);
      GoesLives(j, j');
    } else {
      var j1 := MakeVoice(j, dir);
      GoesLives(j, j1);
      j' := FreedBySpeaking(j1, dir);
      ThenLives(j, j1, j');
    }
  }

  /** Without retries, either the peer waits for the front or only its acknowledgement was lost. */
  lemma SpentMeans(x: Conn, y: Conn)
    requires Sound(x, y) && LabelOk(x) && y.h.synced && x.state == Established && QueueTimed(x.queue) && !MayRetry(x)
    ensures x.queue[0].data != [] && Spare(x.queue, 1)
    ensures Stranded(x, y) || Reached(x, y)
  {
    OnlyDataQueued(x);
    FrontIsNextOrOld(x, y);
    assert EntryTimed(x.queue[0]);
  }

  /** Neither side has spent the retries of a segment that the other still waits for. */
  predicate NoneStranded(s: System) {
    !Stranded(s.a.conn, s.b.conn) && !Stranded(s.b.conn, s.a.conn)
  }

  lemma DepartTimed(run: seq<System>, start: nat) returns (j: Journey)
    requires IsRun(run) && NoneWraps(Last(run)) && Able(Last(run).a) && Able(Last(run).b)
    ensures Going(j) && At(j) == Last(run) && j == Journey(run, true, start, [], start)
    ensures QueueTimed(At(j).a.conn.queue) && QueueTimed(At(j).b.conn.queue)
  {
    FlowingIsOpen(run);
    RunTimed(run);
    j := Depart(run, true, start);
  }

  lemma SpentIsLocked(j: Journey, dir: bool)
    requires Going(j) && Able(At(j).a) && Able(At(j).b)
    requires QueueTimed(At(j).a.conn.queue) && QueueTimed(At(j).b.conn.queue)
    requires !MayRetry(Src(dir, At(j)).conn) && MayRetry(Dst(dir, At(j)).conn)
    requires !Stranded(Src(dir, At(j)).conn, Dst(dir, At(j)).conn)
    ensures Locked(j, dir)
  {
    Facts(j, dir);
    SpentMeans(Src(dir, At(j)).conn, Dst(dir, At(j)).conn);
    FrontDecides(Dst(dir, At(j)).conn);
  }

  /** Both sides can be brought to have retries to spare. */
  lemma Ready(run: seq<System>, start: nat) returns (j: Journey)
    requires IsRun(run) && NoneWraps(Last(run)) && Able(Last(run).a) && Able(Last(run).b) && NoneStranded(Last(run))
    requires MayRetry(Last(run).a.conn) || MayRetry(Last(run).b.conn)
    ensures Lives(Journey(run, true, start, [], start), j) && SpareAt(j)
    ensures MayRetry(Last(run).a.conn) && MayRetry(Last(run).b.conn) ==> At(j) == Last(run)
  {
    var j0 := DepartTimed(run, start);
    if MayRetry(Last(run).a.conn) && MayRetry(Last(run).b.conn) {
      FrontDecides(Last(run).a.conn);
      FrontDecides(Last(run).b.conn);
      j := j0;
    } else {
      var dir := !MayRetry(Last(run).a.conn);
      SpentIsLocked(j0, dir);
      j := Unlock(j0, dir);
    }
  }

  // ---------------------------------------------------------------- everything can arrive

  /**
   Let everything that was ever sent be lost from now on, whatever the clock shows.  While both sides are
   ESTABLISHED, neither waits for a segment whose retries are spent, and one at least may retry, the run can go
   on with new segments alone, and a clock that only moves forward, so that each application can read every byte
   the other one's `send` has accepted.  A side whose front is spent but received may need the other application
   to send a byte; otherwise nothing more is sent than was accepted.
   */
  lemma EverythingCanArrive(run: seq<System>, start: nat) returns (ms: seq<Move>)
    requires IsRun(run) && NoneWraps(Last(run)) && Able(Last(run).a) && Able(Last(run).b) && NoneStranded(Last(run))
    requires MayRetry(Last(run).a.conn) || MayRetry(Last(run).b.conn)
    ensures Fresh(ms, Last(run)) && Clocked(ms, start)
    ensures var s, s' := Last(run), Play(Last(run), ms);
      && AllDelivered(s') && NoneWraps(s')
      && s.a.conn.h.accepted <= s'.a.conn.h.accepted && s.b.conn.h.accepted <= s'.b.conn.h.accepted
      && (MayRetry(s.a.conn) && MayRetry(s.b.conn) ==>
            s'.a.conn.h.accepted == s.a.conn.h.accepted && s'.b.conn.h.accepted == s.b.conn.h.accepted)
  {
    var j := Ready(run, start);
    var j1 := DeliverBoth(j);
    Facts(j1, true);
    ms := j1.ms;
  }

  /** A script that delivers everything accepted by now, on an empty link and a forward clock. */
  ghost predicate Completes(s: System, start: nat, ms: seq<Move>) {
    && Fresh(ms, s) && Clocked(ms, start) && NoneWraps(Play(s, ms))
    && s.a.conn.h.accepted <= Delivered(Play(s, ms).b.conn)
    && s.b.conn.h.accepted <= Delivered(Play(s, ms).a.conn)
  }

  lemma StrandedIsUndelivered(run: seq<System>, dir: bool)
    requires IsRun(run) && NoneWraps(Last(run)) && Able(Last(run).a) && Able(Last(run).b)
    requires Stranded(Src(dir, Last(run)).conn, Dst(dir, Last(run)).conn)
    ensures |Delivered(Dst(dir, Last(run)).conn)| < |Src(dir, Last(run)).conn.h.accepted|
  {
    var x, y := Src(dir, Last(run)).conn, Dst(dir, Last(run)).conn;
    FlowingIsOpen(run);
    RunFacts(run, dir);
    AwaitedIsMissing(x, y);
  }

  lemma AwaitedIsMissing(x: Conn, y: Conn)
    requires Sound(x, y) && TakesData(y.state) && x.queue != [] && x.queue[0].data != []
    requires x.queue[0].seqNum == y.rcvNxt
    ensures |Delivered(y)| < |x.h.accepted|
  {
    assert EntryOk(StreamOf(x), x.h.synced, x.queue[0]);
    assert x.h.out <= x.h.accepted;
  }

  lemma StrandedNeverCompletes(run: seq<System>, dir: bool, start: nat, ms: seq<Move>)
    requires IsRun(run) && NoneWraps(Last(run)) && Able(Last(run).a) && Able(Last(run).b)
    requires Stranded(Src(dir, Last(run)).conn, Dst(dir, Last(run)).conn)
    ensures !Completes(Last(run), start, ms)
  {
    StrandedIsUndelivered(run, dir);
    if Completes(Last(run), start, ms) {
      ExhaustedNeverArrives(run, dir, ms);
    }
  }

  /**
   As long as one side may retry: everything accepted by now can still arrive over a link that has lost all it
   carried if and only if no side has spent the retries of a segment that the other still waits for.
   */
  lemma CanArriveIff(run: seq<System>, start: nat)
    requires IsRun(run) && NoneWraps(Last(run)) && Able(Last(run).a) && Able(Last(run).b)
    requires MayRetry(Last(run).a.conn) || MayRetry(Last(run).b.conn)
    ensures (exists ms :: Completes(Last(run), start, ms)) <==> NoneStranded(Last(run))
  {
    if NoneStranded(Last(run)) {
      var ms := EverythingCanArrive(run, start);
      assert Completes(Last(run), start, ms);
    } else {
      var dir := Stranded(Last(run).a.conn, Last(run).b.conn);
      forall ms
        ensures !Completes(Last(run), start, ms)
      {
        StrandedNeverCompletes(run, dir, start, ms);
      }
    }
  }
}
