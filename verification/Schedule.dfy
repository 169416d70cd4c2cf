/**
 When the timers fire.  A life here records what the clock showed at each beat,
 so that it can be said to the millisecond when a segment is sent again and when
 a persist probe goes out, whatever the peer sends and the application does.
 */
module Schedule {
  import opened SeqSpace
  import opened Connection
  import opened Sender
  import opened Receiver
  import opened Steps
  import opened TwoEndpoints
  import opened Timers
  import opened Recovery
  import opened Safety
  import opened Answers

  // ---------------------------------------------------------------- lives with a clock

  datatype Beat = Hears(m: Segment, now: nat) | Does(ev: Event, now: nat)

  ghost function Beaten(c: Conn, b: Beat): Conn {
    match b
    case Hears(m, now) => ProcessSegment(c, m, now)
    case Does(ev, now) => Act(c, ev, now)
  }

  ghost function LiveOn(c: Conn, bs: seq<Beat>): Conn
    decreases |bs|
  {
    if bs == [] then c else Beaten(LiveOn(c, bs[..|bs| - 1]), bs[|bs| - 1])
  }

  /** An active or a passive open at `now`. */
  ghost predicate BornAt(c: Conn, now: nat) {
    || (exists iss: U32 :: c == Connect(iss, now))
    || (exists m: Segment, iss: U32 :: c == PassiveOpen(m, iss, now))
  }

  // ---------------------------------------------------------------- the persist timer, watched from outside

  /** Armed at `since`; `probes` probes have gone out since, the last thing of the two at `last`. */
  datatype Watch = Unarmed | Armed(since: nat, probes: nat, last: nat)

  /** Among what was sent from `c` to `c'` is a persist probe. */
  ghost predicate ProbedIn(c: Conn, c': Conn) {
    exists i :: |c.h.sent| <= i < |c'.h.sent| && IsProbe(c'.h.sent[i])
  }

  ghost function WatchNext(w: Watch, c: Conn, c': Conn, now: nat): Watch {
    if c'.probeDeadline.None? then Unarmed
    else if w.Unarmed? then Armed(now, 0, now)
    else if ProbedIn(c, c') then Armed(w.since, w.probes + 1, now)
    else w
  }

  ghost function WatchOf(c: Conn, bs: seq<Beat>): Watch
    decreases |bs|
  {
    if bs == [] then Unarmed else
      var n := |bs| - 1;
      WatchNext(WatchOf(c, bs[..n]), LiveOn(c, bs[..n]), LiveOn(c, bs), bs[n].now)
  }

  /** Queued data carries PSH, so that no retransmission looks like a probe. */
  predicate Plain(q: seq<Unacked>) {
    forall i :: 0 <= i < |q| ==> q[i].data != [] ==> q[i].flags.psh
  }

  /** The deadline is where the schedule puts it. */
  ghost predicate Watched(c: Conn, w: Watch) {
    && TimersOk(c) && Plain(c.queue)
    && (c.state != Closed ==>
          match w
          case Unarmed => c.probeDeadline.None? && c.probeRto == 500
          case Armed(since, probes, last) =>
            && c.probeDeadline == Some(last + RtoAfter(probes)) && c.probeRto == RtoAfter(probes)
            && (probes == 0 ==> last == since))
  }

  // ---------------------------------------------------------------- what each operation does to the timer

  predicate SameTimer(c: Conn, c': Conn) {
    c'.probeDeadline == c.probeDeadline && c'.probeRto == c.probeRto
  }

  /** A flush arms an idle timer half a second ahead, and touches it in no other way. */
  lemma FlushTimer(c: Conn, now: nat)
    ensures var c' := FlushSend(c, now);
      && c'.probeRto == c.probeRto
      && c'.probeDeadline == if CanSend(c.state) && c.sndWnd == 0 && c.pending != [] && c.probeDeadline.None?
                             then Some(now + 500) else c.probeDeadline
  {
    FlushLoopFrame(ArmProbe(c, now), now);
  }

  /** An open window stops the timer and resets its interval. */
  lemma AckTimer(c: Conn, m: Segment)
    ensures var c' := ProcessAck(c, m);
      if m.flags.ack && m.window != 0 then c'.probeDeadline == None && c'.probeRto == 500 else SameTimer(c, c')
    ensures ProcessAck(c, m).sndWnd == if m.flags.ack then m.window else c.sndWnd
  {
    RemoveAckedFrame(c.(sndUna := m.ackNum), m.ackNum);
  }

  lemma {:induction false} FlushLoopPlain(c: Conn, now: nat)
    requires Plain(c.queue)
    ensures Plain(FlushLoop(c, now).queue)
    decreases |c.pending|
  {
    if c.pending != [] && Off(c.sndUna, c.sndNxt) < c.sndWnd {
      FlushLoopPlain(SendChunk(c, now), now);
    }
  }

  lemma FlushPlain(c: Conn, now: nat)
    requires Plain(c.queue)
    ensures Plain(FlushSend(c, now).queue)
  {
    if CanSend(c.state) {
      ArmIs(c, now);
      FlushLoopPlain(ArmProbe(c, now), now);
    }
  }

  lemma {:induction false} RemoveAckedPlain(c: Conn, una: U32)
    requires Plain(c.queue)
    ensures Plain(RemoveAcked(c, una).queue)
    decreases |c.queue|
  {
    if c.queue != [] && End(c.queue[0]) <= una {
      RemoveAckedPlain(PopFront(c), una);
    }
  }

  lemma ProcessAckPlain(c: Conn, m: Segment)
    requires Plain(c.queue)
    ensures Plain(ProcessAck(c, m).queue) && Plain(AckThenReceive(c, m).queue)
  {
    RemoveAckedPlain(c.(sndUna := m.ackNum), m.ackNum);
    AbsorbFrame(ProcessAck(c, m), m);
  }

  // ---------------------------------------------------------------- segments

  /** What hearing a segment does to the timer: nothing, a stop, or arming it. */
  ghost predicate TimerHears(c: Conn, c': Conn, now: nat) {
    || SameTimer(c, c')
    || (c'.probeDeadline == None && c'.probeRto == 500)
    || (c'.probeDeadline == Some(now + 500) && (c.probeDeadline.None? && c'.probeRto == c.probeRto))
  }

  lemma FlushedHears(c: Conn, c2: Conn, m: Segment, now: nat)
    requires SameTimer(ProcessAck(c, m), c2) && c2.sndWnd == ProcessAck(c, m).sndWnd
    ensures TimerHears(c, FlushSend(c2, now), now)
  {
    AckTimer(c, m);
    FlushTimer(c2, now);
  }

  lemma SendingHears(c: Conn, m: Segment, now: nat)
    requires Plain(c.queue)
    ensures TimerHears(c, OnEstablished(c, m, now), now) && Plain(OnEstablished(c, m, now).queue)
    ensures TimerHears(c, FlushSend(ProcessAck(c, m), now), now) && Plain(FlushSend(ProcessAck(c, m), now).queue)
  {
    AbsorbFrame(ProcessAck(c, m), m);
    EstablishedIs(c, m, now);
    ProcessAckPlain(c, m);
    FlushedHears(c, Taken(c, m), m, now);
    FlushPlain(Taken(c, m), now);
    FlushedHears(c, ProcessAck(c, m), m, now);
    FlushPlain(ProcessAck(c, m), now);
  }

  lemma HandshakeHears(c: Conn, m: Segment, now: nat)
    requires Plain(c.queue)
    ensures TimerHears(c, OnSynSent(c, m), now) && Plain(OnSynSent(c, m).queue)
    ensures TimerHears(c, OnSynRcvd(c, m), now) && Plain(OnSynRcvd(c, m).queue)
  {
    OpenedFrame(c, m);
    RemoveAckedPlain(LearnPeer(c, m), m.ackNum);
    AcceptedFrame(c, m);
    RemoveAckedPlain(c.(sndUna := m.ackNum), m.ackNum);
    AbsorbFrame(Accepted(c, m), m);
  }

  lemma ClosingHears(c: Conn, m: Segment, now: nat)
    requires Plain(c.queue)
    ensures TimerHears(c, OnFinWait1(c, m, now), now) && Plain(OnFinWait1(c, m, now).queue)
    ensures TimerHears(c, OnFinWait2(c, m, now), now) && Plain(OnFinWait2(c, m, now).queue)
    ensures TimerHears(c, OnClosing(c, m, now), now) && Plain(OnClosing(c, m, now).queue)
    ensures TimerHears(c, OnLastAck(c, m), now) && Plain(OnLastAck(c, m).queue)
  {
    AckTimer(c, m);
    ProcessAckPlain(c, m);
    AbsorbFrame(ProcessAck(c, m), m);
    FinWaitIs(c, m, now);
    ClosingIs(c, m, now);
  }

  lemma SegmentHears(c: Conn, m: Segment, now: nat)
    requires Plain(c.queue)
    ensures TimerHears(c, ProcessSegment(c, m, now), now) && Plain(ProcessSegment(c, m, now).queue)
  {
    if !m.flags.rst {
      match c.state {
        case SynSent => HandshakeHears(c, m, now);
        case SynRcvd => HandshakeHears(c, m, now);
        case Established => SendingHears(c, m, now);
        case CloseWait => SendingHears(c, m, now);
        case TimeWait =>
        case Closed =>
        case Listen =>
        case _ => ClosingHears(c, m, now);
      }
    }
  }

  /** No segment makes a connection send a probe. */
  lemma HearingSendsNoProbe(c: Conn, m: Segment, now: nat)
    ensures !ProbedIn(c, ProcessSegment(c, m, now))
  {
    var rest := AnsweredIff(c, m, now);
    var c' := ProcessSegment(c, m, now);
    forall i | |c.h.sent| <= i < |c'.h.sent|
      ensures !IsProbe(c'.h.sent[i])
    {
      var k := |c.h.sent| + if CallsForAnswer(c, m) then 1 else 0;
      if i >= k {
        assert c'.h.sent[i] == rest[i - k] && rest[i - k] in rest;
      }
    }
  }

  lemma FlushSendsNoProbe(c: Conn, now: nat)
    ensures !ProbedIn(c, FlushSend(c, now))
  {
    var rest := FlushReplies(c, now);
    var c' := FlushSend(c, now);
    forall i | |c.h.sent| <= i < |c'.h.sent|
      ensures !IsProbe(c'.h.sent[i])
    {
      assert c'.h.sent[i] == rest[i - |c.h.sent|] && rest[i - |c.h.sent|] in rest;
    }
  }

  lemma HearsWatched(c: Conn, w: Watch, m: Segment, now: nat)
    requires Watched(c, w)
    ensures var c' := ProcessSegment(c, m, now); Watched(c', WatchNext(w, c, c', now))
  {
    SegmentTimers(c, m, now);
    SegmentHears(c, m, now);
    HearingSendsNoProbe(c, m, now);
  }

  // ---------------------------------------------------------------- ticks and calls

  /** The probe goes out exactly when the timer is due, and nothing after it looks like one. */
  lemma TickProbes(c: Conn, now: nat)
    requires Plain(c.queue) && c.state != TimeWait
    ensures ProbedIn(c, Tick(c, now)) <==> ProbeDue(c, now)
    ensures Plain(Tick(c, now).queue)
    ensures ProbeDue(c, now) ==>
      |Tick(c, now).h.sent| > |c.h.sent| && Tick(c, now).h.sent[|c.h.sent|] == ProbeSegment(c)
  {
    var c1 := Probe(c, now);
    ProbeIs(c, now);
    if !GivesUp(c1, now) {
      RestSendsNoProbe(c1, now);
      FlushPlain(Retransmit(c1, now), now);
      var c' := Tick(c, now);
      assert c1.h.sent <= c'.h.sent;
      if ProbeDue(c, now) {
        assert IsProbe(c'.h.sent[|c.h.sent|]);
      } else {
        assert c1.h.sent == c.h.sent;
      }
    } else if ProbeDue(c, now) {
      assert IsProbe(c1.h.sent[|c.h.sent|]);
    }
  }

  lemma RestSendsNoProbe(c: Conn, now: nat)
    requires Plain(c.queue)
    ensures !ProbedIn(c, FlushSend(Retransmit(c, now), now)) && c.h.sent <= FlushSend(Retransmit(c, now), now).h.sent
    ensures Plain(Retransmit(c, now).queue)
  {
    var c1 := Retransmit(c, now);
    RetransmitIs(c, now);
    FlushSendsNoProbe(c1, now);
    FlushLogs(c1, now);
    var c' := FlushSend(c1, now);
    forall i | |c.h.sent| <= i < |c'.h.sent|
      ensures !IsProbe(c'.h.sent[i])
    {
      if i < |c1.h.sent| {
        assert c'.h.sent[i] == c1.h.sent[i] && c1.h.sent[i] == Resent(c);
      }
    }
  }

  /** What a tick does to the timer. */
  lemma TickTimer(c: Conn, now: nat)
    requires CanSend(c.state) && !GivesUp(Probe(c, now), now)
    ensures var c' := Tick(c, now);
      if ProbeDue(c, now) then
        var rto := Min(c.probeRto * 2, 8000); c'.probeRto == rto && c'.probeDeadline == Some(now + rto)
      else
        && c'.probeRto == c.probeRto
        && c'.probeDeadline == if c.sndWnd == 0 && c.pending != [] && c.probeDeadline.None?
                               then Some(now + 500) else c.probeDeadline
  {
    var c1 := Probe(c, now);
    TimersFrame(c, now);
    TimersFrame(c1, now);
    RetransmitIs(c1, now);
    FlushTimer(Retransmit(c1, now), now);
  }

  lemma TickWatched(c: Conn, w: Watch, now: nat)
    requires Watched(c, w)
    ensures var c' := Tick(c, now); Watched(c', WatchNext(w, c, c', now))
  {
    TickTimers(c, now);
    if c.state != TimeWait {
      TickProbes(c, now);
      if CanSend(c.state) && !GivesUp(Probe(c, now), now) {
        TickTimer(c, now);
        SendingWatched(c, Tick(c, now), w, now);
      } else {
        TickElsewhere(c, now);
      }
    }
  }

  lemma SendingWatched(c: Conn, c': Conn, w: Watch, now: nat)
    requires Watched(c, w) && TimersOk(c') && Plain(c'.queue) && CanSend(c.state)
    requires ProbedIn(c, c') <==> ProbeDue(c, now)
    requires if ProbeDue(c, now) then
        var rto := Min(c.probeRto * 2, 8000); c'.probeRto == rto && c'.probeDeadline == Some(now + rto)
      else
        && c'.probeRto == c.probeRto
        && (c'.probeDeadline == c.probeDeadline || (c.probeDeadline.None? && c'.probeDeadline == Some(now + 500)))
    ensures Watched(c', WatchNext(w, c, c', now))
  {
  }

  lemma TickElsewhere(c: Conn, now: nat)
    requires !CanSend(c.state) || GivesUp(Probe(c, now), now)
    ensures var c' := Tick(c, now);
      c'.state == Closed || (c.state != TimeWait ==> c'.probeDeadline.None? && c'.probeRto == c.probeRto)
  {
    TimersFrame(c, now);
    TimersFrame(Probe(c, now), now);
    RetransmitIs(Probe(c, now), now);
  }

  lemma FlushWatched(c: Conn, w: Watch, now: nat)
    requires Watched(c, w)
    ensures var c' := FlushSend(c, now); Watched(c', WatchNext(w, c, c', now))
  {
    FlushTimers(c, now);
    FlushTimer(c, now);
    FlushPlain(c, now);
    FlushSendsNoProbe(c, now);
  }

  lemma QuietWatched(c: Conn, c': Conn, w: Watch, now: nat)
    requires Watched(c, w) && SameTimer(c, c') && c'.queue == c.queue && TimersOk(c') && c'.h.sent == c.h.sent
    requires c'.state == Closed || c'.state == c.state
    ensures Watched(c', WatchNext(w, c, c', now))
  {
  }

  lemma ActWatched(c: Conn, w: Watch, ev: Event, now: nat)
    requires Watched(c, w)
    ensures var c' := Act(c, ev, now); Watched(c', WatchNext(w, c, c', now))
  {
    ActTimers(c, ev, now);
    match ev {
      case Ticks => TickWatched(c, w, now);
      case Sends(data) => FlushWatched(Backlogged(c, data[..Accepts(c, data)]), w, now);
      case Closes =>
        if CanSend(c.state) {
          FlushWatched(c.(pendingClose := true), w, now);
        } else {
          QuietWatched(c, Close(c, now), w, now);
        }
      case Recvs(room) =>
        RecvIs(c, room);
        QuietWatched(c, Recv(c, room), w, now);
      case _ => QuietWatched(c, Act(c, ev, now), w, now);
    }
  }

  // ---------------------------------------------------------------- the persist schedule

  lemma BornWatched(c: Conn, now: nat)
    requires BornAt(c, now)
    ensures Watched(c, Unarmed) && IsBorn(c)
  {
    BornTimers(c);
  }

  /** At every moment of every life the deadline is where the schedule puts it. */
  lemma {:induction false} LifeWatched(c: Conn, start: nat, bs: seq<Beat>)
    requires BornAt(c, start)
    ensures Watched(LiveOn(c, bs), WatchOf(c, bs))
    decreases |bs|
  {
    if bs == [] {
      BornWatched(c, start);
    } else {
      var n := |bs| - 1;
      LifeWatched(c, start, bs[..n]);
      var c1 := LiveOn(c, bs[..n]);
      match bs[n] {
        case Hears(m, now) => HearsWatched(c1, WatchOf(c, bs[..n]), m, now);
        case Does(ev, now) => ActWatched(c1, WatchOf(c, bs[..n]), ev, now);
      }
    }
  }

  /**
   At every moment of every life, a tick sends a persist probe if and only if the timer is armed and, after `k`
   probes, min(500 * 2^k, 8000) ms have passed since the last of them or, before the first, since it was armed.
   The probe is then the first thing sent.
   */
  lemma ProbeSentIff(c: Conn, start: nat, bs: seq<Beat>, now: nat)
    requires BornAt(c, start) && LiveOn(c, bs).state != Closed
    ensures var x, w := LiveOn(c, bs), WatchOf(c, bs);
      && (ProbedIn(x, Tick(x, now)) <==> w.Armed? && now >= w.last + Min(500 * Pow2(w.probes), 8000))
      && (w.Armed? && w.probes == 0 ==> w.last == w.since)
      && (ProbedIn(x, Tick(x, now)) ==> |Tick(x, now).h.sent| > |x.h.sent| && IsProbe(Tick(x, now).h.sent[|x.h.sent|]))
  {
    LifeWatched(c, start, bs);
    var x, w := LiveOn(c, bs), WatchOf(c, bs);
    if w.Armed? {
      RtoClosedForm(w.probes);
    }
    if x.state != TimeWait {
      TickProbes(x, now);
    }
  }

  lemma LiveMore(c: Conn, bs: seq<Beat>, b: Beat)
    ensures LiveOn(c, bs + [b]) == Beaten(LiveOn(c, bs), b)
    ensures WatchOf(c, bs + [b]) == WatchNext(WatchOf(c, bs), LiveOn(c, bs), LiveOn(c, bs + [b]), b.now)
  {
    assert (bs + [b])[..|bs|] == bs;
  }

  lemma OpenWindowStops(c: Conn, m: Segment, now: nat)
    requires CanSend(c.state) && m.flags.ack && m.window != 0 && !m.flags.rst
    ensures ProcessSegment(c, m, now).probeDeadline == None
  {
    AckTimer(c, m);
    AbsorbFrame(ProcessAck(c, m), m);
    EstablishedIs(c, m, now);
    FlushTimer(Taken(c, m), now);
    FlushTimer(ProcessAck(c, m), now);
  }

  /** An acknowledgement with an open window stops the timer; when it is armed again, the schedule starts again. */
  lemma OpenWindowRestarts(c: Conn, start: nat, bs: seq<Beat>, m: Segment, now: nat, b: Beat)
    requires BornAt(c, start) && CanSend(LiveOn(c, bs).state) && m.flags.ack && m.window != 0 && !m.flags.rst
    ensures var bs1 := bs + [Hears(m, now)];
      && WatchOf(c, bs1) == Unarmed
      && (WatchOf(c, bs1 + [b]) == Unarmed || WatchOf(c, bs1 + [b]) == Armed(b.now, 0, b.now))
  {
    LiveMore(c, bs, Hears(m, now));
    OpenWindowStops(LiveOn(c, bs), m, now);
    LiveMore(c, bs + [Hears(m, now)], b);
  }

  /** After every tick of a sending connection the timer is armed if and only if a backlog faces a closed window. */
  lemma ArmedIff(c: Conn, start: nat, bs: seq<Beat>, now: nat)
    requires BornAt(c, start) && CanSend(LiveOn(c, bs + [Does(Ticks, now)]).state)
    ensures var x := LiveOn(c, bs + [Does(Ticks, now)]);
      WatchOf(c, bs + [Does(Ticks, now)]).Armed? <==> x.sndWnd == 0 && x.pending != []
  {
    LifeWatched(c, start, bs);
    LiveMore(c, bs, Does(Ticks, now));
    TickTimers(LiveOn(c, bs), now);
  }

  // ---------------------------------------------------------------- the retransmission schedule

  /**
   The front segment has been sent again if and only if it had been sent at most six times and, sent `k + 1`
   times, min(500 * 2^k, 8000) ms ago for the last time.  Otherwise its record stays.
   */
  ghost predicate ResendsIfDue(x: Conn, x': Conn, now: nat)
    requires x.queue != []
  {
    var u := x.queue[0];
    && |u.sends| >= 1
    && var due := |u.sends| <= 6 && now >= u.sends[|u.sends| - 1] + Min(500 * Pow2(|u.sends| - 1), 8000);
       && (due ==> x'.queue != [] && x'.queue[0].sends == u.sends + [now] && IsCopy(x, x', FirstAfterProbe(x, now)))
       && (!due && x'.state != Closed ==> x'.queue != [] && x'.queue[0] == u)
  }

  /** Where in the log the copy goes. */
  ghost function FirstAfterProbe(x: Conn, now: nat): nat {
    |x.h.sent| + if ProbeDue(x, now) then 1 else 0
  }

  lemma TickResends(x: Conn, now: nat)
    requires x.queue != [] && x.state != TimeWait
    ensures var x', u := Tick(x, now), x.queue[0];
      && (Expired(u, now) && u.retryCount < 6 ==>
            x'.queue != [] && x'.queue[0].sends == u.sends + [now] && IsCopy(x, x', FirstAfterProbe(x, now)))
      && (!(Expired(u, now) && u.retryCount < 6) && x'.state != Closed ==> x'.queue != [] && x'.queue[0] == u)
  {
    var x1 := Probe(x, now);
    ProbeIs(x, now);
    TimersFrame(x, now);
    if !GivesUp(x1, now) {
      RetransmitIs(x1, now);
      FlushFront(Retransmit(x1, now), now);
      FlushLogs(Retransmit(x1, now), now);
    }
  }

  lemma TickResendsIfDue(x: Conn, now: nat)
    requires x.queue != [] && x.state != TimeWait && EntryTimed(x.queue[0])
    ensures ResendsIfDue(x, Tick(x, now), now)
  {
    RtoClosedForm(x.queue[0].retryCount);
    TickResends(x, now);
  }

  /** At every moment of every life, a tick sends the front segment again if and only if it is due. */
  lemma ResentIff(c: Conn, start: nat, bs: seq<Beat>, now: nat)
    requires BornAt(c, start) && LiveOn(c, bs).state != Closed && LiveOn(c, bs).state != TimeWait
    requires LiveOn(c, bs).queue != []
    ensures ResendsIfDue(LiveOn(c, bs), Tick(LiveOn(c, bs), now), now)
  {
    LifeWatched(c, start, bs);
    assert EntryTimed(LiveOn(c, bs).queue[0]);
    TickResendsIfDue(LiveOn(c, bs), now);
  }

  // ---------------------------------------------------------------- the recorded times are true

  /** What the clock showed when each segment of the log was sent. */
  ghost function LogTimes(c: Conn, start: nat, bs: seq<Beat>): (ts: seq<nat>)
    decreases |bs|
  {
    if bs == [] then seq(|c.h.sent|, _ => start) else
      var n := |bs| - 1;
      var before := LogTimes(c, start, bs[..n]);
      var grown := |LiveOn(c, bs).h.sent| - |LiveOn(c, bs[..n]).h.sent|;
      before + seq(if grown < 0 then 0 else grown, _ => bs[n].now)
  }

  /** A segment of the log that is a copy of a queued one. */
  predicate CopyOf(m: Segment, u: Unacked) {
    m.seqNum == u.seqNum && m.flags == u.flags && m.data == u.data
  }

  /** Every recorded send of an entry is in the log, at its time. */
  ghost predicate Recorded(u: Unacked, sent: seq<Segment>, ts: seq<nat>) {
    |ts| == |sent| && forall t :: t in u.sends ==> exists j :: 0 <= j < |sent| && ts[j] == t && CopyOf(sent[j], u)
  }

  /** A copy of `u` is among what was sent from log `s` to log `s'`. */
  ghost predicate CopyIn(s: seq<Segment>, s': seq<Segment>, u: Unacked) {
    exists j :: |s| <= j < |s'| && CopyOf(s'[j], u)
  }

  /** The entry was there, or has been sent just now, for the first time or once more. */
  ghost predicate Sent(c: Conn, c': Conn, now: nat, u: Unacked) {
    || u in c.queue
    || (u.sends == [now] && CopyIn(c.h.sent, c'.h.sent, u))
    || (CopyIn(c.h.sent, c'.h.sent, u) && exists v :: v in c.queue && u == v.(sentAt := u.sentAt, rto := u.rto,
          retryCount := u.retryCount, sends := v.sends + [now]))
  }

  ghost predicate QueueSent(c: Conn, c': Conn, now: nat) {
    c.h.sent <= c'.h.sent && forall u :: u in c'.queue ==> Sent(c, c', now, u)
  }

  /** Only first sends. */
  ghost predicate QueueGrown(c: Conn, c': Conn, now: nat) {
    && c.h.sent <= c'.h.sent
    && forall u :: u in c'.queue ==> u in c.queue || (u.sends == [now] && CopyIn(c.h.sent, c'.h.sent, u))
  }

  lemma CopyStays(s: seq<Segment>, s1: seq<Segment>, s2: seq<Segment>, u: Unacked)
    requires s <= s1 <= s2 && (CopyIn(s, s1, u) || CopyIn(s1, s2, u))
    ensures CopyIn(s, s2, u)
  {
    if CopyIn(s, s1, u) {
      var j :| |s| <= j < |s1| && CopyOf(s1[j], u);
      assert s2[j] == s1[j];
    }
  }

  lemma ThenGrown(c: Conn, c1: Conn, c2: Conn, now: nat)
    requires QueueSent(c, c1, now) && QueueGrown(c1, c2, now)
    ensures QueueSent(c, c2, now)
  {
    forall u | u in c2.queue
      ensures Sent(c, c2, now, u)
    {
      if u in c1.queue {
        assert Sent(c, c1, now, u);
        if CopyIn(c.h.sent, c1.h.sent, u) {
          CopyStays(c.h.sent, c1.h.sent, c2.h.sent, u);
        }
      } else {
        CopyStays(c.h.sent, c1.h.sent, c2.h.sent, u);
      }
    }
  }

  lemma GrownThen(c: Conn, c1: Conn, c2: Conn, now: nat)
    requires QueueGrown(c, c1, now) && QueueGrown(c1, c2, now)
    ensures QueueGrown(c, c2, now)
  {
    forall u | u in c2.queue && u !in c.queue
      ensures u.sends == [now] && CopyIn(c.h.sent, c2.h.sent, u)
    {
      CopyStays(c.h.sent, c1.h.sent, c2.h.sent, u);
    }
  }

  lemma ChunkGrown(c: Conn, c': Conn, now: nat, m: Segment, u: Unacked)
    requires c'.queue == c.queue + [u] && c'.h.sent == c.h.sent + [m] && CopyOf(m, u) && u.sends == [now]
    ensures QueueGrown(c, c', now)
  {
    assert CopyOf(c'.h.sent[|c.h.sent|], u);
  }

  lemma {:induction false} FlushLoopGrown(c: Conn, now: nat)
    ensures QueueGrown(c, FlushLoop(c, now), now)
    decreases |c.pending|
  {
    if c.pending != [] && Off(c.sndUna, c.sndNxt) < c.sndWnd {
      var c1 := SendChunk(c, now);
      ChunkGrown(c, c1, now, c1.h.sent[|c.h.sent|], c1.queue[|c.queue|]);
      FlushLoopGrown(c1, now);
      GrownThen(c, c1, FlushLoop(c1, now), now);
    }
  }

  lemma FlushGrown(c: Conn, now: nat)
    ensures QueueGrown(c, FlushSend(c, now), now)
  {
    if CanSend(c.state) {
      var c0 := ArmProbe(c, now);
      ArmIs(c, now);
      FlushLoopGrown(c0, now);
      var c1 := Drain(c, now);
      if c1.pendingClose && c1.pending == [] {
        var c2 := SendFin(c1, now);
        ChunkGrown(c1, c2, now, c2.h.sent[|c1.h.sent|], c2.queue[|c1.queue|]);
        GrownThen(c, c1, c2, now);
      }
    }
  }

  lemma {:induction false} RemoveAckedGrown(c: Conn, una: U32, now: nat)
    ensures QueueGrown(c, RemoveAcked(c, una), now) && RemoveAcked(c, una).h.sent == c.h.sent
    decreases |c.queue|
  {
    if c.queue != [] && End(c.queue[0]) <= una {
      RemoveAckedGrown(PopFront(c), una, now);
      assert forall u :: u in c.queue[1..] ==> u in c.queue;
    }
  }

  lemma AckGrown(c: Conn, m: Segment, now: nat)
    ensures QueueGrown(c, ProcessAck(c, m), now) && QueueGrown(c, AckThenReceive(c, m), now)
  {
    RemoveAckedGrown(c.(sndUna := m.ackNum), m.ackNum, now);
    AbsorbFrame(ProcessAck(c, m), m);
  }

  lemma SendingGrown(c: Conn, m: Segment, now: nat)
    ensures QueueGrown(c, OnEstablished(c, m, now), now) && QueueGrown(c, FlushSend(ProcessAck(c, m), now), now)
  {
    AckGrown(c, m, now);
    EstablishedIs(c, m, now);
    FlushGrown(Taken(c, m), now);
    GrownThen(c, Taken(c, m), FlushSend(Taken(c, m), now), now);
    FlushGrown(ProcessAck(c, m), now);
    GrownThen(c, ProcessAck(c, m), FlushSend(ProcessAck(c, m), now), now);
  }

  /** Neither the queue nor what was sent has changed, but for entries removed and a longer log. */
  lemma ShrunkGrown(c: Conn, c1: Conn, c': Conn, now: nat)
    requires QueueGrown(c, c1, now) && c'.queue == c1.queue && c1.h.sent <= c'.h.sent
    ensures QueueGrown(c, c', now)
  {
    GrownThen(c, c1, c', now);
  }

  lemma SynSentGrown(c: Conn, m: Segment, now: nat)
    ensures QueueGrown(c, OnSynSent(c, m), now)
  {
    RemoveAckedGrown(LearnPeer(c, m), m.ackNum, now);
    if m.flags.syn && AcksAll(c, m) {
      ShrunkGrown(c, RemoveAcked(LearnPeer(c, m), m.ackNum), OnSynSent(c, m), now);
    }
  }

  lemma SynRcvdGrown(c: Conn, m: Segment, now: nat)
    ensures QueueGrown(c, OnSynRcvd(c, m), now)
  {
    var c1 := RemoveAcked(c.(sndUna := m.ackNum), m.ackNum);
    RemoveAckedGrown(c.(sndUna := m.ackNum), m.ackNum, now);
    AbsorbFrame(Accepted(c, m), m);
    if AcksAll(c, m) {
      ShrunkGrown(c, c1, OnSynRcvd(c, m), now);
    }
  }

  lemma FinWaitGrown(c: Conn, m: Segment, now: nat)
    ensures QueueGrown(c, OnFinWait1(c, m, now), now) && QueueGrown(c, OnFinWait2(c, m, now), now)
  {
    AckGrown(c, m, now);
    FinWaitIs(c, m, now);
    ShrunkGrown(c, AckThenReceive(c, m), OnFinWait1(c, m, now), now);
    ShrunkGrown(c, AckThenReceive(c, m), OnFinWait2(c, m, now), now);
  }

  lemma ClosingGrown(c: Conn, m: Segment, now: nat)
    ensures QueueGrown(c, OnClosing(c, m, now), now) && QueueGrown(c, OnLastAck(c, m), now)
  {
    AckGrown(c, m, now);
    ClosingIs(c, m, now);
    ShrunkGrown(c, ProcessAck(c, m), OnClosing(c, m, now), now);
    ShrunkGrown(c, ProcessAck(c, m), OnLastAck(c, m), now);
  }

  lemma SegmentGrown(c: Conn, m: Segment, now: nat)
    ensures QueueGrown(c, ProcessSegment(c, m, now), now)
  {
    if !m.flags.rst {
      match c.state {
        case SynSent => SynSentGrown(c, m, now);
        case SynRcvd => SynRcvdGrown(c, m, now);
        case Established => SendingGrown(c, m, now);
        case CloseWait => SendingGrown(c, m, now);
        case FinWait1 => FinWaitGrown(c, m, now);
        case FinWait2 => FinWaitGrown(c, m, now);
        case Closing => ClosingGrown(c, m, now);
        case LastAck => ClosingGrown(c, m, now);
        case _ =>
      }
    }
  }

  lemma RetransmitSent(c: Conn, now: nat)
    ensures QueueSent(c, Retransmit(c, now), now)
  {
    RetransmitIs(c, now);
    if c.queue != [] && Expired(c.queue[0], now) {
      var c', f := Retransmit(c, now), c.queue[0];
      assert CopyOf(c'.h.sent[|c.h.sent|], Restarted(c, now));
      assert f in c.queue && Restarted(c, now) == f.(sentAt := now, rto := Restarted(c, now).rto,
        retryCount := Restarted(c, now).retryCount, sends := f.sends + [now]);
      assert Sent(c, c', now, Restarted(c, now));
      forall u | u in c'.queue
        ensures Sent(c, c', now, u)
      {
        assert u in c.queue || u == Restarted(c, now);
      }
    }
  }

  lemma ProbeThenSent(c: Conn, c1: Conn, c2: Conn, now: nat)
    requires c1.queue == c.queue && c.h.sent <= c1.h.sent && QueueSent(c1, c2, now)
    ensures QueueSent(c, c2, now)
  {
    forall u | u in c2.queue
      ensures Sent(c, c2, now, u)
    {
      assert Sent(c1, c2, now, u);
      if CopyIn(c1.h.sent, c2.h.sent, u) {
        CopyStays(c.h.sent, c1.h.sent, c2.h.sent, u);
      }
    }
  }

  lemma TickSent(c: Conn, now: nat)
    ensures QueueSent(c, Tick(c, now), now)
  {
    if c.state != TimeWait {
      var c1 := Probe(c, now);
      ProbeIs(c, now);
      if !GivesUp(c1, now) {
        var c2 := Retransmit(c1, now);
        RetransmitSent(c1, now);
        ProbeThenSent(c, c1, c2, now);
        FlushGrown(c2, now);
        ThenGrown(c, c2, FlushSend(c2, now), now);
      }
    }
  }

  lemma BeatSent(c: Conn, b: Beat)
    ensures QueueSent(c, Beaten(c, b), b.now)
  {
    match b {
      case Hears(m, now) => SegmentGrown(c, m, now);
      case Does(ev, now) =>
        match ev {
          case Ticks => TickSent(c, now);
          case Sends(data) => FlushGrown(Backlogged(c, data[..Accepts(c, data)]), now);
          case Closes => FlushGrown(c.(pendingClose := true), now);
          case Recvs(room) => RecvIs(c, room);
          case _ =>
        }
    }
  }

  lemma OneRecorded(c: Conn, c': Conn, now: nat, u: Unacked, ts: seq<nat>, ts': seq<nat>)
    requires Sent(c, c', now, u) && c.h.sent <= c'.h.sent && |ts| == |c.h.sent| && ts <= ts' && |ts'| == |c'.h.sent|
    requires forall j :: |ts| <= j < |ts'| ==> ts'[j] == now
    requires forall v :: v in c.queue ==> Recorded(v, c.h.sent, ts)
    ensures Recorded(u, c'.h.sent, ts')
  {
    forall t | t in u.sends
      ensures exists j :: 0 <= j < |c'.h.sent| && ts'[j] == t && CopyOf(c'.h.sent[j], u)
    {
      if CopyIn(c.h.sent, c'.h.sent, u) && t == now {
        var j :| |c.h.sent| <= j < |c'.h.sent| && CopyOf(c'.h.sent[j], u);
      } else {
        var v :| v in c.queue && t in v.sends && CopyOf(Segment(u.seqNum, 0, u.flags, 0, u.data), v);
        assert Recorded(v, c.h.sent, ts);
        var j :| 0 <= j < |c.h.sent| && ts[j] == t && CopyOf(c.h.sent[j], v);
        assert ts'[j] == t && c'.h.sent[j] == c.h.sent[j];
      }
    }
  }

  /** The times on which the schedule rests are those at which copies were really put on the link. */
  lemma {:induction false} SendsAreTrue(c: Conn, start: nat, bs: seq<Beat>)
    requires BornAt(c, start)
    ensures var x, ts := LiveOn(c, bs), LogTimes(c, start, bs);
      |ts| == |x.h.sent| && forall u :: u in x.queue ==> Recorded(u, x.h.sent, ts)
    decreases |bs|
  {
    if bs == [] {
      assert CopyOf(c.h.sent[0], c.queue[0]);
    } else {
      var n := |bs| - 1;
      SendsAreTrue(c, start, bs[..n]);
      var x, x' := LiveOn(c, bs[..n]), LiveOn(c, bs);
      BeatSent(x, bs[n]);
      forall u | u in x'.queue
        ensures Recorded(u, x'.h.sent, LogTimes(c, start, bs))
      {
        OneRecorded(x, x', bs[n].now, u, LogTimes(c, start, bs[..n]), LogTimes(c, start, bs));
      }
    }
  }
}
