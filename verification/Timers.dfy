/**
 The retransmission and persist timers.  Everything here holds whatever segments
 arrive and whatever the clock shows, on a single endpoint.
 */
module Timers {
  import opened SeqSpace
  import opened Connection
  import opened Sender
  import opened Receiver
  import opened Steps
  import opened TwoEndpoints
  import opened Window

  /** Retransmission timeout after `k` retries: doubled each time, capped. */
  function RtoAfter(k: nat): nat {
    if k == 0 then INITIAL_RTO else Min(2 * RtoAfter(k - 1), MAX_RTO)
  }

  /** Time that must pass before the `k`-th retry: the sum of the first `k` timeouts. */
  function WaitBefore(k: nat): nat {
    if k == 0 then 0 else WaitBefore(k - 1) + RtoAfter(k - 1)
  }

  function Pow2(k: nat): nat {
    if k == 0 then 1 else 2 * Pow2(k - 1)
  }

  /** The schedule in closed form. */
  lemma {:induction false} RtoClosedForm(k: nat)
    ensures RtoAfter(k) == Min(INITIAL_RTO * Pow2(k), MAX_RTO)
  {
    if k > 0 {
      RtoClosedForm(k - 1);
    }
  }

  /** `sentAt` is when the entry was last sent, and no send came sooner after the one before than it may. */
  ghost predicate EntryTimed(u: Unacked) {
    && u.retryCount <= MAX_RETRIES
    && |u.sends| == u.retryCount + 1
    && u.sentAt == u.sends[u.retryCount]
    && u.rto == RtoAfter(u.retryCount)
    && forall k :: 0 < k < |u.sends| ==> u.sends[k] >= u.sends[k - 1] + RtoAfter(k - 1)
  }

  lemma {:induction false} SendsSpread(u: Unacked, k: nat)
    requires EntryTimed(u) && k < |u.sends|
    ensures u.sends[k] >= u.sends[0] + WaitBefore(k)
  {
    if k > 0 {
      SendsSpread(u, k - 1);
    }
  }

  /** Only the front of the queue is ever retried. */
  ghost predicate QueueTimed(q: seq<Unacked>) {
    && (forall i :: 0 <= i < |q| ==> EntryTimed(q[i]))
    && (forall i :: 0 < i < |q| ==> q[i].retryCount == 0)
  }

  /** The persist timer runs only while a backlog faces a closed window. */
  ghost predicate PersistOk(c: Conn) {
    && c.probeRto in {500, 1000, 2000, 4000, 8000}
    && (c.probeDeadline.Some? && c.state != Closed ==> CanSend(c.state) && c.sndWnd == 0 && c.pending != [])
  }

  ghost predicate TimersOk(c: Conn) {
    QueueTimed(c.queue) && PersistOk(c)
  }

  /** The timer exists exactly when a backlog faces a closed window. */
  ghost predicate PersistExact(c: Conn) {
    CanSend(c.state) ==> (c.probeDeadline.Some? <==> c.sndWnd == 0 && c.pending != [])
  }

  // ---------------------------------------------------------------- each operation

  lemma AppendTimed(q: seq<Unacked>, u: Unacked)
    requires QueueTimed(q) && EntryTimed(u) && u.retryCount == 0
    ensures QueueTimed(q + [u])
  {
  }

  lemma {:induction false} FlushLoopTimed(c: Conn, now: nat)
    requires QueueTimed(c.queue)
    ensures QueueTimed(FlushLoop(c, now).queue)
    decreases |c.pending|
  {
    if c.pending != [] && Off(c.sndUna, c.sndNxt) < c.sndWnd {
      AppendTimed(c.queue, SendChunk(c, now).queue[|c.queue|]);
      FlushLoopTimed(SendChunk(c, now), now);
    }
  }

  lemma FlushTimed(c: Conn, now: nat)
    requires QueueTimed(c.queue)
    ensures QueueTimed(FlushSend(c, now).queue)
  {
    if CanSend(c.state) {
      var c1 := Drain(c, now);
      FlushLoopTimed(ArmProbe(c, now), now);
      AppendTimed(c1.queue, Unacked(c1.sndNxt, FIN_ACK, [], now, INITIAL_RTO, 0, [now]));
    }
  }

  /** A backlog that faces a closed window stays where it is. */
  lemma DrainPersist(c: Conn, now: nat)
    requires PersistOk(c) && CanSend(c.state)
    ensures PersistOk(Drain(c, now)) && PersistExact(Drain(c, now))
    ensures Drain(c, now).pending == [] ==> Drain(c, now).probeDeadline.None?
  {
    FlushLoopFrame(ArmProbe(c, now), now);
    var ms := FlushLoopFills(ArmProbe(c, now), now);
    if ms != [] {
      assert InWindow(ArmProbe(c, now), ms[0]);
    }
  }

  /** After every flush the persist timer is exact. */
  lemma FlushPersist(c: Conn, now: nat)
    requires PersistOk(c)
    ensures PersistOk(FlushSend(c, now)) && PersistExact(FlushSend(c, now))
  {
    if CanSend(c.state) {
      DrainPersist(c, now);
      FlushLoopFrame(ArmProbe(c, now), now);
    }
  }

  lemma {:induction false} RemoveAckedTimed(c: Conn, una: U32)
    requires QueueTimed(c.queue)
    ensures QueueTimed(RemoveAcked(c, una).queue)
    decreases |c.queue|
  {
    if c.queue != [] && End(c.queue[0]) <= una {
      assert forall i :: 0 <= i < |c.queue[1..]| ==> c.queue[1..][i] == c.queue[i + 1];
      RemoveAckedTimed(PopFront(c), una);
    }
  }

  lemma ProcessAckTimers(c: Conn, m: Segment)
    requires TimersOk(c)
    ensures TimersOk(ProcessAck(c, m))
  {
    RemoveAckedTimed(c.(sndUna := m.ackNum), m.ackNum);
    RemoveAckedFrame(c.(sndUna := m.ackNum), m.ackNum);
  }

  lemma ReceiveTimers(c: Conn, m: Segment)
    requires TimersOk(c)
    ensures TimersOk(Receive(c, m))
  {
    AbsorbFrame(c, m);
  }

  lemma FlushTimers(c: Conn, now: nat)
    requires TimersOk(c)
    ensures TimersOk(FlushSend(c, now)) && PersistExact(FlushSend(c, now))
  {
    FlushTimed(c, now);
    FlushPersist(c, now);
  }

  // ---------------------------------------------------------------- one segment

  lemma HandshakeTimers(c: Conn, m: Segment)
    requires TimersOk(c)
    ensures c.state == SynSent ==> TimersOk(OnSynSent(c, m))
    ensures c.state == SynRcvd ==> TimersOk(OnSynRcvd(c, m))
  {
    RemoveAckedTimed(LearnPeer(c, m), m.ackNum);
    RemoveAckedFrame(LearnPeer(c, m), m.ackNum);
    var c1 := c.(sndUna := m.ackNum);
    RemoveAckedTimed(c1, m.ackNum);
    RemoveAckedFrame(c1, m.ackNum);
    if c.state == SynRcvd {
      var c2 := RemoveAcked(c1, m.ackNum).(sndWnd := m.window, state := Established);
      ReceiveTimers(c2, m);
      ReceiveFrame(c2, m);
    }
  }

  lemma AckThenReceiveTimers(c: Conn, m: Segment)
    requires TimersOk(c)
    ensures TimersOk(AckThenReceive(c, m))
  {
    ProcessAckTimers(c, m);
    ReceiveTimers(ProcessAck(c, m), m);
  }

  lemma SendingTimers(c: Conn, m: Segment, now: nat)
    requires TimersOk(c)
    ensures c.state == Established ==> TimersOk(OnEstablished(c, m, now)) && PersistExact(OnEstablished(c, m, now))
    ensures TimersOk(FlushSend(ProcessAck(c, m), now)) && PersistExact(FlushSend(ProcessAck(c, m), now))
  {
    AckThenReceiveTimers(c, m);
    AckThenReceiveFrame(c, m);
    ProcessAckTimers(c, m);
    var c2 := AckThenReceive(c, m);
    if c.state == Established {
      FlushTimers(if TakesFin(c, m) then c2.(state := CloseWait) else c2, now);
    }
    FlushTimers(ProcessAck(c, m), now);
  }

  lemma ClosingTimers(c: Conn, m: Segment, now: nat)
    requires TimersOk(c) && !CanSend(c.state) && c.state != Closed
    ensures TimersOk(OnFinWait1(c, m, now)) && TimersOk(OnFinWait2(c, m, now))
    ensures TimersOk(OnClosing(c, m, now)) && TimersOk(OnLastAck(c, m)) && TimersOk(OnTimeWait(c, m, now))
  {
    AckThenReceiveTimers(c, m);
    AckThenReceiveFrame(c, m);
    ProcessAckTimers(c, m);
    ProcessAckFrame(c, m);
  }

  lemma SegmentTimers(c: Conn, m: Segment, now: nat)
    requires TimersOk(c)
    ensures TimersOk(ProcessSegment(c, m, now))
    ensures CanSend(c.state) && !m.flags.rst ==> PersistExact(ProcessSegment(c, m, now))
  {
    if !(m.flags.rst && c.state != Closed && c.state != Listen) {
      match c.state {
        case SynSent => HandshakeTimers(c, m);
        case SynRcvd => HandshakeTimers(c, m);
        case Established => SendingTimers(c, m, now);
        case CloseWait => SendingTimers(c, m, now);
        case Closed =>
        case Listen =>
        case _ => ClosingTimers(c, m, now);
      }
    }
  }

  // ---------------------------------------------------------------- ticks and calls

  lemma ProbeTimers(c: Conn, now: nat)
    requires TimersOk(c)
    ensures TimersOk(Probe(c, now))
  {
  }

  lemma RetransmitTimers(c: Conn, now: nat)
    requires TimersOk(c) && !GivesUp(c, now)
    ensures TimersOk(Retransmit(c, now))
  {
    RetransmitIs(c, now);
    if c.queue != [] && Expired(c.queue[0], now) {
      assert EntryTimed(c.queue[0]);
      assert EntryTimed(Restarted(c, now));
    }
  }

  lemma TickTimers(c: Conn, now: nat)
    requires TimersOk(c)
    ensures TimersOk(Tick(c, now))
    ensures PersistExact(Tick(c, now))
  {
    if c.state != TimeWait {
      ProbeTimers(c, now);
      if !GivesUp(Probe(c, now), now) {
        RetransmitTimers(Probe(c, now), now);
        FlushTimers(Retransmit(Probe(c, now), now), now);
      }
    }
  }

  lemma ActTimers(c: Conn, ev: Event, now: nat)
    requires TimersOk(c)
    ensures TimersOk(Act(c, ev, now))
    ensures ev.Ticks? || ev.Sends? ==> PersistExact(Act(c, ev, now))
  {
    match ev {
      case Ticks => TickTimers(c, now);
      case Sends(data) => FlushTimers(Backlogged(c, data[..Accepts(c, data)]), now);
      case Recvs(room) => RecvIs(c, room);
      case Closes => FlushTimers(c.(pendingClose := true), now);
      case _ =>
    }
  }

  // ---------------------------------------------------------------- whole lives

  /** One step of a connection whose peer may send anything at all. */
  ghost predicate LocalNext(c: Conn, c': Conn) {
    || (exists m: Segment, now: nat :: c' == ProcessSegment(c, m, now))
    || (exists ev: Event, now: nat :: c' == Act(c, ev, now))
  }

  /** An active or a passive open. */
  ghost predicate IsBorn(c: Conn) {
    || (exists iss: U32, now: nat :: c == Connect(iss, now))
    || (exists m: Segment, iss: U32, now: nat :: c == PassiveOpen(m, iss, now))
  }

  lemma BornTimers(c: Conn)
    requires IsBorn(c)
    ensures TimersOk(c) && c.state != Listen
  {
  }

  ghost predicate LivesAt(cs: seq<Conn>, i: nat)
    requires i + 1 < |cs|
  {
    LocalNext(cs[i], cs[i + 1])
  }

  ghost predicate IsLife(cs: seq<Conn>) {
    && cs != []
    && IsBorn(cs[0])
    && forall i: nat :: i + 1 < |cs| ==> LivesAt(cs, i)
  }

  /** A life without its last states is a life. */
  lemma LifePrefix(cs: seq<Conn>, n: nat)
    requires IsLife(cs) && 0 < n < |cs|
    ensures IsLife(cs[..n]) && LocalNext(cs[n - 1], cs[n])
  {
    forall i: nat | i + 1 < n
      ensures LivesAt(cs[..n], i)
    {
      assert LivesAt(cs, i);
    }
    assert LivesAt(cs, n - 1);
  }

  lemma LocalNextTimers(c: Conn, c': Conn)
    requires TimersOk(c) && LocalNext(c, c')
    ensures TimersOk(c')
  {
    if m: Segment, now: nat :| c' == ProcessSegment(c, m, now) {
      SegmentTimers(c, m, now);
    } else {
      var ev: Event, now: nat :| c' == Act(c, ev, now);
      ActTimers(c, ev, now);
    }
  }

  /** The backoff schedule and the persist timer are right at every moment of every connection. */
  lemma {:induction false} LifeTimers(cs: seq<Conn>)
    requires IsLife(cs)
    ensures TimersOk(cs[|cs| - 1])
    decreases |cs|
  {
    if |cs| == 1 {
      BornTimers(cs[0]);
    } else {
      var n := |cs| - 1;
      LifePrefix(cs, n);
      LifeTimers(cs[..n]);
      LocalNextTimers(cs[n - 1], cs[n]);
    }
  }

  /** Giving up is exactly the front entry's seventh expiry, at least 31.5 seconds after it was first sent. */
  lemma GivingUpTakes(cs: seq<Conn>, now: nat)
    requires IsLife(cs)
    ensures var c := cs[|cs| - 1];
      c.state != Closed && c.state != TimeWait ==>
        && (Tick(c, now).state == Closed <==>
              c.queue != [] && c.queue[0].retryCount == 6 && now >= c.queue[0].sentAt + 8000)
        && (Tick(c, now).state == Closed ==> c.queue[0].sends != [] && now >= c.queue[0].sends[0] + 31500)
  {
    LifeTimers(cs);
    var c := cs[|cs| - 1];
    if c.state != Closed && c.state != TimeWait {
      assert WaitBefore(6) == 23500;
      assert RtoAfter(6) == 8000;
      if c.queue != [] {
        assert EntryTimed(c.queue[0]);
        SendsSpread(c.queue[0], c.queue[0].retryCount);
      }
      TickClosesIff(c, now);
    }
  }

  lemma TickClosesIff(c: Conn, now: nat)
    requires c.state != Closed && c.state != TimeWait
    ensures Tick(c, now).state == Closed <==> GivesUp(c, now)
  {
    TimersFrame(c, now);
    if Tick(c, now).state == Closed {
      TickClosesOnlyByGivingUp(c, now);
    }
  }

  lemma TickClosesOnlyByGivingUp(c: Conn, now: nat)
    requires c.state != Closed && c.state != TimeWait && Tick(c, now).state == Closed
    ensures GivesUp(c, now)
  {
    TimersFrame(c, now);
    var c1 := Probe(c, now);
    if !GivesUp(c1, now) {
      TimersFrame(c1, now);
      FlushLoopFrame(ArmProbe(Retransmit(c1, now), now), now);
    }
  }

  // ---------------------------------------------------------------- the persist probe is free

  function WithSent(c: Conn, ms: seq<Segment>): Conn {
    c.(h := c.h.(sent := ms))
  }

  /** `c'` is what `c` becomes by sending `rest`, and from another log `p` it would have become the same. */
  predicate SameBut(c': Conn, p': Conn, s: seq<Segment>, p: seq<Segment>, rest: seq<Segment>) {
    c'.h.sent == s + rest && p' == WithSent(c', p + rest)
  }

  lemma BlindThen(c1: Conn, p1: Conn, c2: Conn, p2: Conn, s: seq<Segment>, p: seq<Segment>,
                  r: seq<Segment>, f: seq<Segment>)
    requires SameBut(c1, p1, s, p, r) && SameBut(c2, p2, s + r, p + r, f)
    ensures SameBut(c2, p2, s, p, r + f)
  {
    assert s + r + f == s + (r + f) && p + r + f == p + (r + f);
  }

  lemma BlindNone(c: Conn, p: seq<Segment>)
    ensures SameBut(c, WithSent(c, p), c.h.sent, p, [])
  {
    assert p + [] == p && c.h.sent + [] == c.h.sent;
  }

  lemma SendChunkBlind(c: Conn, p: seq<Segment>, now: nat) returns (m: Segment)
    requires c.pending != [] && Off(c.sndUna, c.sndNxt) < c.sndWnd
    ensures SameBut(SendChunk(c, now), SendChunk(WithSent(c, p), now), c.h.sent, p, [m])
    ensures |SendChunk(c, now).pending| < |c.pending|
  {
    m := SendChunk(c, now).h.sent[|c.h.sent|];
  }

  lemma {:induction false} FlushLoopBlind(c: Conn, p: seq<Segment>, now: nat) returns (rest: seq<Segment>)
    ensures SameBut(FlushLoop(c, now), FlushLoop(WithSent(c, p), now), c.h.sent, p, rest)
    decreases |c.pending|
  {
    if c.pending != [] && Off(c.sndUna, c.sndNxt) < c.sndWnd {
      var c1, p1 := SendChunk(c, now), SendChunk(WithSent(c, p), now);
      var m := SendChunkBlind(c, p, now);
      var more := FlushLoopBlind(c1, p + [m], now);
      BlindThen(c1, p1, FlushLoop(c1, now), FlushLoop(p1, now), c.h.sent, p, [m], more);
      rest := [m] + more;
    } else {
      BlindNone(c, p);
      rest := [];
    }
  }

  lemma SendFinBlind(c: Conn, p: seq<Segment>, now: nat)
    ensures SameBut(SendFin(c, now), SendFin(WithSent(c, p), now), c.h.sent, p,
                    [Segment(c.sndNxt, c.rcvNxt, FIN_ACK, AdvertiseWindow(c), [])])
  {
  }

  lemma DrainBlind(c: Conn, p: seq<Segment>, now: nat) returns (rest: seq<Segment>)
    ensures SameBut(Drain(c, now), Drain(WithSent(c, p), now), c.h.sent, p, rest)
  {
    rest := FlushLoopBlind(ArmProbe(c, now), p, now);
    assert ArmProbe(WithSent(c, p), now) == WithSent(ArmProbe(c, now), p);
  }

  /** What `flush_send` does does not depend on what was sent before. */
  lemma FlushBlind(c: Conn, p: seq<Segment>, now: nat) returns (rest: seq<Segment>)
    ensures SameBut(FlushSend(c, now), FlushSend(WithSent(c, p), now), c.h.sent, p, rest)
  {
    if CanSend(c.state) {
      var c1, p1 := Drain(c, now), Drain(WithSent(c, p), now);
      rest := DrainBlind(c, p, now);
      if c1.pendingClose && c1.pending == [] {
        SendFinBlind(c1, p + rest, now);
        var m := Segment(c1.sndNxt, c1.rcvNxt, FIN_ACK, AdvertiseWindow(c1), []);
        BlindThen(c1, p1, SendFin(c1, now), SendFin(p1, now), c.h.sent, p, rest, [m]);
        rest := rest + [m];
      }
    } else {
      BlindNone(c, p);
      rest := [];
    }
  }

  lemma RetransmitBlind(c: Conn, p: seq<Segment>, now: nat) returns (rest: seq<Segment>)
    ensures SameBut(Retransmit(c, now), Retransmit(WithSent(c, p), now), c.h.sent, p, rest)
  {
    if c.queue != [] && Expired(c.queue[0], now) {
      RetransmitIs(c, now);
      RetransmitIs(WithSent(c, p), now);
      rest := [Resent(c)];
    } else {
      BlindNone(c, p);
      rest := [];
    }
  }

  /** `tick` after the persist timer. */
  ghost function TickRest(c: Conn, now: nat): Conn {
    if GivesUp(c, now) then c.(state := Closed) else FlushSend(Retransmit(c, now), now)
  }

  lemma TickRestBlind(c: Conn, p: seq<Segment>, now: nat) returns (rest: seq<Segment>)
    ensures SameBut(TickRest(c, now), TickRest(WithSent(c, p), now), c.h.sent, p, rest)
  {
    if GivesUp(c, now) {
      BlindNone(c.(state := Closed), p);
      rest := [];
    } else {
      var c1, p1 := Retransmit(c, now), Retransmit(WithSent(c, p), now);
      var r := RetransmitBlind(c, p, now);
      var f := FlushBlind(c1, p + r, now);
      BlindThen(c1, p1, FlushSend(c1, now), FlushSend(p1, now), c.h.sent, p, r, f);
      rest := r + f;
    }
  }

  /** The persist timer restarted at `now` with the doubled interval. */
  function Rearmed(c: Conn, now: nat): Conn {
    var rto := Min(c.probeRto * 2, MAX_RTO);
    c.(probeRto := rto, probeDeadline := Some(now + rto))
  }

  lemma ProbeOnly(c: Conn, now: nat)
    requires ProbeDue(c, now) && c.probeRto > 0
    ensures var quiet := Rearmed(c, now);
      && !ProbeDue(quiet, now)
      && Tick(quiet, now) == TickRest(quiet, now)
      && Tick(c, now) == TickRest(WithSent(quiet, c.h.sent + [ProbeSegment(c)]), now)
  {
    var quiet := Rearmed(c, now);
    assert Probe(quiet, now) == quiet;
    assert Probe(c, now) == WithSent(quiet, c.h.sent + [ProbeSegment(c)]);
  }

  /**
   A due probe costs nothing but itself: `tick` does exactly what it would have done had the persist timer
   just been restarted with the doubled interval, except that one dummy byte below `sndUna` goes out first.
   */
  lemma ProbeIsFree(cs: seq<Conn>, now: nat) returns (rest: seq<Segment>)
    requires IsLife(cs) && ProbeDue(cs[|cs| - 1], now)
    ensures var c := cs[|cs| - 1];
      var probe := Segment(Add(c.sndUna, MOD - 1), c.rcvNxt, ACK, AdvertiseWindow(c), [0]);
      var other := Tick(Rearmed(c, now), now);
      && !ProbeDue(Rearmed(c, now), now)
      && other.h.sent == c.h.sent + rest
      && Tick(c, now) == WithSent(other, c.h.sent + [probe] + rest)
  {
    LifeTimers(cs);
    var c := cs[|cs| - 1];
    ProbeOnly(c, now);
    rest := TickRestBlind(Rearmed(c, now), c.h.sent + [ProbeSegment(c)], now);
  }
}
