/**
 Which segments are answered, and with what.  An answer is a bare ACK; what a
 flush sends besides carries data or the FIN.
 */
module Answers {
  import opened SeqSpace
  import opened Connection
  import opened Invariants
  import opened Pairs
  import opened Sender
  import opened Receiver
  import opened Steps
  import opened TwoEndpoints
  import opened Window
  import opened Recovery
  import opened Safety
  import opened Transitions

  // ---------------------------------------------------------------- the condition

  /** In these states a segment is answered exactly if it meets the condition beside them. */
  predicate CallsForAnswer(c: Conn, m: Segment) {
    !m.flags.rst &&
    match c.state
    case SynSent => m.flags.syn && AckOfAll(c, m)
    case SynRcvd => AckOfAll(c, m) && (m.data != [] || m.flags.fin)
    case Established | FinWait1 | FinWait2 =>
      || m.data != [] || m.flags.fin
      || m.seqNum > c.rcvNxt
      || (m.seqNum == c.rcvNxt && c.rcvNxt in c.ooo)
    case TimeWait => m.flags.fin
    case _ => false
  }

  /** A bare ACK with the sender's next sequence number `nxt`, and the position and window of `c`. */
  ghost function Answer(nxt: U32, c: Conn): Segment {
    Segment(nxt, c.rcvNxt, Flags(false, false, false, false, true), AdvertiseWindow(c), [])
  }

  /** Data or the FIN. */
  predicate Payloaded(m: Segment) {
    (m.flags.psh && m.data != []) || (m.flags.fin && m.data == [])
  }

  ghost predicate Replies(c: Conn, c': Conn, answered: bool, rest: seq<Segment>) {
    && c'.h.sent == c.h.sent + (if answered then [Answer(c.sndNxt, c')] else []) + rest
    && forall m :: m in rest ==> Payloaded(m)
  }

  /** Nothing waits to be sent. */
  predicate Idle(c: Conn) {
    c.pending == [] && !c.pendingClose
  }

  // ---------------------------------------------------------------- the pieces

  predicate SameReceiver(c: Conn, c': Conn) {
    c'.rcvNxt == c.rcvNxt && c'.recvBuf == c.recvBuf && c'.ooo == c.ooo && c'.recvCap == c.recvCap
  }

  lemma FlushReplies(c: Conn, now: nat) returns (rest: seq<Segment>)
    ensures FlushSend(c, now).h.sent == c.h.sent + rest && (forall m :: m in rest ==> Payloaded(m))
    ensures SameReceiver(c, FlushSend(c, now)) && (Idle(c) ==> rest == [])
  {
    rest := [];
    if CanSend(c.state) {
      var c1 := Drain(c, now);
      rest := FlushLoopFills(ArmProbe(c, now), now);
      FlushLoopFrame(ArmProbe(c, now), now);
      assert forall m :: m in rest ==> InWindow(ArmProbe(c, now), m);
      if c1.pendingClose && c1.pending == [] {
        var fin := Segment(c1.sndNxt, c1.rcvNxt, FIN_ACK, AdvertiseWindow(c1), []);
        assert c.h.sent + rest + [fin] == c.h.sent + (rest + [fin]);
        rest := rest + [fin];
      }
    }
  }

  /** Receiving answers, and nothing before it does. */
  lemma ReceiveReplies(c: Conn, m: Segment)
    ensures var c2 := AckThenReceive(c, m);
      c2.h.sent == c.h.sent + if ShouldAck(c, m) then [Answer(c.sndNxt, c2)] else []
  {
    ProcessAckSent(c, m);
    ProcessAckFrame(c, m);
    AbsorbFrame(ProcessAck(c, m), m);
  }

  /** Some of them relabel afterwards, which is not on the link. */
  lemma RelabelledReplies(c: Conn, c2: Conn, c': Conn, answered: bool)
    requires c2.h.sent == c.h.sent + (if answered then [Answer(c.sndNxt, c2)] else [])
    requires c'.h.sent == c2.h.sent && SameReceiver(c2, c')
    ensures Replies(c, c', answered, [])
  {
    assert Answer(c.sndNxt, c') == Answer(c.sndNxt, c2);
  }

  lemma FlushedReplies(c: Conn, c2: Conn, answered: bool, now: nat) returns (rest: seq<Segment>)
    requires c2.h.sent == c.h.sent + (if answered then [Answer(c.sndNxt, c2)] else [])
    ensures Replies(c, FlushSend(c2, now), answered, rest) && (Idle(c2) ==> rest == [])
  {
    rest := FlushReplies(c2, now);
    assert Answer(c.sndNxt, FlushSend(c2, now)) == Answer(c.sndNxt, c2);
  }

  // ---------------------------------------------------------------- by state

  lemma SynSentReplies(c: Conn, m: Segment)
    ensures Replies(c, OnSynSent(c, m), m.flags.syn && AckOfAll(c, m), [])
  {
    if m.flags.syn && AckOfAll(c, m) {
      OpenedFrame(c, m);
      RelabelledReplies(c, SendAckOnly(Opened(c, m)), OnSynSent(c, m), true);
    }
  }

  lemma SynRcvdReplies(c: Conn, m: Segment)
    ensures Replies(c, OnSynRcvd(c, m), AckOfAll(c, m) && (m.data != [] || m.flags.fin), [])
  {
    if AckOfAll(c, m) {
      var c1 := Accepted(c, m);
      AcceptedFrame(c, m);
      AbsorbFrame(c1, m);
      if m.data != [] || m.flags.fin {
        RelabelledReplies(c, Receive(c1, m), OnSynRcvd(c, m), true);
      }
    }
  }

  lemma EstablishedReplies(c: Conn, m: Segment, now: nat) returns (rest: seq<Segment>)
    ensures Replies(c, OnEstablished(c, m, now), ShouldAck(c, m), rest) && (Idle(c) ==> rest == [])
  {
    ReceiveReplies(c, m);
    AckThenReceiveFrame(c, m);
    EstablishedIs(c, m, now);
    assert Answer(c.sndNxt, Taken(c, m)) == Answer(c.sndNxt, AckThenReceive(c, m));
    rest := FlushedReplies(c, Taken(c, m), ShouldAck(c, m), now);
  }

  lemma CloseWaitReplies(c: Conn, m: Segment, now: nat) returns (rest: seq<Segment>)
    ensures Replies(c, FlushSend(ProcessAck(c, m), now), false, rest) && (Idle(c) ==> rest == [])
  {
    ProcessAckSent(c, m);
    ProcessAckFrame(c, m);
    rest := FlushedReplies(c, ProcessAck(c, m), false, now);
  }

  lemma FinWaitReplies(c: Conn, m: Segment, now: nat)
    ensures Replies(c, OnFinWait1(c, m, now), ShouldAck(c, m), [])
    ensures Replies(c, OnFinWait2(c, m, now), ShouldAck(c, m), [])
  {
    ReceiveReplies(c, m);
    FinWaitIs(c, m, now);
    RelabelledReplies(c, AckThenReceive(c, m), OnFinWait1(c, m, now), ShouldAck(c, m));
    RelabelledReplies(c, AckThenReceive(c, m), OnFinWait2(c, m, now), ShouldAck(c, m));
  }

  lemma ClosingReplies(c: Conn, m: Segment, now: nat)
    ensures Replies(c, OnClosing(c, m, now), false, []) && Replies(c, OnLastAck(c, m), false, [])
    ensures Replies(c, OnTimeWait(c, m, now), m.flags.fin, [])
  {
    ProcessAckSent(c, m);
    ClosingIs(c, m, now);
    if m.flags.fin {
      RelabelledReplies(c, SendAckOnly(c), OnTimeWait(c, m, now), true);
    }
  }

  /**
   In every state and for every segment: the first thing sent is the answer, if the segment calls for one, and
   everything else is data or the FIN.  A connection with nothing waiting sends the answer alone or nothing.
   */
  lemma AnsweredIff(c: Conn, m: Segment, now: nat) returns (rest: seq<Segment>)
    ensures Replies(c, ProcessSegment(c, m, now), CallsForAnswer(c, m), rest)
    ensures Idle(c) ==> rest == []
  {
    rest := [];
    if !m.flags.rst {
      match c.state {
        case SynSent => SynSentReplies(c, m);
        case SynRcvd => SynRcvdReplies(c, m);
        case Established => rest := EstablishedReplies(c, m, now);
        case CloseWait => rest := CloseWaitReplies(c, m, now);
        case FinWait1 => FinWaitReplies(c, m, now);
        case FinWait2 => FinWaitReplies(c, m, now);
        case Closed =>
        case Listen =>
        case _ => ClosingReplies(c, m, now);
      }
    }
  }

  // ---------------------------------------------------------------- the FIN is acknowledged

  /** A segment whose FIN the connection takes. */
  predicate BringsFin(c: Conn, m: Segment) {
    && !m.flags.rst && FinInSequence(c, m)
    && (c.state in {Established, FinWait1, FinWait2} || (c.state == SynRcvd && AckOfAll(c, m)))
  }

  lemma NothingToSplice(c: Conn, m: Segment)
    requires FinInSequence(c, m) && c.ooo == map[]
    ensures Absorb(c, m).rcvNxt == Add(m.seqNum, |m.data| + 1)
  {
    AddAdd(c.rcvNxt, |m.data|, 1);
  }

  lemma FinMovesOn(c: Conn, m: Segment, now: nat)
    requires BringsFin(c, m) && c.ooo == map[]
    ensures ProcessSegment(c, m, now).rcvNxt == Add(m.seqNum, |m.data| + 1)
  {
    var c1 := ProcessAck(c, m);
    ProcessAckFrame(c, m);
    NothingToSplice(c1, m);
    AbsorbFrame(c1, m);
    AcceptedFrame(c, m);
    NothingToSplice(Accepted(c, m), m);
    AbsorbFrame(Accepted(c, m), m);
    if c.state == Established {
      EstablishedIs(c, m, now);
      FlushLogs(Taken(c, m), now);
    }
  }

  /** A FIN that is taken is acknowledged at once, before anything else is sent. */
  lemma FinIsAcked(c: Conn, m: Segment, now: nat)
    requires BringsFin(c, m)
    ensures var c' := ProcessSegment(c, m, now);
      && |c'.h.sent| > |c.h.sent| && c'.h.sent[|c.h.sent|] == Answer(c.sndNxt, c')
      && (c.ooo == map[] ==> c'.h.sent[|c.h.sent|].ackNum == Add(m.seqNum, |m.data| + 1))
  {
    var rest := AnsweredIff(c, m, now);
    if c.ooo == map[] {
      FinMovesOn(c, m, now);
    }
  }

  // ---------------------------------------------------------------- old segments

  /** Old data or an old FIN, which a peer sends again because it missed the acknowledgement. */
  predicate IsDuplicate(c: Conn, m: Segment) {
    m.seqNum < c.rcvNxt && (m.data != [] || m.flags.fin) && !m.flags.rst
  }

  /**
   A retransmission that reaches a peer which already has it is acknowledged again exactly in these states;
   in CLOSE_WAIT, CLOSING and LAST_ACK it is not, so a lost acknowledgement of a FIN is not repaired there.
   */
  lemma DuplicateAnsweredIff(c: Conn, m: Segment, now: nat)
    requires IsDuplicate(c, m) && Idle(c) && !m.flags.syn
    ensures |ProcessSegment(c, m, now).h.sent| > |c.h.sent| <==>
      || c.state in {Established, FinWait1, FinWait2}
      || (c.state == TimeWait && m.flags.fin)
      || (c.state == SynRcvd && m.flags.ack && m.ackNum == c.sndNxt)
  {
    var rest := AnsweredIff(c, m, now);
  }

  // ---------------------------------------------------------------- refusals

  /**
   The RST for a segment nobody wants is one its sender can tell to be meant: it stands where the sender expects
   the next byte or, if the sender has heard nothing yet, acknowledges all that was sent.
   */
  lemma ResetIsMeant(c: Conn, flags: Flags, data: seq<Byte>, now: nat)
    ensures var m := SendSegment(c, flags, c.sndNxt, data).h.sent[|c.h.sent|];
      && RstFor(m).flags.rst && RstFor(m).data == []
      && (if flags.ack then RstFor(m).seqNum == c.rcvNxt && !RstFor(m).flags.ack
          else RstFor(m).flags.ack && RstFor(m).ackNum == QueueAndSend(c, flags, data, now).sndNxt)
  {
  }

  /**
   Where there is no connection, everything is refused but a RST and an attempt to open.  A new attempt after the
   connection is gone belongs to the next one.
   */
  lemma RefusedIff(e: Endpoint, m: Segment, iss: U32, now: nat)
    requires e.life == Listening || (e.life == Reaped && !IsBareSyn(m))
    ensures (exists r: Segment :: r.flags.rst && HandleSegment(e, m, iss, now).conn.h.sent == e.conn.h.sent + [r])
       <==> !m.flags.rst && (m.flags.syn ==> m.flags.ack)
  {
    var sent := HandleSegment(e, m, iss, now).conn.h.sent;
    if e.life == Listening && IsBareSyn(m) {
      assert sent[|sent| - 1].flags == SYN_ACK;
    } else if !m.flags.rst && !IsBareSyn(m) {
      assert sent == e.conn.h.sent + [RstFor(m)];
    }
  }

  /** A RST is never answered, so two stacks cannot keep refusing each other. */
  lemma ResetUnanswered(e: Endpoint, m: Segment, iss: U32, now: nat)
    requires m.flags.rst && (e.life == Listening ==> !IsBareSyn(m))
    ensures HandleSegment(e, m, iss, now).conn.h.sent == e.conn.h.sent
  {
  }

  // ---------------------------------------------------------------- over whole runs

  /** A copy of `x`'s FIN where `y` expects it. */
  ghost predicate FinArrives(x: Conn, y: Conn, m: Segment) {
    && m in x.h.sent && m.flags.fin && !m.flags.rst && m.seqNum == y.rcvNxt
    && y.state in {Established, FinWait1, FinWait2}
  }

  lemma FinAckedExactly(x: Conn, y: Conn, m: Segment, now: nat)
    requires Pair(x, y) && LabelOk(y) && FinArrives(x, y, m)
    ensures var y' := ProcessSegment(y, m, now);
      |y'.h.sent| > |y.h.sent| && AcksFin(x, y'.h.sent[|y.h.sent|]) && !y'.h.sent[|y.h.sent|].flags.fin
  {
    assert SegOk(StreamOf(x), Reach(x, y), m);
    FinIsAcked(y, m, now);
    FinPosition(x, y, m, now);
  }

  /** Taking the FIN leaves the receiver right behind everything the peer will ever send. */
  lemma FinPosition(x: Conn, y: Conn, m: Segment, now: nat)
    requires Pair(x, y) && LabelOk(y) && FinArrives(x, y, m)
    ensures ProcessSegment(y, m, now).rcvNxt == x.sndNxt && x.h.fins == 1
  {
    assert SegOk(StreamOf(x), Reach(x, y), m);
    var y1 := ProcessAck(y, m);
    ProcessAckFrame(y, m);
    RxSame(y, y1, x);
    NothingAtEnd(StreamOf(x), y1);
    assert TakeData(y1, m.data) == y1 by {
      assert y1.recvBuf + [] == y1.recvBuf;
    }
    OffAdd(x.iss, y.rcvNxt, 1);
    OffInjective(x.iss, Add(y.rcvNxt, 1), x.sndNxt);
    AbsorbFrame(y1, m);
    if y.state == Established {
      EstablishedIs(y, m, now);
      FlushLogs(Taken(y, m), now);
    }
  }

  /** Where the acknowledgement of its FIN takes a connection. */
  function Released(s: TcpState): TcpState {
    if s == FinWait1 then FinWait2 else if s == Closing then TimeWait else Closed
  }

  /** The FIN arrives, its acknowledgement comes back, and the sender moves on. */
  ghost predicate Confirms(x: Conn, y: Conn, m: Segment, now: nat, later: nat) {
    var y' := ProcessSegment(y, m, now);
    && |y'.h.sent| > |y.h.sent| && y'.h.finsTaken == 1
    && ProcessSegment(x, y'.h.sent[|y.h.sent|], later).state == Released(x.state)
  }

  lemma PairConfirms(x: Conn, y: Conn, m: Segment, now: nat, later: nat)
    requires Pair(x, y) && LabelOk(x) && LabelOk(y) && FinArrives(x, y, m)
    requires x.state in {FinWait1, Closing, LastAck}
    ensures Confirms(x, y, m, now, later)
  {
    FinAckedExactly(x, y, m, now);
    FinReleases(x, ProcessSegment(y, m, now).h.sent[|y.h.sent|], later);
    FinIsTaken(y, m, now);
  }

  lemma FinReleases(x: Conn, n: Segment, later: nat)
    requires AcksFin(x, n) && !n.flags.fin && x.state in {FinWait1, Closing, LastAck}
    ensures ProcessSegment(x, n, later).state == Released(x.state)
  {
    SegmentMoves(x, n, later);
  }

  lemma FinIsTaken(y: Conn, m: Segment, now: nat)
    requires y.state in {Established, FinWait1, FinWait2} && !m.flags.rst && FinInSequence(y, m)
    ensures ProcessSegment(y, m, now).h.finsTaken == y.h.finsTaken + 1
  {
    AckThenReceiveFrame(y, m);
    FinWaitIs(y, m, now);
    if y.state == Established {
      EstablishedIs(y, m, now);
      FlushLoopFrame(ArmProbe(Taken(y, m), now), now);
    }
  }

  /**
   In every run and either direction: if any copy of a FIN reaches a peer that has everything before it, and the
   answer comes back, the sender leaves the state in which it waited for that acknowledgement.
   */
  lemma FinIsConfirmed(run: seq<System>, m: Segment, now: nat, later: nat)
    requires IsRun(run) && BothFit(Last(run))
    ensures var a, b := Last(run).a.conn, Last(run).b.conn;
      && (FinArrives(a, b, m) && a.state in {FinWait1, Closing, LastAck} ==> Confirms(a, b, m, now, later))
      && (FinArrives(b, a, m) && b.state in {FinWait1, Closing, LastAck} ==> Confirms(b, a, m, now, later))
  {
    RunInv(run);
    var s := Last(run);
    if FinArrives(s.a.conn, s.b.conn, m) && s.a.conn.state in {FinWait1, Closing, LastAck} {
      PairConfirms(s.a.conn, s.b.conn, m, now, later);
    }
    if FinArrives(s.b.conn, s.a.conn, m) && s.b.conn.state in {FinWait1, Closing, LastAck} {
      PairConfirms(s.b.conn, s.a.conn, m, now, later);
    }
  }
}
