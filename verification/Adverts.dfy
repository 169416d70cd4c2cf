/** What acknowledgements tell the sender, over whole runs: always the position and all the room there is. */
module Adverts {
  import opened SeqSpace
  import opened Connection
  import opened Invariants
  import opened Sender
  import opened Receiver
  import opened Steps
  import opened TwoEndpoints
  import opened Logs
  import opened Scripts
  import opened FlowControl

  /** The furthest sequence number there is room for, counted from the SYN: what is out of order is not free. */
  ghost function FreeEdge(y: Conn): int {
    RightEdge(y, y.recvCap) - SumLens(y.ooo)
  }

  /** The right edge of `m` is as far as there is room and 16 bits reach; a full receiver offers nothing. */
  ghost predicate OffersAll(y: Conn, m: Segment) {
    && m.ackNum == y.rcvNxt
    && (if BufferedBytes(y) <= y.recvCap then EdgeOf(y.irs, m) == Min(FreeEdge(y), Off(y.irs, m.ackNum) + 65535)
        else m.window == 0)
  }

  lemma TellsAll(x: Conn, y: Conn, m: Segment)
    requires Pair(x, y) && y.h.synced && IsAck(m) && Tells(y, m)
    ensures OffersAll(y, m)
  {
  }

  lemma OpeningTells(m: Segment, iss: U32, now: nat)
    ensures NewAcks(NewConn(), PassiveOpen(m, iss, now))
  {
  }

  lemma NextTells(s: System, s': System, dir: bool)
    requires Inv(s) && Next(s, s')
    ensures NewAcks(Dst(dir, s).conn, Dst(dir, s').conn)
  {
    var ev: Event, now: nat :| StepA(s, s', ev, now) || StepB(s, s', ev, now);
    if StepA(s, s', ev, now) {
      StepAcks(s.a, s.b.conn.h.sent, ev, now);
    } else if s.b.life != Listening {
      StepAcks(s.b, s.a.conn.h.sent, ev, now);
    } else {
      ListenerStep(s, s', ev, now);
      if s' != s {
        OpeningTells(s.a.conn.h.sent[ev.i], ev.iss, now);
      }
    }
  }

  lemma StateTells(s: System, dir: bool, m: Segment)
    requires Inv(s) && m in Dst(dir, s).conn.h.sent && IsAck(m) && Tells(Dst(dir, s).conn, m)
    ensures OffersAll(Dst(dir, s).conn, m)
  {
    var y := Dst(dir, s).conn;
    if Connected(s) {
      assert AckHonest(y, m);
      TellsAll(Src(dir, s).conn, y, m);
    }
  }

  /**
   In every run, every acknowledgement puts the right edge, at the moment it is sent, where everything handed out
   plus the cap ends, less what is buffered out of order, as far as 16 bits reach.
   */
  lemma AcksOfferAll(run: seq<System>, k: nat, dir: bool, i: nat)
    requires IsRun(run) && BothFit(Last(run)) && k + 1 < |run|
    requires |Dst(dir, run[k]).conn.h.sent| <= i < |Dst(dir, run[k + 1]).conn.h.sent|
    requires IsAck(Dst(dir, run[k + 1]).conn.h.sent[i])
    ensures OffersAll(Dst(dir, run[k + 1]).conn, Dst(dir, run[k + 1]).conn.h.sent[i])
  {
    RunInvAt(run, k);
    RunInvAt(run, k + 1);
    assert NextAt(run, k);
    NextTells(run[k], run[k + 1], dir);
    StateTells(run[k + 1], dir, Dst(dir, run[k + 1]).conn.h.sent[i]);
  }

  // ---------------------------------------------------------------- what the sender believes

  /** The window a sender works to is one the peer has named; before the first it is the largest there is. */
  ghost predicate Quoted(x: Conn, log: seq<Segment>) {
    if x.h.synced then exists m :: m in log && m.window == x.sndWnd else x.sndWnd == 65535
  }

  /** Either nothing about the window changes, or it becomes that of `m`. */
  predicate Hears(c: Conn, c': Conn, m: Segment) {
    || (c'.sndWnd == c.sndWnd && c'.h.synced == c.h.synced)
    || (c'.sndWnd == m.window && c'.h.synced)
  }

  lemma FlushWindow(c: Conn, now: nat)
    ensures FlushSend(c, now).sndWnd == c.sndWnd && FlushSend(c, now).h.synced == c.h.synced
  {
    FlushLoopFrame(ArmProbe(c, now), now);
  }

  lemma HandshakeHears(c: Conn, m: Segment)
    ensures Hears(c, OnSynSent(c, m), m)
    ensures c.h.synced ==> Hears(c, OnSynRcvd(c, m), m)
  {
    OpenedFrame(c, m);
    AcceptedFrame(c, m);
    AbsorbFrame(Accepted(c, m), m);
  }

  lemma AckHears(c: Conn, m: Segment)
    requires c.h.synced
    ensures Hears(c, ProcessAck(c, m), m) && Hears(c, AckThenReceive(c, m), m)
  {
    RemoveAckedFrame(c.(sndUna := m.ackNum), m.ackNum);
    AbsorbFrame(ProcessAck(c, m), m);
  }

  lemma OpenHears(c: Conn, m: Segment, now: nat)
    requires c.h.synced
    ensures Hears(c, OnEstablished(c, m, now), m) && Hears(c, FlushSend(ProcessAck(c, m), now), m)
  {
    AckHears(c, m);
    EstablishedIs(c, m, now);
    FlushWindow(Taken(c, m), now);
    FlushWindow(ProcessAck(c, m), now);
  }

  lemma ClosingHears(c: Conn, m: Segment, now: nat)
    requires c.h.synced
    ensures Hears(c, OnFinWait1(c, m, now), m) && Hears(c, OnFinWait2(c, m, now), m)
    ensures Hears(c, OnClosing(c, m, now), m) && Hears(c, OnLastAck(c, m), m)
  {
    AckHears(c, m);
    FinWaitIs(c, m, now);
    ClosingIs(c, m, now);
  }

  lemma SegmentHears(c: Conn, m: Segment, now: nat)
    requires LabelOk(c)
    ensures Hears(c, ProcessSegment(c, m, now), m)
  {
    if !m.flags.rst {
      match c.state {
        case SynSent => HandshakeHears(c, m);
        case SynRcvd => HandshakeHears(c, m);
        case Established => OpenHears(c, m, now);
        case CloseWait => OpenHears(c, m, now);
        case Closed =>
        case Listen =>
        case TimeWait =>
        case _ => ClosingHears(c, m, now);
      }
    }
  }

  lemma TickHears(x: Conn, now: nat)
    ensures Tick(x, now).sndWnd == x.sndWnd && Tick(x, now).h.synced == x.h.synced
  {
    TimersFrame(x, now);
    TimersFrame(Probe(x, now), now);
    FlushWindow(Retransmit(Probe(x, now), now), now);
  }

  lemma ActHears(x: Conn, ev: Event, now: nat)
    ensures Act(x, ev, now).sndWnd == x.sndWnd && Act(x, ev, now).h.synced == x.h.synced
  {
    match ev {
      case Ticks => TickHears(x, now);
      case Sends(data) => FlushWindow(Backlogged(x, data[..Accepts(x, data)]), now);
      case Closes => FlushWindow(x.(pendingClose := true), now);
      case _ =>
    }
  }

  lemma StepQuotes(e: Endpoint, log: seq<Segment>, ev: Event, now: nat)
    requires e.life != Listening && LabelOk(e.conn) && Quoted(e.conn, log)
    ensures Quoted(Step(e, log, ev, now).conn, log)
  {
    if ev.Deliver? {
      if ev.i < |log| {
        SegmentHears(e.conn, log[ev.i], now);
      }
    } else {
      ActHears(e.conn, ev, now);
    }
  }

  ghost predicate BothQuote(s: System) {
    Quoted(s.a.conn, s.b.conn.h.sent) && Quoted(s.b.conn, s.a.conn.h.sent)
  }

  lemma NextQuotes(s: System, s': System)
    requires Inv(s) && Next(s, s') && BothQuote(s)
    ensures BothQuote(s')
  {
    NextTells(s, s', true);
    NextTells(s, s', false);
    var ev: Event, now: nat :| StepA(s, s', ev, now) || StepB(s, s', ev, now);
    if StepA(s, s', ev, now) {
      StepQuotes(s.a, s.b.conn.h.sent, ev, now);
    } else if s.b.life != Listening {
      StepQuotes(s.b, s.a.conn.h.sent, ev, now);
    } else {
      ListenerStep(s, s', ev, now);
    }
  }

  /** In every run, from the handshake on, each side works to a window that the other has put into a segment. */
  lemma {:induction false} WindowsAreQuoted(run: seq<System>, k: nat)
    requires IsRun(run) && BothFit(Last(run)) && k < |run|
    ensures BothQuote(run[k])
    decreases k
  {
    if k > 0 {
      WindowsAreQuoted(run, k - 1);
      RunInvAt(run, k - 1);
      assert NextAt(run, k - 1);
      NextQuotes(run[k - 1], run[k]);
    }
  }

  // ---------------------------------------------------------------- what a new connection starts with

  /** Until its caps are set, a new connection takes 65536 bytes in order, and `send` takes 1048576 and not one more. */
  lemma DefaultCaps(c: Conn, m: Segment, data: seq<Byte>, now: nat)
    requires (exists iss: U32 :: c == Connect(iss, now))
      || (exists syn: Segment, iss: U32 :: c == PassiveOpen(syn, iss, now))
    requires m.seqNum == c.rcvNxt
    ensures BufferedBytes(Absorb(c, m)) <= c.recvCap <==> |m.data| <= 65536
    ensures |Send(c, data, now).pending| == if |data| <= 1048576 then |data| else 1048576
  {
    SpliceConserves(TakeData(c, m.data));
  }
}
