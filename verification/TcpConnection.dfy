/**
 The connection record of src/tcp.rs as a mutable object.  Every method follows
 its Rust counterpart statement by statement and is proved to have the effect of
 the function of the same name in Connection.dfy.
 */
module TcpEngine {
  import opened SeqSpace
  import opened Connection

  /** Deleting one visited key leaves the lengths of the others to be added. */
  ghost function Rest(m: map<U32, seq<Byte>>, keys: set<U32>): map<U32, seq<Byte>> {
    map k | k in keys && k in m :: m[k]
  }

  /** The sequence numbers a segment uses up, counted in 32 bits as `queue_and_send` does. */
  method Consumed(flags: Flags, data: seq<Byte>) returns (consumed: U32)
    ensures consumed == SegLen(flags, data) % MOD
  {
    consumed := |data| % MOD;
    ghost var n := |data|;
    if flags.syn {
      ConsumeOne(n, consumed);
      consumed, n := Add(consumed, 1), n + 1;
    }
    if flags.fin {
      ConsumeOne(n, consumed);
      consumed, n := Add(consumed, 1), n + 1;
    }
  }

  lemma ConsumeOne(n: nat, consumed: U32)
    requires consumed == n % MOD
    ensures Add(consumed, 1) == (n + 1) % MOD
  {
    AddIsMod(consumed, 1);
    ModAdd(n, 1);
  }

  /** One past the last sequence number of a queued segment, as `remove_acked` computes it. */
  method EndOf(u: Unacked) returns (end: U32)
    ensures end == End(u)
  {
    end := Add(u.seqNum, |u.data|);
    if u.flags.syn {
      AddAdd(u.seqNum, |u.data|, 1);
      end := Add(end, 1);
    }
    if u.flags.fin {
      AddAdd(u.seqNum, SegLen(u.flags, u.data) - 1, 1);
      end := Add(end, 1);
    }
  }

  class TcpConnection {
    var state: TcpState
    var iss: U32
    var sndUna: U32
    var sndNxt: U32
    var sndWnd: U32
    var irs: U32
    var rcvNxt: U32
    var queue: seq<Unacked>
    var ooo: map<U32, seq<Byte>>
    var recvBuf: seq<Byte>
    var pending: seq<Byte>
    var timeWaitDeadline: nat
    var probeDeadline: Option<nat>
    var probeRto: nat
    var pendingClose: bool
    var recvCap: nat
    var sendCap: nat

    ghost var h: History

    ghost function View(): Conn
      reads this
    {
      Conn(state, iss, sndUna, sndNxt, sndWnd, irs, rcvNxt, queue, ooo, recvBuf, pending,
           timeWaitDeadline, probeDeadline, probeRto, pendingClose, recvCap, sendCap, h)
    }

    /** `TcpConnection::new()`, with the first sequence number and state filled in. */
    constructor (iss: U32, state: TcpState)
      ensures View() == NewConn().(iss := iss, sndUna := iss, sndNxt := iss, state := state)
    {
      this.state := state;
      this.iss, sndUna, sndNxt, sndWnd := iss, iss, iss, 65535;
      irs, rcvNxt := 0, 0;
      queue, ooo, recvBuf, pending := [], map[], [], [];
      timeWaitDeadline, probeDeadline, probeRto, pendingClose := 0, None, INITIAL_RTO, false;
      recvCap, sendCap := DEFAULT_RECV_BUFFER_CAP, DEFAULT_SEND_BUFFER_CAP;
      h := History([], [], [], {0}, [], [], 0, 0, false);
    }

    /** The record `handle_segment` fills in when a SYN reaches a listening port. */
    constructor FromSyn(m: Segment, iss: U32)
      ensures View() == FreshFromSyn(m, iss)
    {
      state := SynRcvd;
      this.iss, sndUna, sndNxt, sndWnd := iss, iss, iss, m.window;
      irs, rcvNxt := m.seqNum, Add(m.seqNum, 1);
      queue, ooo, recvBuf, pending := [], map[], [], [];
      timeWaitDeadline, probeDeadline, probeRto, pendingClose := 0, None, INITIAL_RTO, false;
      recvCap, sendCap := DEFAULT_RECV_BUFFER_CAP, DEFAULT_SEND_BUFFER_CAP;
      h := History([], [], [], {0}, [], [], 0, 0, true);
    }

    method ComputeBufferedBytes() returns (n: nat)
      ensures n == BufferedBytes(View())
    {
      n := |recvBuf|;
      var keys := ooo.Keys;
      assert Rest(ooo, keys) == ooo;
      while keys != {}
        invariant keys <= ooo.Keys
        invariant n + SumLens(Rest(ooo, keys)) == |recvBuf| + SumLens(ooo)
        decreases |keys|
      {
        var k :| k in keys;
        SumLensRemove(Rest(ooo, keys), k);
        assert Rest(ooo, keys) - {k} == Rest(ooo, keys - {k});
        n := n + |ooo[k]|;
        keys := keys - {k};
      }
    }

    method ComputeWindow() returns (w: U16)
      ensures w == AdvertiseWindow(View())
    {
      var used := ComputeBufferedBytes();
      if used >= recvCap {
        return 0;
      }
      w := Min(recvCap - used, 65535);
    }

    /** Returns the segment put on the wire and records it in the output log. */
    method DoSendSegment(flags: Flags, seqNum: U32, data: seq<Byte>) returns (m: Segment)
      modifies this
      ensures View() == SendSegment(old(View()), flags, seqNum, data)
      ensures h.sent == old(h.sent) + [m]
    {
      var window := ComputeWindow();
      m := Segment(seqNum, if flags.ack then rcvNxt else 0, flags, window, data);
      h := h.(sent := h.sent + [m]);
    }

    method DoSendAckOnly()
      modifies this
      ensures View() == SendAckOnly(old(View()))
    {
      var _ := DoSendSegment(ACK, sndNxt, []);
    }

    method DoQueueAndSend(flags: Flags, data: seq<Byte>, now: nat)
      modifies this
      ensures View() == QueueAndSend(old(View()), flags, data, now)
    {
      var seqNum := sndNxt;
      var _ := DoSendSegment(flags, seqNum, data);
      queue := queue + [Unacked(seqNum, flags, data, now, INITIAL_RTO, 0, [now])];
      var consumed := Consumed(flags, data);
      AddAdd(sndNxt, SegLen(flags, data), 0);
      sndNxt := Add(sndNxt, consumed);
      h := h.(out := h.out + data, cuts := h.cuts + {|h.out| + |data|}, fins := h.fins + if flags.fin then 1 else 0);
    }

    method DoRemoveAcked(newUna: U32)
      modifies this
      ensures View() == RemoveAcked(old(View()), newUna)
    {
      while queue != []
        invariant RemoveAcked(View(), newUna) == RemoveAcked(old(View()), newUna)
        decreases |queue|
      {
        var front := queue[0];
        var end := EndOf(front);
        if end <= newUna {
          h := h.(popped := h.popped + front.data);
          queue := queue[1..];
        } else {
          break;
        }
      }
    }

    method DoProcessAck(m: Segment)
      modifies this
      ensures View() == ProcessAck(old(View()), m)
    {
      if !m.flags.ack {
        return;
      }
      if m.ackNum > sndUna {
        sndUna := m.ackNum;
        DoRemoveAcked(sndUna);
      }
      sndWnd := m.window;
      if sndWnd != 0 {
        probeDeadline := None;
        probeRto := INITIAL_RTO;
      }
    }

    /** One chunk: as much as the segment size, the window and the backlog allow. */
    method DoSendChunk(now: nat)
      requires pending != [] && Off(sndUna, sndNxt) < sndWnd
      modifies this
      ensures View() == SendChunk(old(View()), now)
    {
      var available := sndWnd - Off(sndUna, sndNxt);
      var chunkLen := Min(Min(MSS, available), |pending|);
      var chunk := pending[..chunkLen];
      DoQueueAndSend(PSH_ACK, chunk, now);
      pending := pending[chunkLen..];
    }

    /** The send loop of `flush_send`. */
    method DoFlushLoop(now: nat)
      modifies this
      ensures View() == FlushLoop(old(View()), now)
    {
      while pending != []
        invariant FlushLoop(View(), now) == FlushLoop(old(View()), now)
        decreases |pending|
      {
        var bytesInFlight := Off(sndUna, sndNxt);
        if bytesInFlight >= sndWnd {
          break;
        }
        DoSendChunk(now);
      }
    }

    method DoFlushSend(now: nat)
      modifies this
      ensures View() == FlushSend(old(View()), now)
    {
      if state != Established && state != CloseWait {
        return;
      }
      if sndWnd == 0 && pending != [] && probeDeadline.None? {
        probeDeadline := Some(now + INITIAL_RTO);
      }
      assert View() == ArmProbe(old(View()), now);
      DoFlushLoop(now);
      if pendingClose && pending == [] {
        DoSendFin(now);
      }
    }

    method DoSendFin(now: nat)
      modifies this
      ensures View() == SendFin(old(View()), now)
    {
      DoQueueAndSend(FIN_ACK, [], now);
      if state == Established {
        state := FinWait1;
      } else {
        state := LastAck;
      }
      pendingClose := false;
    }

    method DoTakeBuffered()
      requires rcvNxt in ooo
      modifies this
      ensures View() == TakeBuffered(old(View()))
    {
      var d := ooo[rcvNxt];
      ooo := ooo - {rcvNxt};
      rcvNxt := Add(rcvNxt, |d|);
      recvBuf := recvBuf + d;
    }

    /** The splice loop of `receive_data_and_maybe_fin`. */
    method DoSplice() returns (spliced: bool)
      modifies this
      ensures View() == Splice(old(View()))
      ensures spliced == old(rcvNxt in ooo)
    {
      spliced := false;
      while rcvNxt in ooo
        invariant Splice(View()) == Splice(old(View()))
        invariant if spliced then old(rcvNxt in ooo) else View() == old(View())
        decreases |ooo|
      {
        DoTakeBuffered();
        spliced := true;
      }
    }

    method DoTakeData(data: seq<Byte>)
      modifies this
      ensures View() == TakeData(old(View()), data)
    {
      if data != [] {
        recvBuf := recvBuf + data;
        rcvNxt := Add(rcvNxt, |data|);
      }
    }

    method DoTakeFin()
      modifies this
      ensures View() == TakeFin(old(View()))
    {
      rcvNxt := Add(rcvNxt, 1);
      h := h.(finsTaken := h.finsTaken + 1);
    }

    method DoAbsorb(m: Segment) returns (finConsumed: bool, shouldAck: bool)
      modifies this
      ensures View() == Absorb(old(View()), m)
      ensures finConsumed == TakesFin(old(View()), m)
      ensures shouldAck == ShouldAck(old(View()), m)
    {
      finConsumed, shouldAck := false, false;
      if m.seqNum == rcvNxt {
        DoTakeData(m.data);
        shouldAck := m.data != [];
        var spliced := DoSplice();
        shouldAck := shouldAck || spliced;
        if m.flags.fin {
          DoTakeFin();
          finConsumed := true;
          shouldAck := true;
        }
      } else if m.seqNum > rcvNxt {
        var buffered := ComputeBufferedBytes();
        if m.data != [] && buffered + |m.data| <= recvCap {
          ooo := ooo[m.seqNum := m.data];
        }
        shouldAck := true;
      } else {
        shouldAck := m.data != [] || m.flags.fin;
      }
    }

    method DoReceive(m: Segment) returns (finConsumed: bool)
      modifies this
      ensures View() == Receive(old(View()), m)
      ensures finConsumed == TakesFin(old(View()), m)
    {
      var shouldAck;
      finConsumed, shouldAck := DoAbsorb(m);
      if shouldAck {
        DoSendAckOnly();
      }
    }

    method DoEnterTimeWait(now: nat)
      modifies this
      ensures View() == EnterTimeWait(old(View()), now)
    {
      state := TimeWait;
      timeWaitDeadline := now + TIME_WAIT_DURATION;
    }

    method DoSynchronise(m: Segment)
      modifies this
      ensures View() == Synchronised(old(View()), m)
    {
      irs := m.seqNum;
      rcvNxt := Add(m.seqNum, 1);
      h := h.(synced := true);
    }

    method DoSynSent(m: Segment)
      modifies this
      ensures View() == OnSynSent(old(View()), m)
    {
      if m.flags.syn && m.flags.ack && m.ackNum == sndNxt {
        DoSynchronise(m);
        sndUna := m.ackNum;
        sndWnd := m.window;
        DoRemoveAcked(sndUna);
        state := Established;
        DoSendAckOnly();
      }
    }

    method DoSynRcvd(m: Segment)
      modifies this
      ensures View() == OnSynRcvd(old(View()), m)
    {
      if m.flags.ack && m.ackNum == sndNxt {
        sndUna := m.ackNum;
        DoRemoveAcked(sndUna);
        sndWnd := m.window;
        state := Established;
        if m.data != [] || m.flags.fin {
          var fin := DoReceive(m);
          if fin {
            state := CloseWait;
          }
        }
      }
    }

    method DoEstablished(m: Segment, now: nat)
      modifies this
      ensures View() == OnEstablished(old(View()), m, now)
    {
      DoProcessAck(m);
      var fin := DoReceive(m);
      if fin {
        state := CloseWait;
      }
      DoFlushSend(now);
    }

    method DoFinWait1(m: Segment, now: nat)
      modifies this
      ensures View() == OnFinWait1(old(View()), m, now)
    {
      DoProcessAck(m);
      var ourFinAcked := m.flags.ack && m.ackNum == sndNxt;
      var fin := DoReceive(m);
      if ourFinAcked && fin {
        DoEnterTimeWait(now);
      } else if ourFinAcked {
        state := FinWait2;
      } else if fin {
        state := Closing;
      }
    }

    method DoFinWait2(m: Segment, now: nat)
      modifies this
      ensures View() == OnFinWait2(old(View()), m, now)
    {
      DoProcessAck(m);
      var fin := DoReceive(m);
      if fin {
        DoEnterTimeWait(now);
      }
    }

    method DoClosing(m: Segment, now: nat)
      modifies this
      ensures View() == OnClosing(old(View()), m, now)
    {
      DoProcessAck(m);
      if m.flags.ack && m.ackNum == sndNxt {
        DoEnterTimeWait(now);
      }
    }

    method DoLastAck(m: Segment)
      modifies this
      ensures View() == OnLastAck(old(View()), m)
    {
      DoProcessAck(m);
      if m.flags.ack && m.ackNum == sndNxt {
        state := Closed;
      }
    }

    method DoTimeWait(m: Segment, now: nat)
      modifies this
      ensures View() == OnTimeWait(old(View()), m, now)
    {
      if m.flags.fin {
        DoSendAckOnly();
        timeWaitDeadline := now + TIME_WAIT_DURATION;
      }
    }

    method DoProcessSegment(m: Segment, now: nat)
      modifies this
      ensures View() == ProcessSegment(old(View()), m, now)
    {
      if m.flags.rst && state != Closed && state != Listen {
        state := Closed;
      } else {
        match state {
          case SynSent => DoSynSent(m);
          case SynRcvd => DoSynRcvd(m);
          case Established => DoEstablished(m, now);
          case FinWait1 => DoFinWait1(m, now);
          case FinWait2 => DoFinWait2(m, now);
          case Closing => DoClosing(m, now);
          case CloseWait =>
            DoProcessAck(m);
            DoFlushSend(now);
          case LastAck => DoLastAck(m);
          case TimeWait => DoTimeWait(m, now);
          case Closed =>
          case Listen =>
        }
      }
    }

    method DoProbe(now: nat)
      modifies this
      ensures View() == Probe(old(View()), now)
    {
      if state == Established || state == CloseWait {
        if probeDeadline.Some? && now >= probeDeadline.value {
          var probeSeq := Add(sndUna, MOD - 1);
          var _ := DoSendSegment(ACK, probeSeq, [0]);
          probeRto := Min(probeRto * 2, MAX_RTO);
          probeDeadline := Some(now + probeRto);
        }
      } else {
        probeDeadline := None;
      }
    }

    /** The retransmission timer; false if the connection gives up. */
    method DoRetransmit(now: nat) returns (alive: bool)
      modifies this
      ensures alive == !GivesUp(old(View()), now)
      ensures View() == if alive then Retransmit(old(View()), now) else old(View()).(state := Closed)
    {
      if queue != [] {
        var front := queue[0];
        if now >= front.sentAt + front.rto {
          if front.retryCount >= MAX_RETRIES {
            state := Closed;
            return false;
          }
          var _ := DoSendSegment(front.flags, front.seqNum, front.data);
          var rto := Min(front.rto * 2, MAX_RTO);
          queue := queue[0 := front.(sentAt := now, rto := rto, retryCount := front.retryCount + 1,
                                     sends := front.sends + [now])];
        }
      }
      return true;
    }

    /** The body of `TcpTable::tick`'s loop over connections. */
    method DoTick(now: nat)
      modifies this
      ensures View() == Tick(old(View()), now)
    {
      if state == TimeWait {
        if now >= timeWaitDeadline {
          state := Closed;
        }
        return;
      }
      DoProbe(now);
      var alive := DoRetransmit(now);
      if alive {
        DoFlushSend(now);
      }
    }

    method DoSend(data: seq<Byte>, now: nat) returns (n: nat)
      modifies this
      ensures View() == Send(old(View()), data, now)
      ensures n == Accepts(old(View()), data)
    {
      var room := if sendCap >= |pending| then sendCap - |pending| else 0;
      n := Min(|data|, room);
      pending := pending + data[..n];
      h := h.(accepted := h.accepted + data[..n]);
      DoFlushSend(now);
    }

    /** Copies at most `buf.Length` bytes out; the rest of `buf` is left as it was. */
    method DoRecv(buf: array<Byte>) returns (n: nat)
      modifies this, buf
      ensures View() == Recv(old(View()), buf.Length)
      ensures n == Min(buf.Length, |old(recvBuf)|)
      ensures buf[..n] == old(recvBuf)[..n] && buf[n..] == old(buf[..])[n..]
      ensures h.handed == old(h.handed) + buf[..n]
    {
      n := Min(buf.Length, |recvBuf|);
      if n > 0 {
        forall i | 0 <= i < n {
          buf[i] := recvBuf[i];
        }
        h := h.(handed := h.handed + recvBuf[..n]);
        recvBuf := recvBuf[n..];
      }
    }

    method DoClose(now: nat)
      modifies this
      ensures View() == Close(old(View()), now)
    {
      match state {
        case Established | CloseWait =>
          pendingClose := true;
          DoFlushSend(now);
        case SynSent | Listen =>
          state := Closed;
        case _ =>
      }
    }
  }

  /** Active open: `TcpTable::connect` for one connection. */
  method DoConnect(iss: U32, now: nat) returns (conn: TcpConnection)
    ensures fresh(conn) && conn.View() == Connect(iss, now)
  {
    conn := new TcpConnection(iss, SynSent);
    conn.DoQueueAndSend(SYN, [], now);
  }

  /** Passive open: a SYN that reached a listening port. */
  method DoPassiveOpen(m: Segment, iss: U32, now: nat) returns (conn: TcpConnection)
    ensures fresh(conn) && conn.View() == PassiveOpen(m, iss, now)
  {
    conn := new TcpConnection.FromSyn(m, iss);
    conn.DoQueueAndSend(SYN_ACK, [], now);
  }
}
