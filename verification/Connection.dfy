/**
 The TCP connection engine of src/tcp.rs as functions on values: one `Conn` is
 a snapshot of a `TcpConnection`, and each function is the effect of one Rust
 function on it.  The class in TcpConnection.dfy does the same in place and is
 proved equal to these functions.
 */
module Connection {
  import opened SeqSpace

  type Byte = x: int | 0 <= x < 256

  const MSS: nat := 1400
  const INITIAL_RTO: nat := 500
  const MAX_RTO: nat := 8000
  const MAX_RETRIES: nat := 6
  const TIME_WAIT_DURATION: nat := 4000
  const DEFAULT_RECV_BUFFER_CAP: nat := 65536
  const DEFAULT_SEND_BUFFER_CAP: nat := 0x10_0000

  datatype Option<+T> = None | Some(value: T)

  /** The flag bits the engine looks at. */
  datatype Flags = Flags(fin: bool, syn: bool, rst: bool, psh: bool, ack: bool)

  const SYN := Flags(false, true, false, false, false)
  const SYN_ACK := Flags(false, true, false, false, true)
  const ACK := Flags(false, false, false, false, true)
  const PSH_ACK := Flags(false, false, false, true, true)
  const FIN_ACK := Flags(true, false, false, false, true)
  const RST := Flags(false, false, true, false, false)
  const RST_ACK := Flags(false, false, true, false, true)

  datatype Segment = Segment(seqNum: U32, ackNum: U32, flags: Flags, window: U16, data: seq<Byte>)

  datatype TcpState =
    | Closed | Listen | SynSent | SynRcvd | Established | FinWait1
    | FinWait2 | Closing | TimeWait | CloseWait | LastAck

  /** A segment kept for retransmission.  `sends`, the times it was put on the link, is history. */
  datatype Unacked = Unacked(
    seqNum: U32, flags: Flags, data: seq<Byte>,
    sentAt: nat, rto: nat, retryCount: nat,
    sends: seq<nat>)

  /** What happened so far.  Nothing the engine does depends on it. */
  datatype History = History(
    sent: seq<Segment>,     // every segment written to the link, in order
    accepted: seq<Byte>,    // every byte `send` accepted
    out: seq<Byte>,         // every byte moved from `pending` into the queue
    cuts: set<nat>,         // stream offsets at which `out` was cut into segments
    popped: seq<Byte>,      // every byte that left the queue
    handed: seq<Byte>,      // every byte `recv` gave to the application
    fins: nat,              // FINs queued
    finsTaken: nat,         // peer FINs consumed
    synced: bool)           // the peer's initial sequence number is known

  /** The connection record, and beside it the history `h`. */
  datatype Conn = Conn(
    state: TcpState,
    iss: U32, sndUna: U32, sndNxt: U32, sndWnd: U32,
    irs: U32, rcvNxt: U32,
    queue: seq<Unacked>,
    ooo: map<U32, seq<Byte>>,
    recvBuf: seq<Byte>,
    pending: seq<Byte>,
    timeWaitDeadline: nat,
    probeDeadline: Option<nat>,
    probeRto: nat,
    pendingClose: bool,
    recvCap: nat,
    sendCap: nat,
    h: History)

  /** Sequence numbers a segment occupies. */
  function SegLen(flags: Flags, data: seq<Byte>): nat {
    |data| + (if flags.syn then 1 else 0) + (if flags.fin then 1 else 0)
  }

  function End(u: Unacked): U32 {
    Add(u.seqNum, SegLen(u.flags, u.data))
  }

  /** `TcpConnection::new()`. */
  function NewConn(): Conn {
    Conn(Closed, 0, 0, 0, 65535, 0, 0, [], map[], [], [], 0, None, INITIAL_RTO, false,
         DEFAULT_RECV_BUFFER_CAP, DEFAULT_SEND_BUFFER_CAP,
         History([], [], [], {0}, [], [], 0, 0, false))
  }

  // ---------------------------------------------------------------- receive buffers

  /** Total payload held in the out-of-order buffer. */
  ghost function SumLens(m: map<U32, seq<Byte>>): nat {
    if m == map[] then 0 else
      var k :| k in m;
      |m[k]| + SumLens(m - {k})
  }

  /** The sum does not depend on the order in which the entries are visited. */
  lemma {:induction false} SumLensRemove(m: map<U32, seq<Byte>>, k: U32)
    requires k in m
    ensures SumLens(m) == |m[k]| + SumLens(m - {k})
    decreases |m|
  {
    var j :| j in m && SumLens(m) == |m[j]| + SumLens(m - {j});
    if j != k {
      SumLensRemove(m - {j}, k);
      SumLensRemove(m - {k}, j);
      assert m - {j} - {k} == m - {k} - {j};
    }
  }

  ghost function BufferedBytes(c: Conn): nat {
    |c.recvBuf| + SumLens(c.ooo)
  }

  ghost function AdvertiseWindow(c: Conn): U16 {
    var used := BufferedBytes(c);
    if used >= c.recvCap then 0 else Min(c.recvCap - used, 65535)
  }

  // ---------------------------------------------------------------- sending

  /** Puts a segment on the link. */
  function Log(c: Conn, m: Segment): Conn {
    c.(h := c.h.(sent := c.h.sent + [m]))
  }

  ghost function SendSegment(c: Conn, flags: Flags, seqNum: U32, data: seq<Byte>): Conn {
    Log(c, Segment(seqNum, if flags.ack then c.rcvNxt else 0, flags, AdvertiseWindow(c), data))
  }

  ghost function SendAckOnly(c: Conn): Conn {
    SendSegment(c, ACK, c.sndNxt, [])
  }

  ghost function QueueAndSend(c: Conn, flags: Flags, data: seq<Byte>, now: nat): Conn {
    var c1 := SendSegment(c, flags, c.sndNxt, data);
    c1.(queue := c.queue + [Unacked(c.sndNxt, flags, data, now, INITIAL_RTO, 0, [now])],
        sndNxt := Add(c.sndNxt, SegLen(flags, data)),
        h := c1.h.(out := c.h.out + data,
                   cuts := c.h.cuts + {|c.h.out| + |data|},
                   fins := c.h.fins + if flags.fin then 1 else 0))
  }

  ghost function RemoveAcked(c: Conn, newUna: U32): Conn
    decreases |c.queue|
  {
    if c.queue != [] && End(c.queue[0]) <= newUna then
      RemoveAcked(c.(queue := c.queue[1..], h := c.h.(popped := c.h.popped + c.queue[0].data)), newUna)
    else
      c
  }

  ghost function ProcessAck(c: Conn, m: Segment): Conn {
    if !m.flags.ack then c else
      var c1 := if m.ackNum > c.sndUna then RemoveAcked(c.(sndUna := m.ackNum), m.ackNum) else c;
      var c2 := c1.(sndWnd := m.window);
      if m.window != 0 then c2.(probeDeadline := None, probeRto := INITIAL_RTO) else c2
  }

  predicate CanSend(s: TcpState) {
    s == Established || s == CloseWait
  }

  ghost function SendChunk(c: Conn, now: nat): Conn
    requires c.pending != [] && Off(c.sndUna, c.sndNxt) < c.sndWnd
  {
    var n := Min(MSS, Min(c.sndWnd - Off(c.sndUna, c.sndNxt), |c.pending|));
    QueueAndSend(c, PSH_ACK, c.pending[..n], now).(pending := c.pending[n..])
  }

  ghost function FlushLoop(c: Conn, now: nat): Conn
    decreases |c.pending|
  {
    if c.pending != [] && Off(c.sndUna, c.sndNxt) < c.sndWnd then FlushLoop(SendChunk(c, now), now) else c
  }

  ghost function ArmProbe(c: Conn, now: nat): Conn {
    if c.sndWnd == 0 && c.pending != [] && c.probeDeadline.None? then
      c.(probeDeadline := Some(now + INITIAL_RTO))
    else c
  }

  ghost function SendFin(c: Conn, now: nat): Conn {
    QueueAndSend(c, FIN_ACK, [], now).(
      state := if c.state == Established then FinWait1 else LastAck,
      pendingClose := false)
  }

  ghost function FlushSend(c: Conn, now: nat): Conn {
    if !CanSend(c.state) then c else
      var c1 := FlushLoop(ArmProbe(c, now), now);
      if c1.pendingClose && c1.pending == [] then SendFin(c1, now) else c1
  }

  // ---------------------------------------------------------------- receiving

  /** Moves buffered segments that have become contiguous into the receive buffer. */
  ghost function Splice(c: Conn): Conn
    decreases |c.ooo|
  {
    if c.rcvNxt in c.ooo then Splice(TakeBuffered(c)) else c
  }

  ghost function TakeBuffered(c: Conn): (r: Conn)
    requires c.rcvNxt in c.ooo
    ensures |r.ooo| < |c.ooo|
  {
    var d := c.ooo[c.rcvNxt];
    assert |c.ooo.Keys - {c.rcvNxt}| < |c.ooo.Keys|;
    assert (c.ooo - {c.rcvNxt}).Keys == c.ooo.Keys - {c.rcvNxt};
    c.(ooo := c.ooo - {c.rcvNxt}, rcvNxt := Add(c.rcvNxt, |d|), recvBuf := c.recvBuf + d)
  }

  ghost function TakeData(c: Conn, data: seq<Byte>): Conn {
    c.(recvBuf := c.recvBuf + data, rcvNxt := Add(c.rcvNxt, |data|))
  }

  ghost function TakeFin(c: Conn): Conn {
    c.(rcvNxt := Add(c.rcvNxt, 1), h := c.h.(finsTaken := c.h.finsTaken + 1))
  }

  /** The state after `receive_data_and_maybe_fin`, before the acknowledgement. */
  ghost function Absorb(c: Conn, m: Segment): Conn {
    if m.seqNum == c.rcvNxt then
      var c1 := Splice(TakeData(c, m.data));
      if m.flags.fin then TakeFin(c1) else c1
    else if m.seqNum > c.rcvNxt && m.data != [] && BufferedBytes(c) + |m.data| <= c.recvCap then
      c.(ooo := c.ooo[m.seqNum := m.data])
    else c
  }

  ghost predicate ShouldAck(c: Conn, m: Segment) {
    || m.data != []
    || m.flags.fin
    || m.seqNum > c.rcvNxt
    || (m.seqNum == c.rcvNxt && c.rcvNxt in c.ooo)
  }

  ghost predicate TakesFin(c: Conn, m: Segment) {
    m.seqNum == c.rcvNxt && m.flags.fin
  }

  ghost function Receive(c: Conn, m: Segment): Conn {
    if ShouldAck(c, m) then SendAckOnly(Absorb(c, m)) else Absorb(c, m)
  }

  ghost function EnterTimeWait(c: Conn, now: nat): Conn {
    c.(state := TimeWait, timeWaitDeadline := now + TIME_WAIT_DURATION)
  }

  ghost predicate AcksAll(c: Conn, m: Segment) {
    m.flags.ack && m.ackNum == c.sndNxt
  }

  // ---------------------------------------------------------------- one segment, by state

  /** Learning the peer's initial sequence number. */
  ghost function Synchronised(c: Conn, m: Segment): Conn {
    c.(irs := m.seqNum, rcvNxt := Add(m.seqNum, 1), h := c.h.(synced := true))
  }

  ghost function LearnPeer(c: Conn, m: Segment): Conn {
    Synchronised(c, m).(sndUna := m.ackNum, sndWnd := m.window)
  }

  ghost function OnSynSent(c: Conn, m: Segment): Conn {
    if m.flags.syn && AcksAll(c, m) then
      SendAckOnly(RemoveAcked(LearnPeer(c, m), m.ackNum).(state := Established))
    else c
  }

  ghost function OnSynRcvd(c: Conn, m: Segment): Conn {
    if AcksAll(c, m) then
      var c1 := RemoveAcked(c.(sndUna := m.ackNum), m.ackNum).(sndWnd := m.window, state := Established);
      if m.data != [] || m.flags.fin then
        var c2 := Receive(c1, m);
        if TakesFin(c1, m) then c2.(state := CloseWait) else c2
      else c1
    else c
  }

  ghost function OnEstablished(c: Conn, m: Segment, now: nat): Conn {
    var c1 := ProcessAck(c, m);
    var c2 := Receive(c1, m);
    FlushSend(if TakesFin(c1, m) then c2.(state := CloseWait) else c2, now)
  }

  ghost function OnFinWait1(c: Conn, m: Segment, now: nat): Conn {
    var c1 := ProcessAck(c, m);
    var c2 := Receive(c1, m);
    if AcksAll(c1, m) && TakesFin(c1, m) then EnterTimeWait(c2, now)
    else if AcksAll(c1, m) then c2.(state := FinWait2)
    else if TakesFin(c1, m) then c2.(state := Closing)
    else c2
  }

  ghost function OnFinWait2(c: Conn, m: Segment, now: nat): Conn {
    var c1 := ProcessAck(c, m);
    var c2 := Receive(c1, m);
    if TakesFin(c1, m) then EnterTimeWait(c2, now) else c2
  }

  ghost function OnClosing(c: Conn, m: Segment, now: nat): Conn {
    var c1 := ProcessAck(c, m);
    if AcksAll(c1, m) then EnterTimeWait(c1, now) else c1
  }

  ghost function OnLastAck(c: Conn, m: Segment): Conn {
    var c1 := ProcessAck(c, m);
    if AcksAll(c1, m) then c1.(state := Closed) else c1
  }

  ghost function OnTimeWait(c: Conn, m: Segment, now: nat): Conn {
    if m.flags.fin then SendAckOnly(c).(timeWaitDeadline := now + TIME_WAIT_DURATION) else c
  }

  ghost function ProcessSegment(c: Conn, m: Segment, now: nat): Conn {
    if m.flags.rst && c.state != Closed && c.state != Listen then c.(state := Closed) else
      match c.state
      case SynSent => OnSynSent(c, m)
      case SynRcvd => OnSynRcvd(c, m)
      case Established => OnEstablished(c, m, now)
      case FinWait1 => OnFinWait1(c, m, now)
      case FinWait2 => OnFinWait2(c, m, now)
      case Closing => OnClosing(c, m, now)
      case CloseWait => FlushSend(ProcessAck(c, m), now)
      case LastAck => OnLastAck(c, m)
      case TimeWait => OnTimeWait(c, m, now)
      case Closed => c
      case Listen => c
  }

  // ---------------------------------------------------------------- timers

  /** The persist timer: one already-used sequence number with a dummy byte. */
  ghost function Probe(c: Conn, now: nat): Conn {
    if !CanSend(c.state) then c.(probeDeadline := None)
    else if c.probeDeadline.Some? && now >= c.probeDeadline.value then
      var rto := Min(c.probeRto * 2, MAX_RTO);
      SendSegment(c, ACK, Add(c.sndUna, MOD - 1), [0]).(probeRto := rto, probeDeadline := Some(now + rto))
    else c
  }

  predicate Expired(u: Unacked, now: nat) {
    now >= u.sentAt + u.rto
  }

  ghost predicate GivesUp(c: Conn, now: nat) {
    c.queue != [] && Expired(c.queue[0], now) && c.queue[0].retryCount >= MAX_RETRIES
  }

  ghost function Retransmit(c: Conn, now: nat): Conn {
    if c.queue != [] && Expired(c.queue[0], now) then
      var f := c.queue[0];
      SendSegment(c, f.flags, f.seqNum, f.data).(
        queue := c.queue[0 := f.(sentAt := now, rto := Min(f.rto * 2, MAX_RTO), retryCount := f.retryCount + 1,
                                sends := f.sends + [now])])
    else c
  }

  ghost function Tick(c: Conn, now: nat): Conn {
    if c.state == TimeWait then
      if now >= c.timeWaitDeadline then c.(state := Closed) else c
    else
      var c1 := Probe(c, now);
      if GivesUp(c1, now) then c1.(state := Closed)
      else FlushSend(Retransmit(c1, now), now)
  }

  // ---------------------------------------------------------------- application calls

  ghost function Accepts(c: Conn, data: seq<Byte>): (n: nat)
    ensures n <= |data|
  {
    Min(|data|, if c.sendCap > |c.pending| then c.sendCap - |c.pending| else 0)
  }

  ghost function Backlogged(c: Conn, d: seq<Byte>): Conn {
    c.(pending := c.pending + d, h := c.h.(accepted := c.h.accepted + d))
  }

  ghost function Send(c: Conn, data: seq<Byte>, now: nat): Conn {
    FlushSend(Backlogged(c, data[..Accepts(c, data)]), now)
  }

  ghost function Recv(c: Conn, room: nat): Conn {
    var n := Min(room, |c.recvBuf|);
    c.(recvBuf := c.recvBuf[n..], h := c.h.(handed := c.h.handed + c.recvBuf[..n]))
  }

  ghost function Close(c: Conn, now: nat): Conn {
    if CanSend(c.state) then FlushSend(c.(pendingClose := true), now)
    else if c.state == SynSent || c.state == Listen then c.(state := Closed)
    else c
  }

  ghost function Connect(iss: U32, now: nat): Conn {
    QueueAndSend(NewConn().(iss := iss, sndUna := iss, sndNxt := iss, state := SynSent), SYN, [], now)
  }

  ghost function FreshFromSyn(m: Segment, iss: U32): Conn {
    var c := NewConn();
    c.(irs := m.seqNum, rcvNxt := Add(m.seqNum, 1), h := c.h.(synced := true),
       iss := iss, sndUna := iss, sndNxt := iss, sndWnd := m.window, state := SynRcvd)
  }

  /** What `handle_segment` does with a SYN that reaches a listening port. */
  ghost function PassiveOpen(m: Segment, iss: U32, now: nat): Conn {
    QueueAndSend(FreshFromSyn(m, iss), SYN_ACK, [], now)
  }
}
