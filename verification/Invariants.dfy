/**
 What every reachable state of two connected endpoints satisfies.  Sequence
 numbers are compared by their distance from the sender's initial sequence
 number, so nothing here assumes that the 32-bit counters do not wrap: it is
 enough that one direction uses fewer than 2^32 sequence numbers in all.
 */
module Invariants {
  import opened SeqSpace
  import opened Connection

  /** The byte stream one side has put on the link so far, and how it was cut into segments. */
  datatype Stream = Stream(iss: U32, out: seq<Byte>, cuts: set<nat>, fins: nat)

  function StreamOf(c: Conn): Stream {
    Stream(c.iss, c.h.out, c.h.cuts, c.h.fins)
  }

  /** SYN, data and FIN together use fewer than 2^32 sequence numbers. */
  predicate Fits(c: Conn) {
    |c.h.out| + 2 < MOD
  }

  function Delivered(c: Conn): seq<Byte> {
    c.h.handed + c.recvBuf
  }

  // ---------------------------------------------------------------- segments on the link

  /** `d` at sequence number `s` is one whole segment of the stream. */
  ghost predicate ChunkAt(t: Stream, s: U32, d: seq<Byte>) {
    var o := Off(t.iss, s) - 1;
    && d != []
    && 0 <= o && o + |d| <= |t.out|
    && d == t.out[o..o + |d|]
    && o in t.cuts && o + |d| in t.cuts
    && forall x :: x in t.cuts ==> x <= o || o + |d| <= x
  }

  /** A segment that says nothing but the truth about the stream. */
  ghost predicate Honest(t: Stream, m: Segment) {
    && (m.flags.syn ==> m.seqNum == t.iss && m.data == [] && !m.flags.fin)
    && (m.data != [] ==> m.flags.psh && !m.flags.fin && ChunkAt(t, m.seqNum, m.data))
    && (m.flags.fin ==> t.fins == 1 && Off(t.iss, m.seqNum) == |t.out| + 1)
  }

  /** A persist probe: a dummy byte at a sequence number below `hi`. */
  ghost predicate StaleProbe(t: Stream, hi: nat, m: Segment) {
    && !m.flags.syn && !m.flags.fin && !m.flags.psh
    && |m.data| == 1
    && Off(t.iss, m.seqNum) < hi
  }

  ghost predicate SegOk(t: Stream, hi: nat, m: Segment) {
    m.flags.rst || Honest(t, m) || StaleProbe(t, hi, m)
  }

  // ---------------------------------------------------------------- one endpoint

  /** Bytes held for retransmission, front first. */
  function QueueBytes(q: seq<Unacked>): seq<Byte> {
    if q == [] then [] else q[0].data + QueueBytes(q[1..])
  }

  ghost predicate EntryOk(t: Stream, synced: bool, u: Unacked) {
    && !u.flags.rst
    && (u.flags.ack ==> synced)
    && (u.data != [] ==> u.flags.ack)
    && SegLen(u.flags, u.data) > 0
    && |u.data| <= MSS
    && Honest(t, Segment(u.seqNum, 0, u.flags, 0, u.data))
    && (u.flags.fin ==> u.data == [])
  }

  /** Offset at which the entry after `i` begins: the queue is contiguous and ends at `sndNxt`. */
  function NextOff(c: Conn, i: nat): nat
    requires i < |c.queue|
  {
    Off(c.iss, if i + 1 < |c.queue| then c.queue[i + 1].seqNum else c.sndNxt)
  }

  ghost predicate QueueOk(c: Conn) {
    && (forall i :: 0 <= i < |c.queue| ==> EntryOk(StreamOf(c), c.h.synced, c.queue[i]))
    && (forall i {:trigger NextOff(c, i)} :: 0 <= i < |c.queue| ==>
          Off(c.iss, c.queue[i].seqNum) + SegLen(c.queue[i].flags, c.queue[i].data) == NextOff(c, i))
    && (c.queue != [] && !c.queue[0].flags.syn ==> Off(c.iss, c.queue[0].seqNum) == 1 + |c.h.popped|)
    && (c.queue != [] && c.queue[0].flags.syn ==> c.h.popped == [])
  }

  ghost predicate CutsOk(t: Stream) {
    0 in t.cuts && |t.out| in t.cuts && forall x :: x in t.cuts ==> x <= |t.out|
  }

  /** The sending half. */
  ghost predicate TxOk(c: Conn) {
    && Fits(c)
    && c.h.fins <= 1
    && Off(c.iss, c.sndNxt) == 1 + |c.h.out| + c.h.fins
    && c.h.out + c.pending == c.h.accepted
    && c.h.popped + QueueBytes(c.queue) == c.h.out
    && CutsOk(StreamOf(c))
    && QueueOk(c)
  }

  ghost predicate AckHonest(c: Conn, m: Segment) {
    !m.flags.rst && m.flags.ack ==>
      c.h.synced && 1 <= Off(c.irs, m.ackNum) <= Off(c.irs, c.rcvNxt)
  }

  /** Every acknowledgement ever sent is covered by what has been received. */
  ghost predicate AcksOk(c: Conn) {
    && (c.h.synced ==> 1 <= Off(c.irs, c.rcvNxt))
    && (forall m :: m in c.h.sent ==> AckHonest(c, m))
    && (!c.h.synced ==> c.h.handed == [] && c.recvBuf == [] && c.ooo == map[] && c.h.finsTaken == 0)
  }

  ghost predicate Local(c: Conn) {
    TxOk(c) && AcksOk(c)
  }

  // ---------------------------------------------------------------- a sender and its receiver

  /** A buffered out-of-order segment is a segment of the stream, or lies behind what was delivered. */
  ghost predicate BufferedOk(t: Stream, rcvNxt: U32, k: U32, d: seq<Byte>) {
    d != [] && (Off(t.iss, k) < Off(t.iss, rcvNxt) || ChunkAt(t, k, d))
  }

  /** The receiving half, against the stream of the other side. */
  ghost predicate RxOk(t: Stream, r: Conn) {
    && r.irs == t.iss
    && r.h.finsTaken <= t.fins
    && Off(t.iss, r.rcvNxt) == 1 + |Delivered(r)| + r.h.finsTaken
    && Delivered(r) <= t.out
    && |Delivered(r)| in t.cuts
    && (r.h.finsTaken > 0 ==> |Delivered(r)| == |t.out|)
    && forall k :: k in r.ooo ==> BufferedOk(t, r.rcvNxt, k, r.ooo[k])
  }

  /** How far into `s`'s sequence space the receiver has got. */
  function Reach(s: Conn, r: Conn): nat {
    if r.h.synced then Off(s.iss, r.rcvNxt) else 0
  }

  ghost predicate Link(s: Conn, r: Conn) {
    && (r.h.synced ==> RxOk(StreamOf(s), r))
    && Off(s.iss, s.sndUna) <= Reach(s, r)
    && forall m :: m in s.h.sent ==> SegOk(StreamOf(s), Reach(s, r), m)
  }

  ghost predicate Pair(x: Conn, y: Conn) {
    Local(x) && Local(y) && Link(x, y) && Link(y, x)
  }

  // ---------------------------------------------------------------- the state label

  predicate FinSentState(s: TcpState) {
    s in {FinWait1, FinWait2, Closing, LastAck, TimeWait}
  }

  predicate FinTakenState(s: TcpState) {
    s in {CloseWait, Closing, LastAck, TimeWait}
  }

  /** The state label agrees with the facts it stands for. */
  ghost predicate LabelCore(c: Conn) {
    && c.state != Listen
    && c.h.fins <= 1
    && c.h.finsTaken <= 1
    && (c.state != Closed ==>
          && (c.h.fins == 1 <==> FinSentState(c.state))
          && (c.h.finsTaken == 1 <==> FinTakenState(c.state))
          && (c.pendingClose ==> CanSend(c.state))
          && (c.h.synced <==> c.state != SynSent)
          && (if c.state == SynSent || c.state == SynRcvd then c.h.out == [] && c.sndUna == c.iss
              else c.sndUna != c.iss))
  }

  /** A deferred close is pending only while there is a backlog to drain first. */
  ghost predicate LabelOk(c: Conn) {
    LabelCore(c) && (c.state != Closed && c.pendingClose ==> c.pending != [])
  }
}
