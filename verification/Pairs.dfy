/** Each step of one endpoint keeps it consistent with its peer. */
module Pairs {
  import opened SeqSpace
  import opened Connection
  import opened Invariants

  // ---------------------------------------------------------------- growth of a stream

  /** `u` is `t` with more bytes or a FIN added at the end. */
  ghost predicate Grows(t: Stream, u: Stream) {
    && t.iss == u.iss
    && t.out <= u.out
    && t.cuts <= u.cuts
    && t.fins <= u.fins
    && (forall x :: x in u.cuts && x !in t.cuts ==> |t.out| <= x)
    && (t.fins > 0 ==> u.out == t.out)
  }

  lemma ChunkGrows(t: Stream, u: Stream, s: U32, d: seq<Byte>)
    requires Grows(t, u) && ChunkAt(t, s, d)
    ensures ChunkAt(u, s, d)
  {
    var o := Off(t.iss, s) - 1;
    assert t.out[o..o + |d|] == u.out[o..o + |d|];
  }

  lemma SegGrows(t: Stream, u: Stream, lo: nat, hi: nat, m: Segment)
    requires Grows(t, u) && lo <= hi && u.fins <= 1 && SegOk(t, lo, m)
    ensures SegOk(u, hi, m)
  {
    if Honest(t, m) && m.data != [] {
      ChunkGrows(t, u, m.seqNum, m.data);
    }
  }

  lemma EntryGrows(t: Stream, u: Stream, synced: bool, e: Unacked)
    requires Grows(t, u) && u.fins <= 1 && EntryOk(t, synced, e)
    ensures EntryOk(u, synced, e)
  {
    SegGrows(t, u, 0, 0, Segment(e.seqNum, 0, e.flags, 0, e.data));
  }

  lemma RxGrows(t: Stream, u: Stream, r: Conn)
    requires Grows(t, u) && RxOk(t, r)
    ensures RxOk(u, r)
  {
    forall k | k in r.ooo
      ensures BufferedOk(u, r.rcvNxt, k, r.ooo[k])
    {
      assert BufferedOk(t, r.rcvNxt, k, r.ooo[k]);
      if ChunkAt(t, k, r.ooo[k]) {
        ChunkGrows(t, u, k, r.ooo[k]);
      }
    }
  }

  // ---------------------------------------------------------------- what each half depends on

  /** The sending half is untouched. */
  predicate SameTx(x: Conn, x': Conn) {
    && x'.iss == x.iss && x'.sndNxt == x.sndNxt
    && x'.queue == x.queue && x'.pending == x.pending
    && x'.h.out == x.h.out && x'.h.cuts == x.h.cuts && x'.h.fins == x.h.fins
    && x'.h.accepted == x.h.accepted && x'.h.popped == x.h.popped
    && (x.h.synced ==> x'.h.synced)
  }

  /** The receiving half is untouched. */
  predicate SameRx(x: Conn, x': Conn) {
    && x'.irs == x.irs && x'.rcvNxt == x.rcvNxt
    && x'.ooo == x.ooo && x'.recvBuf == x.recvBuf
    && x'.h.handed == x.h.handed && x'.h.finsTaken == x.h.finsTaken
    && x'.h.synced == x.h.synced
  }

  lemma TxSame(x: Conn, x': Conn)
    requires TxOk(x) && SameTx(x, x')
    ensures TxOk(x')
  {
    forall i | 0 <= i < |x'.queue|
      ensures EntryOk(StreamOf(x'), x'.h.synced, x'.queue[i])
      ensures Off(x'.iss, x'.queue[i].seqNum) + SegLen(x'.queue[i].flags, x'.queue[i].data) == NextOff(x', i)
    {
      assert EntryOk(StreamOf(x), x.h.synced, x.queue[i]);
      assert NextOff(x', i) == NextOff(x, i);
    }
  }

  /** The peer's stream, seen from an untouched receiving half. */
  lemma RxSame(x: Conn, x': Conn, y: Conn)
    requires Link(y, x) && SameRx(x, x')
    ensures Link(y, x')
  {
    assert Delivered(x') == Delivered(x);
  }

  lemma AcksSame(x: Conn, x': Conn)
    requires AcksOk(x) && SameRx(x, x')
    requires forall m :: m in x'.h.sent ==> m in x.h.sent || AckHonest(x, m)
    ensures AcksOk(x')
  {
    forall m | m in x'.h.sent
      ensures AckHonest(x', m)
    {
      assert AckHonest(x, m);
    }
  }

  /** Our stream, seen from the peer, after it may have grown. */
  lemma LinkGrows(x: Conn, x': Conn, y: Conn)
    requires Link(x, y) && Grows(StreamOf(x), StreamOf(x')) && x'.h.fins <= 1
    requires Off(x.iss, x'.sndUna) <= Reach(x, y)
    requires forall m :: m in x'.h.sent ==> m in x.h.sent || SegOk(StreamOf(x'), Reach(x, y), m)
    ensures Link(x', y)
  {
    if y.h.synced {
      RxGrows(StreamOf(x), StreamOf(x'), y);
    }
    forall m | m in x'.h.sent
      ensures SegOk(StreamOf(x'), Reach(x', y), m)
    {
      if m in x.h.sent {
        SegGrows(StreamOf(x), StreamOf(x'), Reach(x, y), Reach(x, y), m);
      }
    }
  }

  // ---------------------------------------------------------------- segments put on the link

  lemma LogKeeps(x: Conn, y: Conn, m: Segment)
    requires Pair(x, y)
    requires SegOk(StreamOf(x), Reach(x, y), m) && AckHonest(x, m)
    ensures Pair(Log(x, m), y)
  {
    var x' := Log(x, m);
    TxSame(x, x');
    AcksSame(x, x');
    RxSame(x, x', y);
    LinkGrows(x, x', y);
  }

  lemma AckOnlyKeeps(x: Conn, y: Conn)
    requires Pair(x, y) && x.h.synced
    ensures Pair(SendAckOnly(x), y)
  {
    LogKeeps(x, y, Segment(x.sndNxt, x.rcvNxt, ACK, AdvertiseWindow(x), []));
  }

  /** Fields that neither half depends on may change freely. */
  lemma OtherFieldsKeep(x: Conn, x': Conn, y: Conn)
    requires Pair(x, y)
    requires SameTx(x, x') && SameRx(x, x') && x'.sndUna == x.sndUna && x'.h.sent == x.h.sent
    ensures Pair(x', y)
  {
    TxSame(x, x');
    AcksSame(x, x');
    RxSame(x, x', y);
    LinkGrows(x, x', y);
  }

  // ---------------------------------------------------------------- the sending half

  lemma {:induction false} QueueBytesAppend(q: seq<Unacked>, u: Unacked)
    ensures QueueBytes(q + [u]) == QueueBytes(q) + u.data
  {
    if q == [] {
      assert q + [u] == [u];
      assert QueueBytes([u]) == u.data + QueueBytes([u][1..]);
    } else {
      assert (q + [u])[1..] == q[1..] + [u];
      QueueBytesAppend(q[1..], u);
    }
  }

  /** A segment that `queue_and_send` may take: the handshake SYN is treated separately. */
  predicate Queueable(x: Conn, flags: Flags, data: seq<Byte>) {
    && x.h.synced && x.h.fins == 0
    && |data| <= |x.pending| && data == x.pending[..|data|]
    && ((flags == PSH_ACK && 0 < |data| <= MSS) || (flags == FIN_ACK && data == []))
  }

  /** `queue_and_send` of a chunk of the backlog, or of the FIN. */
  ghost function Queued(x: Conn, flags: Flags, data: seq<Byte>, now: nat): Conn
    requires |data| <= |x.pending|
  {
    QueueAndSend(x, flags, data, now).(pending := x.pending[|data|..])
  }

  /** The same as a relation between the fields that matter. */
  ghost predicate IsQueued(x: Conn, x': Conn, u: Unacked) {
    && |u.data| <= |x.pending|
    && SameRx(x, x')
    && u.seqNum == x.sndNxt
    && x'.iss == x.iss && x'.sndUna == x.sndUna
    && x'.sndNxt == Add(x.sndNxt, SegLen(u.flags, u.data))
    && x'.queue == x.queue + [u]
    && x'.pending == x.pending[|u.data|..]
    && StreamOf(x') == StreamQueued(StreamOf(x), u)
    && x'.h.accepted == x.h.accepted && x'.h.popped == x.h.popped
  }

  function StreamQueued(t: Stream, u: Unacked): Stream {
    Stream(t.iss, t.out + u.data, t.cuts + {|t.out| + |u.data|}, t.fins + if u.flags.fin then 1 else 0)
  }

  lemma StreamQueuedGrows(t: Stream, u: Unacked)
    requires CutsOk(t) && t.fins == 0
    ensures Grows(t, StreamQueued(t, u)) && CutsOk(StreamQueued(t, u))
  {
  }

  /** The new segment is a true piece of the stream. */
  lemma QueuedHonest(t: Stream, u: Unacked, m: Segment)
    requires CutsOk(t) && t.fins == 0
    requires Off(t.iss, u.seqNum) == |t.out| + 1
    requires (u.flags == PSH_ACK && u.data != []) || (u.flags == FIN_ACK && u.data == [])
    requires m.seqNum == u.seqNum && m.flags == u.flags && m.data == u.data
    ensures Honest(StreamQueued(t, u), m)
  {
    var t' := StreamQueued(t, u);
    if u.data != [] {
      assert t'.out[|t.out|..|t.out| + |u.data|] == u.data;
      assert ChunkAt(t', u.seqNum, u.data);
    }
  }

  lemma QueuedQueueOk(x: Conn, x': Conn, u: Unacked)
    requires TxOk(x) && Queueable(x, u.flags, u.data) && IsQueued(x, x', u) && Fits(x')
    ensures QueueOk(x')
  {
    var n := |x.queue|;
    StreamQueuedGrows(StreamOf(x), u);
    QueuedHonest(StreamOf(x), u, Segment(u.seqNum, 0, u.flags, 0, u.data));
    OffAdd(x.iss, x.sndNxt, SegLen(u.flags, u.data));
    forall i | 0 <= i < |x'.queue|
      ensures EntryOk(StreamOf(x'), x'.h.synced, x'.queue[i])
      ensures Off(x'.iss, x'.queue[i].seqNum) + SegLen(x'.queue[i].flags, x'.queue[i].data) == NextOff(x', i)
    {
      if i < n {
        assert x'.queue[i] == x.queue[i];
        EntryGrows(StreamOf(x), StreamOf(x'), true, x.queue[i]);
        assert NextOff(x', i) == NextOff(x, i);
      }
    }
    if n > 0 {
      assert x'.queue[0] == x.queue[0];
    } else {
      assert x.h.popped == x.h.out;
    }
  }

  /** Conservation: what left the backlog is in the queue. */
  lemma CutMoves(out: seq<Byte>, pending: seq<Byte>, n: nat)
    requires n <= |pending|
    ensures out + pending[..n] + pending[n..] == out + pending
  {
  }

  lemma Regrouped(a: seq<Byte>, b: seq<Byte>, c: seq<Byte>)
    ensures a + (b + c) == a + b + c
  {
  }

  lemma QueuedConserves(x: Conn, x': Conn, u: Unacked)
    requires x.h.out + x.pending == x.h.accepted && x.h.popped + QueueBytes(x.queue) == x.h.out
    requires Queueable(x, u.flags, u.data) && IsQueued(x, x', u)
    ensures x'.h.out + x'.pending == x'.h.accepted && x'.h.popped + QueueBytes(x'.queue) == x'.h.out
  {
    CutMoves(x.h.out, x.pending, |u.data|);
    assert u.data == x.pending[..|u.data|];
    QueueBytesAppend(x.queue, u);
    Regrouped(x.h.popped, QueueBytes(x.queue), u.data);
  }

  lemma QueuedTxOk(x: Conn, x': Conn, u: Unacked)
    requires TxOk(x) && Queueable(x, u.flags, u.data) && IsQueued(x, x', u) && Fits(x')
    ensures TxOk(x')
  {
    StreamQueuedGrows(StreamOf(x), u);
    QueuedQueueOk(x, x', u);
    QueuedConserves(x, x', u);
    OffAdd(x.iss, x.sndNxt, SegLen(u.flags, u.data));
  }

  lemma QueuedPair(x: Conn, x': Conn, y: Conn, u: Unacked, m: Segment)
    requires Pair(x, y) && Queueable(x, u.flags, u.data) && IsQueued(x, x', u) && Fits(x')
    requires x'.h.sent == x.h.sent + [m] && m.ackNum == x.rcvNxt
    requires m.seqNum == u.seqNum && m.flags == u.flags && m.data == u.data
    ensures Pair(x', y)
  {
    QueuedTxOk(x, x', u);
    StreamQueuedGrows(StreamOf(x), u);
    QueuedHonest(StreamOf(x), u, m);
    AcksSame(x, x');
    RxSame(x, x', y);
    LinkGrows(x, x', y);
  }

  lemma QueuedIs(x: Conn, flags: Flags, data: seq<Byte>, now: nat)
    requires |data| <= |x.pending| && flags.ack
    ensures IsQueued(x, Queued(x, flags, data, now), Unacked(x.sndNxt, flags, data, now, INITIAL_RTO, 0, [now]))
    ensures Queued(x, flags, data, now).h.sent
         == x.h.sent + [Segment(x.sndNxt, x.rcvNxt, flags, AdvertiseWindow(x), data)]
  {
  }

  lemma QueuedKeeps(x: Conn, y: Conn, flags: Flags, data: seq<Byte>, now: nat)
    requires Pair(x, y) && Queueable(x, flags, data) && Fits(Queued(x, flags, data, now))
    ensures Pair(Queued(x, flags, data, now), y)
  {
    QueuedIs(x, flags, data, now);
    QueuedPair(x, Queued(x, flags, data, now), y,
      Unacked(x.sndNxt, flags, data, now, INITIAL_RTO, 0, [now]),
      Segment(x.sndNxt, x.rcvNxt, flags, AdvertiseWindow(x), data));
  }
}
