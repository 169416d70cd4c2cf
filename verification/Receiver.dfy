/** The receiving half: reassembly only ever delivers a prefix of the peer's stream. */
module Receiver {
  import opened SeqSpace
  import opened Connection
  import opened Invariants
  import opened Pairs

  lemma PrefixExtends(d: seq<Byte>, e: seq<Byte>, out: seq<Byte>)
    requires d <= out && |d| + |e| <= |out| && e == out[|d|..|d| + |e|]
    ensures d + e <= out
  {
    assert out[..|d| + |e|] == out[..|d|] + out[|d|..|d| + |e|];
  }

  /** A segment of the stream that starts exactly at `rcvNxt` can be appended. */
  lemma AppendKeeps(t: Stream, c: Conn, c': Conn, d: seq<Byte>)
    requires RxOk(t, c) && c.h.finsTaken == 0 && |t.out| + 2 < MOD
    requires ChunkAt(t, c.rcvNxt, d)
    requires c'.irs == c.irs && c'.rcvNxt == Add(c.rcvNxt, |d|)
    requires c'.recvBuf == c.recvBuf + d && c'.h.handed == c.h.handed && c'.h.finsTaken == 0
    requires forall k :: k in c'.ooo ==> k in c.ooo && c'.ooo[k] == c.ooo[k]
    ensures RxOk(t, c')
    ensures Off(t.iss, c.rcvNxt) <= Off(t.iss, c'.rcvNxt)
  {
    OffAdd(t.iss, c.rcvNxt, |d|);
    assert Delivered(c') == Delivered(c) + d;
    PrefixExtends(Delivered(c), d, t.out);
    forall k | k in c'.ooo
      ensures BufferedOk(t, c'.rcvNxt, k, c'.ooo[k])
    {
      assert BufferedOk(t, c.rcvNxt, k, c.ooo[k]);
    }
  }

  /** `Splice` touches nothing but the receive buffers. */
  ghost predicate OnlyReceives(c: Conn, c': Conn) {
    c' == c.(rcvNxt := c'.rcvNxt, recvBuf := c'.recvBuf, ooo := c'.ooo)
  }

  lemma {:induction false} SpliceFrame(c: Conn)
    ensures OnlyReceives(c, Splice(c))
    ensures Splice(c).rcvNxt !in Splice(c).ooo
    decreases |c.ooo|
  {
    if c.rcvNxt in c.ooo {
      SpliceFrame(TakeBuffered(c));
    }
  }

  lemma {:induction false} SpliceKeeps(t: Stream, c: Conn)
    requires RxOk(t, c) && c.h.finsTaken == 0 && |t.out| + 2 < MOD
    ensures RxOk(t, Splice(c))
    ensures Off(t.iss, c.rcvNxt) <= Off(t.iss, Splice(c).rcvNxt)
    decreases |c.ooo|
  {
    if c.rcvNxt in c.ooo {
      assert BufferedOk(t, c.rcvNxt, c.rcvNxt, c.ooo[c.rcvNxt]);
      AppendKeeps(t, c, TakeBuffered(c), c.ooo[c.rcvNxt]);
      SpliceKeeps(t, TakeBuffered(c));
    }
  }

  /** Nothing can be buffered where the stream ends, so a FIN is taken right there. */
  lemma NothingAtEnd(t: Stream, c: Conn)
    requires RxOk(t, c) && Off(t.iss, c.rcvNxt) == |t.out| + 1
    ensures c.rcvNxt !in c.ooo
  {
  }

  lemma TakeFinKeeps(t: Stream, c: Conn, m: Segment)
    requires RxOk(t, c) && c.h.finsTaken == 0 && |t.out| + 2 < MOD
    requires Honest(t, m) && TakesFin(c, m)
    ensures RxOk(t, TakeFin(c))
    ensures Off(t.iss, c.rcvNxt) <= Off(t.iss, TakeFin(c).rcvNxt)
  {
    var c' := TakeFin(c);
    OffAdd(t.iss, c.rcvNxt, 1);
    assert Delivered(c') == Delivered(c);
    forall k | k in c'.ooo
      ensures BufferedOk(t, c'.rcvNxt, k, c'.ooo[k])
    {
      assert BufferedOk(t, c.rcvNxt, k, c.ooo[k]);
    }
  }

  lemma BufferKeeps(t: Stream, c: Conn, m: Segment)
    requires RxOk(t, c) && m.data != [] && !m.flags.rst && SegOk(t, Off(t.iss, c.rcvNxt), m)
    ensures RxOk(t, c.(ooo := c.ooo[m.seqNum := m.data]))
  {
    var c' := c.(ooo := c.ooo[m.seqNum := m.data]);
    assert Delivered(c') == Delivered(c);
    forall k | k in c'.ooo
      ensures BufferedOk(t, c'.rcvNxt, k, c'.ooo[k])
    {
      if k != m.seqNum {
        assert BufferedOk(t, c.rcvNxt, k, c.ooo[k]);
      }
    }
  }

  lemma TakeDataKeeps(t: Stream, c: Conn, m: Segment)
    requires RxOk(t, c) && c.h.finsTaken == 0 && |t.out| + 2 < MOD
    requires Honest(t, m) && m.seqNum == c.rcvNxt
    ensures RxOk(t, TakeData(c, m.data))
    ensures Off(t.iss, c.rcvNxt) <= Off(t.iss, TakeData(c, m.data).rcvNxt)
  {
    if m.data == [] {
      assert TakeData(c, m.data) == c;
    } else {
      AppendKeeps(t, c, TakeData(c, m.data), m.data);
    }
  }

  /**
   Receiver safety: whatever order segments of one stream arrive in, and even if
   `rcvNxt` wraps, what has been delivered stays a prefix of the stream.
   */
  lemma AbsorbKeeps(t: Stream, c: Conn, m: Segment)
    requires RxOk(t, c) && c.h.finsTaken == 0 && |t.out| + 2 < MOD
    requires !m.flags.rst && SegOk(t, Off(t.iss, c.rcvNxt), m)
    ensures RxOk(t, Absorb(c, m))
    ensures Off(t.iss, c.rcvNxt) <= Off(t.iss, Absorb(c, m).rcvNxt)
  {
    if m.seqNum == c.rcvNxt {
      assert Honest(t, m);
      var c1 := TakeData(c, m.data);
      TakeDataKeeps(t, c, m);
      SpliceKeeps(t, c1);
      if m.flags.fin {
        NothingAtEnd(t, c1);
        TakeFinKeeps(t, c1, m);
      }
    } else if m.seqNum > c.rcvNxt && m.data != [] && BufferedBytes(c) + |m.data| <= c.recvCap {
      BufferKeeps(t, c, m);
    }
  }

  lemma InOrderFrame(c: Conn, data: seq<Byte>)
    ensures OnlyReceives(c, Splice(TakeData(c, data)))
  {
    SpliceFrame(TakeData(c, data));
  }

  /** `Absorb` leaves the sending half alone. */
  lemma AbsorbFrame(c: Conn, m: Segment)
    ensures var c' := Absorb(c, m);
      c' == c.(rcvNxt := c'.rcvNxt, recvBuf := c'.recvBuf, ooo := c'.ooo,
               h := c.h.(finsTaken := c.h.finsTaken + if TakesFin(c, m) then 1 else 0))
  {
    if m.seqNum == c.rcvNxt {
      InOrderFrame(c, m.data);
    }
  }

  /** A step of the receiving half that only moves forward keeps the pair. */
  lemma RxStep(x: Conn, x': Conn, y: Conn)
    requires Pair(x, y) && SameTx(x, x') && x'.sndUna == x.sndUna && x'.h.sent == x.h.sent
    requires x.h.synced && x'.h.synced
    requires RxOk(StreamOf(y), x') && Off(y.iss, x.rcvNxt) <= Off(y.iss, x'.rcvNxt)
    ensures Pair(x', y)
  {
    TxSame(x, x');
    forall m | m in x'.h.sent
      ensures AckHonest(x', m)
    {
      assert AckHonest(x, m);
    }
    LinkGrows(x, x', y);
    forall m | m in y.h.sent
      ensures SegOk(StreamOf(y), Reach(y, x'), m)
    {
      SegGrows(StreamOf(y), StreamOf(y), Reach(y, x), Reach(y, x'), m);
    }
  }

  lemma ReceiveKeeps(x: Conn, y: Conn, m: Segment)
    requires Pair(x, y) && x.h.synced && x.h.finsTaken == 0
    requires m in y.h.sent && !m.flags.rst
    ensures Pair(Receive(x, m), y)
  {
    assert SegOk(StreamOf(y), Reach(y, x), m);
    AbsorbKeeps(StreamOf(y), x, m);
    AbsorbFrame(x, m);
    RxStep(x, Absorb(x, m), y);
    if ShouldAck(x, m) {
      AckOnlyKeeps(Absorb(x, m), y);
    }
  }

  /** Reading moves bytes from the buffer to the application and loses none. */
  lemma RecvIs(x: Conn, room: nat)
    ensures Delivered(Recv(x, room)) == Delivered(x)
    ensures x.recvBuf == [] ==> Recv(x, room) == x
    ensures var x' := Recv(x, room); x' == x.(recvBuf := x'.recvBuf, h := x.h.(handed := x'.h.handed))
  {
    var n := Min(room, |x.recvBuf|);
    assert x.recvBuf[..n] + x.recvBuf[n..] == x.recvBuf;
    assert x.h.handed + x.recvBuf[..n] + x.recvBuf[n..] == x.h.handed + (x.recvBuf[..n] + x.recvBuf[n..]);
  }

  lemma RecvKeeps(x: Conn, y: Conn, room: nat)
    requires Pair(x, y)
    ensures Pair(Recv(x, room), y)
  {
    RecvIs(x, room);
    if x.h.synced {
      RxStep(x, Recv(x, room), y);
    }
  }
}
