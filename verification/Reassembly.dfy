/**
 Reassembly is confluent: for a stream cut into segments, what the receiver ends
 up with depends only on which segments arrived, not on their order or on
 duplicates.
 */
module Reassembly {
  import opened SeqSpace
  import opened Connection
  import opened Invariants
  import opened Pairs
  import opened Receiver
  import opened Ahead
  import opened FlowControl

  /** A segment of the stream, without FIN. */
  ghost predicate DataOf(t: Stream, m: Segment) {
    ChunkAt(t, m.seqNum, m.data) && m.flags.psh && !m.flags.fin && !m.flags.rst && !m.flags.syn
  }

  ghost predicate AllDataOf(t: Stream, ms: seq<Segment>) {
    forall m :: m in ms ==> DataOf(t, m)
  }

  function Starts(ms: seq<Segment>): set<U32> {
    set m | m in ms :: m.seqNum
  }

  /** A well-formed stream whose sequence numbers do not wrap and that fits the buffer. */
  ghost predicate Transferable(t: Stream, c: Conn) {
    CutsOk(t) && t.iss + |t.out| + 2 < MOD && |t.out| <= c.recvCap
  }

  /** A receiver that knows the first sequence number and has received nothing. */
  predicate Fresh(t: Stream, c: Conn) {
    && c.irs == t.iss && c.rcvNxt == Add(t.iss, 1)
    && c.h.handed == [] && c.recvBuf == [] && c.ooo == map[] && c.h.finsTaken == 0
  }

  ghost function Arrive(c: Conn, ms: seq<Segment>): Conn
    decreases |ms|
  {
    if ms == [] then c else Receive(Arrive(c, ms[..|ms| - 1]), ms[|ms| - 1])
  }

  /** The receiver's state as a function of the set `a` of segment starts that have arrived. */
  ghost predicate Reflects(t: Stream, c: Conn, a: set<U32>) {
    && RxOk(t, c) && OooAhead(t, c) && c.h.finsTaken == 0 && c.h.handed == []
    && (forall k :: k in c.ooo ==> k in a)
    && (forall k :: k in a ==> k in c.ooo || Off(t.iss, k) < Off(t.iss, c.rcvNxt))
    && (forall k, d :: ChunkAt(t, k, d) && Off(t.iss, k) < Off(t.iss, c.rcvNxt) ==> k in a)
  }

  // ---------------------------------------------------------------- arrival

  /** Whole segments that start at the same place are the same. */
  lemma ChunksAgree(t: Stream, k: U32, d: seq<Byte>, e: seq<Byte>)
    requires ChunkAt(t, k, d) && ChunkAt(t, k, e)
    ensures d == e
  {
  }

  /** As `Reflects`, while the segment at `rcvNxt` may be among the arrived ones. */
  ghost predicate ReflectsMid(t: Stream, c: Conn, a: set<U32>) {
    && RxOk(t, c) && OooNotBehind(t, c) && c.h.finsTaken == 0 && c.h.handed == []
    && (forall k :: k in c.ooo ==> k in a)
    && (forall k :: k in a ==> k in c.ooo || Off(t.iss, k) < Off(t.iss, c.rcvNxt))
    && (forall k, d :: ChunkAt(t, k, d) && Off(t.iss, k) < Off(t.iss, c.rcvNxt) ==> k in a)
  }

  lemma AppendReflects(t: Stream, c: Conn, c': Conn, d: seq<Byte>, a: set<U32>, b: set<U32>)
    requires ReflectsMid(t, c, a) && ChunkAt(t, c.rcvNxt, d) && |t.out| + 2 < MOD
    requires c'.irs == c.irs && c'.rcvNxt == Add(c.rcvNxt, |d|) && c'.recvBuf == c.recvBuf + d && c'.h == c.h
    requires c'.ooo == c.ooo - {c.rcvNxt}
    requires a <= b && c.rcvNxt in b && forall k :: k in b ==> k in a || k == c.rcvNxt
    ensures ReflectsMid(t, c', b)
  {
    AppendKeeps(t, c, c', d);
    AppendNotBehind(t, c, c', d);
    OffAdd(t.iss, c.rcvNxt, |d|);
    forall k, e | ChunkAt(t, k, e) && Off(t.iss, k) < Off(t.iss, c'.rcvNxt)
      ensures k in b
    {
      OffInjective(t.iss, k, c.rcvNxt);
    }
  }

  lemma MidSettles(t: Stream, c: Conn, a: set<U32>)
    requires ReflectsMid(t, c, a) && c.rcvNxt !in c.ooo
    ensures Reflects(t, c, a)
  {
    forall k | k in c.ooo
      ensures Off(t.iss, c.rcvNxt) < Off(t.iss, k)
    {
      OffInjective(t.iss, k, c.rcvNxt);
    }
  }

  lemma TakeBufferedReflects(t: Stream, c: Conn, a: set<U32>)
    requires ReflectsMid(t, c, a) && |t.out| + 2 < MOD && c.rcvNxt in c.ooo
    ensures ReflectsMid(t, TakeBuffered(c), a)
  {
    AppendReflects(t, c, TakeBuffered(c), c.ooo[c.rcvNxt], a, a);
  }

  lemma {:induction false} SpliceReflects(t: Stream, c: Conn, a: set<U32>)
    requires ReflectsMid(t, c, a) && |t.out| + 2 < MOD
    ensures Reflects(t, Splice(c), a)
    decreases |c.ooo|
  {
    if c.rcvNxt in c.ooo {
      TakeBufferedReflects(t, c, a);
      SpliceReflects(t, TakeBuffered(c), a);
    } else {
      MidSettles(t, c, a);
    }
  }

  lemma InOrderReflects(t: Stream, c: Conn, m: Segment, a: set<U32>)
    requires Reflects(t, c, a) && DataOf(t, m) && m.seqNum == c.rcvNxt && |t.out| + 2 < MOD
    ensures Reflects(t, Absorb(c, m), a + {m.seqNum})
  {
    var c1 := TakeData(c, m.data);
    assert c.ooo - {c.rcvNxt} == c.ooo;
    AppendReflects(t, c, c1, m.data, a, a + {m.seqNum});
    SpliceReflects(t, c1, a + {m.seqNum});
  }

  /** There is always room for a segment that has not arrived yet. */
  lemma RoomForNew(t: Stream, c: Conn, m: Segment)
    requires RxOk(t, c) && OooAhead(t, c) && c.h.finsTaken == 0 && |t.out| <= c.recvCap
    requires DataOf(t, m) && Off(t.iss, c.rcvNxt) < Off(t.iss, m.seqNum) && m.seqNum !in c.ooo
    ensures BufferedBytes(c) + |m.data| <= c.recvCap
  {
    var more := c.ooo[m.seqNum := m.data];
    DisjointSegmentsFit(t, more, |Delivered(c)|);
    SumLensRemove(more, m.seqNum);
    assert more - {m.seqNum} == c.ooo;
  }

  lemma OutOfOrderReflects(t: Stream, c: Conn, m: Segment, a: set<U32>)
    requires Reflects(t, c, a) && Transferable(t, c) && DataOf(t, m) && m.seqNum > c.rcvNxt
    ensures Reflects(t, Absorb(c, m), a + {m.seqNum})
  {
    OffNumeric(t.iss, c.rcvNxt);
    OffNumeric(t.iss, m.seqNum);
    if m.seqNum in c.ooo {
      ChunksAgree(t, m.seqNum, m.data, c.ooo[m.seqNum]);
      assert c.ooo[m.seqNum := m.data] == c.ooo;
      assert a + {m.seqNum} == a;
    } else {
      RoomForNew(t, c, m);
      BufferKeeps(t, c, m);
    }
  }

  lemma AbsorbReflects(t: Stream, c: Conn, m: Segment, a: set<U32>)
    requires Reflects(t, c, a) && Transferable(t, c) && DataOf(t, m)
    ensures Reflects(t, Absorb(c, m), a + {m.seqNum})
  {
    if m.seqNum == c.rcvNxt {
      InOrderReflects(t, c, m, a);
    } else if m.seqNum > c.rcvNxt {
      OutOfOrderReflects(t, c, m, a);
    } else {
      OffNumeric(t.iss, c.rcvNxt);
      OffNumeric(t.iss, m.seqNum);
      assert a + {m.seqNum} == a;
    }
  }

  lemma ReceiveReflects(t: Stream, c: Conn, m: Segment, a: set<U32>)
    requires Reflects(t, c, a) && Transferable(t, c) && DataOf(t, m)
    ensures Reflects(t, Receive(c, m), a + {m.seqNum}) && Receive(c, m).recvCap == c.recvCap
  {
    AbsorbReflects(t, c, m, a);
    AbsorbFrame(c, m);
    LogReflects(t, Absorb(c, m), Receive(c, m), a + {m.seqNum});
  }

  lemma LogReflects(t: Stream, c: Conn, c': Conn, a: set<U32>)
    requires Reflects(t, c, a) && SameRx(c, c')
    ensures Reflects(t, c', a)
  {
    assert Delivered(c') == Delivered(c);
  }

  lemma FreshReflects(t: Stream, c: Conn)
    requires Fresh(t, c) && Transferable(t, c)
    ensures Reflects(t, c, {})
  {
    OffAdd(t.iss, t.iss, 1);
    assert Delivered(c) == [];
  }

  lemma StartsOfLast(ms: seq<Segment>)
    requires ms != []
    ensures Starts(ms) == Starts(ms[..|ms| - 1]) + {ms[|ms| - 1].seqNum}
  {
    assert ms == ms[..|ms| - 1] + [ms[|ms| - 1]];
  }

  lemma {:induction false} ArriveReflects(t: Stream, c: Conn, ms: seq<Segment>)
    requires Fresh(t, c) && Transferable(t, c) && AllDataOf(t, ms)
    ensures Reflects(t, Arrive(c, ms), Starts(ms)) && Arrive(c, ms).recvCap == c.recvCap
    decreases |ms|
  {
    if ms == [] {
      FreshReflects(t, c);
      assert Starts(ms) == {};
    } else {
      var n := |ms| - 1;
      var init := ms[..n];
      ArriveReflects(t, c, init);
      StartsOfLast(ms);
      ReceiveReflects(t, Arrive(c, init), ms[n], Starts(init));
    }
  }

  // ---------------------------------------------------------------- the state is determined

  /** From every cut short of the end some whole segment starts. */
  lemma SegmentFrom(t: Stream, o: nat, hi: nat) returns (d: seq<Byte>)
    requires CutsOk(t) && o in t.cuts && hi in t.cuts && o < hi && |t.out| + 2 < MOD
    ensures ChunkAt(t, Add(t.iss, o + 1), d) && o + |d| <= hi
    decreases hi - o
  {
    if x :| x in t.cuts && o < x < hi {
      d := SegmentFrom(t, o, x);
    } else {
      d := t.out[o..hi];
      OffAdd(t.iss, t.iss, o + 1);
    }
  }

  /** Short of any later cut, the segment at `rcvNxt` exists and has not arrived. */
  lemma NextIsMissing(t: Stream, c: Conn, a: set<U32>, hi: nat)
    requires Reflects(t, c, a) && CutsOk(t) && |t.out| + 2 < MOD && hi in t.cuts && |Delivered(c)| < hi
    ensures exists d :: ChunkAt(t, c.rcvNxt, d)
    ensures c.rcvNxt !in a
  {
    var d := SegmentFrom(t, |Delivered(c)|, hi);
    OffAdd(t.iss, t.iss, |Delivered(c)| + 1);
    OffInjective(t.iss, c.rcvNxt, Add(t.iss, |Delivered(c)| + 1));
    assert ChunkAt(t, c.rcvNxt, d);
  }

  lemma NotFurther(t: Stream, c: Conn, c': Conn, a: set<U32>)
    requires Reflects(t, c, a) && Reflects(t, c', a) && CutsOk(t) && |t.out| + 2 < MOD
    ensures Off(t.iss, c'.rcvNxt) <= Off(t.iss, c.rcvNxt)
  {
    if Off(t.iss, c.rcvNxt) < Off(t.iss, c'.rcvNxt) {
      NextIsMissing(t, c, a, |Delivered(c')|);
    }
  }

  lemma Determined(t: Stream, c: Conn, c': Conn, a: set<U32>)
    requires Reflects(t, c, a) && Reflects(t, c', a) && CutsOk(t) && |t.out| + 2 < MOD
    ensures c.rcvNxt == c'.rcvNxt && c.recvBuf == c'.recvBuf && c.ooo == c'.ooo
  {
    NotFurther(t, c, c', a);
    NotFurther(t, c', c, a);
    OffInjective(t.iss, c.rcvNxt, c'.rcvNxt);
    assert Delivered(c) == c.recvBuf && Delivered(c') == c'.recvBuf;
    forall k | k in c.ooo || k in c'.ooo
      ensures k in c.ooo && k in c'.ooo && c.ooo[k] == c'.ooo[k]
    {
      ChunksAgree(t, k, c.ooo[k], c'.ooo[k]);
    }
  }

  /** Same segments, any order, any duplicates: same receiver. */
  lemma Confluent(t: Stream, c: Conn, ms: seq<Segment>, ns: seq<Segment>)
    requires Fresh(t, c) && Transferable(t, c) && AllDataOf(t, ms) && AllDataOf(t, ns)
    requires Starts(ms) == Starts(ns)
    ensures var x, y := Arrive(c, ms), Arrive(c, ns);
      x.rcvNxt == y.rcvNxt && x.recvBuf == y.recvBuf && x.ooo == y.ooo
  {
    ArriveReflects(t, c, ms);
    ArriveReflects(t, c, ns);
    Determined(t, Arrive(c, ms), Arrive(c, ns), Starts(ms));
  }

  /** When every segment has arrived, the whole stream has been delivered and nothing is left over. */
  lemma Complete(t: Stream, c: Conn, ms: seq<Segment>)
    requires Fresh(t, c) && Transferable(t, c) && AllDataOf(t, ms)
    requires forall k, d :: ChunkAt(t, k, d) ==> k in Starts(ms)
    ensures Arrive(c, ms).recvBuf == t.out && Arrive(c, ms).ooo == map[]
  {
    ArriveReflects(t, c, ms);
    var x := Arrive(c, ms);
    assert Delivered(x) == x.recvBuf;
    if |x.recvBuf| < |t.out| {
      NextIsMissing(t, x, Starts(ms), |t.out|);
    }
  }

  // ---------------------------------------------------------------- two segments, whatever their contents

  lemma {:induction false} SpliceAppends(c: Conn)
    ensures c.recvBuf <= Splice(c).recvBuf
    decreases |c.ooo|
  {
    if c.rcvNxt in c.ooo {
      SpliceAppends(TakeBuffered(c));
    }
  }

  /**
   A segment ahead of its turn is delivered right behind the one that fills the gap, as it came last, exactly
   if it fitted the buffer when it came; otherwise it might as well not have come.
   */
  lemma GapFilled(c: Conn, m: Segment, g: Segment)
    requires c.rcvNxt < m.seqNum && m.data != []
    requires g.seqNum == c.rcvNxt && Add(g.seqNum, |g.data|) == m.seqNum
    ensures var c' := Absorb(Absorb(c, m), g);
      if BufferedBytes(c) + |m.data| <= c.recvCap then c.recvBuf + g.data + m.data <= c'.recvBuf
      else c' == Absorb(c, g)
  {
    if BufferedBytes(c) + |m.data| <= c.recvCap {
      SpliceAppends(TakeBuffered(TakeData(Absorb(c, m), g.data)));
    }
  }
}
