/**
 The receiver on its own, against segments cut in any way: arbitrary overlapping
 slices of one stream, in any order, anywhere in the sequence space.  `rcvNxt` may
 wrap and the plain `>` may misjudge what is ahead; what is delivered stays a prefix.
 */
module Slices {
  import opened SeqSpace
  import opened Connection
  import opened Invariants
  import opened Receiver
  import opened Reassembly

  /** `d` is what the stream holds at sequence number `s`. */
  ghost predicate SliceAt(iss: U32, out: seq<Byte>, s: U32, d: seq<Byte>) {
    var o := Off(iss, s) - 1;
    0 <= o && o + |d| <= |out| && d == out[o..o + |d|]
  }

  /** A segment that carries what the stream holds at its place, with a FIN only where the stream ends. */
  ghost predicate TrueSlice(iss: U32, out: seq<Byte>, m: Segment) {
    && (m.data != [] ==> SliceAt(iss, out, m.seqNum, m.data))
    && (m.flags.fin ==> Off(iss, m.seqNum) + |m.data| == |out| + 1)
  }

  /** The delivered bytes are a prefix of the stream, and all of it once the FIN is taken. */
  ghost predicate PrefixSoFar(iss: U32, out: seq<Byte>, c: Conn) {
    && c.h.finsTaken <= 1
    && Off(iss, c.rcvNxt) == 1 + |Delivered(c)| + c.h.finsTaken
    && Delivered(c) <= out
    && (c.h.finsTaken == 1 ==> Delivered(c) == out)
    && forall k :: k in c.ooo ==>
         c.ooo[k] != [] && (Off(iss, k) < Off(iss, c.rcvNxt) || SliceAt(iss, out, k, c.ooo[k]))
  }

  lemma AppendSlice(iss: U32, out: seq<Byte>, c: Conn, c': Conn, d: seq<Byte>)
    requires PrefixSoFar(iss, out, c) && |out| + 2 < MOD && d != [] && SliceAt(iss, out, c.rcvNxt, d)
    requires c'.rcvNxt == Add(c.rcvNxt, |d|) && c'.recvBuf == c.recvBuf + d && c'.h == c.h
    requires forall k :: k in c'.ooo ==> k in c.ooo && c'.ooo[k] == c.ooo[k]
    ensures PrefixSoFar(iss, out, c')
  {
    OffAdd(iss, c.rcvNxt, |d|);
    assert Delivered(c') == Delivered(c) + d;
    PrefixExtends(Delivered(c), d, out);
  }

  lemma {:induction false} SplicePrefix(iss: U32, out: seq<Byte>, c: Conn)
    requires PrefixSoFar(iss, out, c) && |out| + 2 < MOD
    ensures PrefixSoFar(iss, out, Splice(c))
    decreases |c.ooo|
  {
    if c.rcvNxt in c.ooo {
      AppendSlice(iss, out, c, TakeBuffered(c), c.ooo[c.rcvNxt]);
      SplicePrefix(iss, out, TakeBuffered(c));
    }
  }

  /** Where the stream ends there is nothing to splice, so the FIN is taken right there. */
  lemma TakeFinPrefix(iss: U32, out: seq<Byte>, c: Conn)
    requires PrefixSoFar(iss, out, c) && |out| + 2 < MOD && Off(iss, c.rcvNxt) == |out| + 1 && c.h.finsTaken == 0
    ensures Splice(c) == c && PrefixSoFar(iss, out, TakeFin(c))
  {
    OffAdd(iss, c.rcvNxt, 1);
    assert Delivered(TakeFin(c)) == Delivered(c);
  }

  lemma InOrderPrefix(iss: U32, out: seq<Byte>, c: Conn, m: Segment)
    requires PrefixSoFar(iss, out, c) && |out| + 2 < MOD && TrueSlice(iss, out, m) && m.seqNum == c.rcvNxt
    ensures PrefixSoFar(iss, out, Absorb(c, m))
  {
    var c1 := TakeData(c, m.data);
    if m.data == [] {
      assert c1 == c;
    } else {
      AppendSlice(iss, out, c, c1, m.data);
    }
    if m.flags.fin {
      OffAdd(iss, c.rcvNxt, |m.data|);
      TakeFinPrefix(iss, out, c1);
    } else {
      SplicePrefix(iss, out, c1);
    }
  }

  lemma ReceivePrefix(iss: U32, out: seq<Byte>, c: Conn, m: Segment)
    requires PrefixSoFar(iss, out, c) && |out| + 2 < MOD && TrueSlice(iss, out, m)
    ensures PrefixSoFar(iss, out, Receive(c, m))
  {
    if m.seqNum == c.rcvNxt {
      InOrderPrefix(iss, out, c, m);
    } else {
      assert Delivered(Absorb(c, m)) == Delivered(c);
    }
    assert Delivered(Receive(c, m)) == Delivered(Absorb(c, m));
  }

  /** Any number of true slices, overlapping or not, in any order: the delivered bytes are a prefix of the stream. */
  lemma {:induction false} WrapSafe(iss: U32, out: seq<Byte>, c: Conn, ms: seq<Segment>)
    requires |out| + 2 < MOD
    requires c.rcvNxt == Add(iss, 1) && Delivered(c) == [] && c.ooo == map[] && c.h.finsTaken == 0
    requires forall m :: m in ms ==> TrueSlice(iss, out, m)
    ensures PrefixSoFar(iss, out, Arrive(c, ms))
    decreases |ms|
  {
    if ms == [] {
      OffAdd(iss, iss, 1);
    } else {
      var n := |ms| - 1;
      assert ms[n] in ms;
      WrapSafe(iss, out, c, ms[..n]);
      ReceivePrefix(iss, out, Arrive(c, ms[..n]), ms[n]);
    }
  }
}
