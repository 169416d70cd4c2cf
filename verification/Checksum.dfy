/** The Internet checksum of src/ip.rs: one's-complement sum of 16-bit words (section 1 of RFC 1071). */
module Checksum {
  import opened SeqSpace
  import opened Connection

  /** `u16::from_be_bytes`. */
  function Word(hi: Byte, lo: Byte): U16 {
    256 * hi as int + lo
  }

  /** Sum of the big-endian words; an odd last byte is the high half of a zero-padded word. */
  function WordSum(data: seq<Byte>): nat {
    if data == [] then 0
    else if |data| == 1 then 256 * data[0]
    else 256 * data[0] + data[1] + WordSum(data[2..])
  }

  /** Carry folding. */
  function Fold(sum: nat): nat {
    if sum < 0x1_0000 then sum else Fold(sum % 0x1_0000 + sum / 0x1_0000)
  }

  lemma {:induction false} FoldFits(sum: nat)
    ensures Fold(sum) < 0x1_0000
  {
    if sum >= 0x1_0000 {
      FoldFits(sum % 0x1_0000 + sum / 0x1_0000);
    }
  }

  function Checksum16(data: seq<Byte>): U16 {
    FoldFits(WordSum(data));
    0xFFFF - Fold(WordSum(data))
  }

  // ---------------------------------------------------------------- the 32-bit accumulator

  lemma {:induction false} WordSumBound(data: seq<Byte>)
    ensures WordSum(data) <= (|data| + 1) / 2 * 0xFFFF
  {
    if |data| > 1 {
      WordSumBound(data[2..]);
    }
  }

  /** Up to 131074 bytes, the 32-bit sum cannot overflow. */
  lemma SumFits(data: seq<Byte>)
    requires |data| <= 131074
    ensures WordSum(data) < MOD
  {
    WordSumBound(data);
  }

  lemma {:induction false} AllOnesSum(n: nat)
    ensures WordSum(seq(n, _ => 255)) == n / 2 * 0xFFFF + n % 2 * 0xFF00
  {
    var ones: seq<Byte> := seq(n, _ => 255);
    if n > 1 {
      assert ones[2..] == seq(n - 2, _ => 255);
      AllOnesSum(n - 2);
    }
  }

  /** The bound is exact: lengths up to 131074 are safe for every content, longer ones are not. */
  lemma SafeLengths(n: nat)
    ensures (forall data: seq<Byte> :: |data| == n ==> WordSum(data) < MOD) <==> n <= 131074
  {
    if n <= 131074 {
      forall data: seq<Byte> | |data| == n
        ensures WordSum(data) < MOD
      {
        SumFits(data);
      }
    } else {
      var ones: seq<Byte> := seq(n, _ => 255);
      AllOnesSum(n);
      assert |ones| == n && WordSum(ones) >= MOD;
    }
  }

  // ---------------------------------------------------------------- checksum16

  lemma {:induction false} WordSumAppendWord(data: seq<Byte>, hi: Byte, lo: Byte)
    requires |data| % 2 == 0
    ensures WordSum(data + [hi, lo]) == WordSum(data) + 256 * hi + lo
  {
    if data == [] {
      assert data + [hi, lo] == [hi, lo] && [hi, lo][2..] == [];
    } else {
      assert (data + [hi, lo])[2..] == data[2..] + [hi, lo];
      WordSumAppendWord(data[2..], hi, lo);
    }
  }

  lemma {:induction false} WordSumAppendByte(data: seq<Byte>, last: Byte)
    requires |data| % 2 == 0
    ensures WordSum(data + [last]) == WordSum(data) + 256 * last
  {
    if data == [] {
      assert data + [last] == [last];
    } else {
      assert (data + [last])[2..] == data[2..] + [last];
      WordSumAppendByte(data[2..], last);
    }
  }

  lemma {:induction false} WordSumPrefix(data: seq<Byte>, n: nat)
    requires n <= |data| && n % 2 == 0
    ensures WordSum(data) == WordSum(data[..n]) + WordSum(data[n..])
  {
    if n == 0 {
      assert data[..0] == [] && data[0..] == data;
    } else {
      WordSumPrefix(data[2..], n - 2);
      assert data[2..][n - 2..] == data[n..];
      assert data[..n][2..] == data[2..][..n - 2];
    }
  }

  /** The accumulating loop and the fold loop of `checksum16`, in 32 bits. */
  method ComputeChecksum16(data: seq<Byte>) returns (c: U16)
    requires |data| <= 131074
    ensures c == Checksum16(data)
  {
    var sum: U32 := 0;
    var i := 0;
    while i + 1 < |data|
      invariant 0 <= i <= |data| && i % 2 == 0
      invariant sum == WordSum(data[..i])
    {
      var next := data[..i + 2];
      assert next == data[..i] + [data[i], data[i + 1]];
      WordSumAppendWord(data[..i], data[i], data[i + 1]);
      SumFits(next);
      sum := sum + Word(data[i], data[i + 1]);
      i := i + 2;
    }
    if i < |data| {
      assert data == data[..i] + [data[i]];
      WordSumAppendByte(data[..i], data[i]);
      SumFits(data);
      sum := sum + Word(data[i], 0);
    } else {
      assert data == data[..i];
    }
    while sum / 0x1_0000 != 0
      invariant Fold(sum) == Fold(WordSum(data))
      decreases sum
    {
      sum := sum % 0x1_0000 + sum / 0x1_0000;
    }
    c := 0xFFFF - sum;
  }

  // ---------------------------------------------------------------- what the checksum means

  lemma RemainderIs(n: nat, k: nat, r: nat)
    requires n == 0xFFFF * k + r && r < 0xFFFF
    ensures n % 0xFFFF == r
  {
  }

  lemma FoldStep(sum: nat)
    requires sum >= 0x1_0000
    ensures (sum % 0x1_0000 + sum / 0x1_0000) % 0xFFFF == sum % 0xFFFF
    ensures 0 < sum % 0x1_0000 + sum / 0x1_0000
  {
    var q := sum / 0x1_0000;
    var folded := sum % 0x1_0000 + q;
    assert sum == 0xFFFF * q + folded;
    RemainderIs(sum, q + folded / 0xFFFF, folded % 0xFFFF);
  }

  /** Folding keeps the value modulo 65535, and zero stays apart from 65535. */
  lemma {:induction false} FoldKeepsValue(sum: nat)
    ensures Fold(sum) % 0xFFFF == sum % 0xFFFF
    ensures Fold(sum) == 0 <==> sum == 0
  {
    if sum >= 0x1_0000 {
      FoldStep(sum);
      FoldKeepsValue(sum % 0x1_0000 + sum / 0x1_0000);
    }
  }

  /** A buffer verifies exactly when its words sum to a positive multiple of 65535. */
  lemma VerifiesIff(data: seq<Byte>)
    ensures Checksum16(data) == 0 <==> WordSum(data) > 0 && WordSum(data) % 0xFFFF == 0
  {
    FoldFits(WordSum(data));
    FoldKeepsValue(WordSum(data));
  }

  /** How far one byte moves the sum. */
  function Weight(i: nat): nat {
    if i % 2 == 0 then 256 else 1
  }

  lemma {:induction false} WordSumUpdate(data: seq<Byte>, i: nat, v: Byte)
    requires i < |data|
    ensures WordSum(data[i := v]) == WordSum(data) + Weight(i) * (v - data[i])
  {
    if i >= 2 {
      assert data[i := v][2..] == data[2..][i - 2 := v];
      WordSumUpdate(data[2..], i - 2, v);
    } else if |data| > 1 {
      assert data[i := v][2..] == data[2..];
    }
  }

  /** Writing a checksum into its zeroed field. */
  function Filled(data: seq<Byte>, at: nat, c: U16): seq<Byte>
    requires at + 1 < |data|
  {
    data[at := c / 256][at + 1 := c % 256]
  }

  lemma MultipleOfFold(sum: nat, c: nat)
    requires sum % 0xFFFF == (0xFFFF - c) % 0xFFFF && c <= 0xFFFF
    ensures (sum + c) % 0xFFFF == 0
  {
  }

  /** A buffer whose zeroed, word-aligned checksum field is filled with its checksum verifies. */
  lemma FilledVerifies(data: seq<Byte>, at: nat)
    requires at + 1 < |data| && at % 2 == 0 && data[at] == 0 && data[at + 1] == 0
    ensures Checksum16(Filled(data, at, Checksum16(data))) == 0
  {
    var c := Checksum16(data);
    WordSumUpdate(data, at, c / 256);
    WordSumUpdate(data[at := c / 256], at + 1, c % 256);
    assert WordSum(Filled(data, at, c)) == WordSum(data) + c;
    FoldKeepsValue(WordSum(data));
    MultipleOfFold(WordSum(data), c);
    VerifiesIff(Filled(data, at, c));
  }

  lemma SmallShift(sum: int, d: int)
    requires sum % 0xFFFF == 0 && d != 0 && -0xFFFF < d < 0xFFFF
    ensures (sum + d) % 0xFFFF != 0
  {
  }

  /** Changing any one byte of a buffer that verifies makes it fail. */
  lemma OneByteDetected(data: seq<Byte>, i: nat, v: Byte)
    requires Checksum16(data) == 0 && i < |data| && v != data[i]
    ensures Checksum16(data[i := v]) != 0
  {
    VerifiesIff(data);
    VerifiesIff(data[i := v]);
    WordSumUpdate(data, i, v);
    SmallShift(WordSum(data), Weight(i) * (v - data[i]));
  }
}
