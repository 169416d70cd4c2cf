/** 32-bit sequence numbers and the wrapping arithmetic the stack does on them. */
module SeqSpace {
  const MOD: nat := 0x1_0000_0000

  type U16 = x: int | 0 <= x < 0x1_0000
  type U32 = x: int | 0 <= x < 0x1_0000_0000

  /** `wrapping_add`; the remainder only matters for lengths beyond one lap. */
  function Add(s: U32, n: nat): U32 {
    if s + n < MOD then s + n else if s + n < 2 * MOD then s + n - MOD else (s + n) % MOD
  }

  /** `to.wrapping_sub(from)`: the distance from `from` forward to `to`. */
  function Off(from: U32, to: U32): U32 {
    if to >= from then to - from else to - from + MOD
  }

  /** Inside one lap of the sequence space, wrapping addition is addition of offsets. */
  lemma OffAdd(iss: U32, s: U32, n: nat)
    requires Off(iss, s) + n < MOD
    ensures Off(iss, Add(s, n)) == Off(iss, s) + n
  {
  }

  /** The distance between two sequence numbers is the difference of their offsets. */
  lemma OffDiff(iss: U32, s: U32, t: U32)
    requires Off(iss, s) <= Off(iss, t)
    ensures Off(s, t) == Off(iss, t) - Off(iss, s)
  {
  }

  /** Below the wrap, sequence numbers are offsets from the first one. */
  lemma OffNumeric(iss: U32, s: U32)
    requires iss + Off(iss, s) < MOD
    ensures s == iss + Off(iss, s)
  {
  }

  /** Offsets identify sequence numbers. */
  lemma OffInjective(iss: U32, s: U32, t: U32)
    ensures Off(iss, s) == Off(iss, t) <==> s == t
  {
  }

  lemma AddIsMod(s: U32, n: nat)
    ensures Add(s, n) == (s + n) % 0x1_0000_0000
  {
  }

  lemma ModAdd(a: nat, b: nat)
    ensures (a % 0x1_0000_0000 + b) % 0x1_0000_0000 == (a + b) % 0x1_0000_0000
  {
    var q := a / 0x1_0000_0000;
    assert a == 0x1_0000_0000 * q + a % 0x1_0000_0000;
    ModShift(a % 0x1_0000_0000 + b, q);
  }

  lemma ModShift(x: nat, q: nat)
    ensures (x + 0x1_0000_0000 * q) % 0x1_0000_0000 == x % 0x1_0000_0000
  {
  }

  /** Successive wrapping additions add up, also for amounts reduced to 32 bits first. */
  lemma AddAdd(s: U32, a: nat, b: nat)
    ensures Add(Add(s, a), b) == Add(s, a + b)
    ensures Add(s, Add(a % MOD, b)) == Add(s, a + b)
  {
    AddIsMod(s, a);
    AddIsMod(Add(s, a), b);
    AddIsMod(s, a + b);
    ModAdd(s + a, b);
    AddIsMod(a % MOD, b);
    AddIsMod(s, Add(a % MOD, b));
    ModAdd(a, b);
    ModAdd(a + b, s);
  }

  function Min(a: int, b: int): int {
    if a <= b then a else b
  }
}
