// The arithmetic of module Bytes is the bit arithmetic of 8-bit vectors, exclusive or included.

module Bits {
  import opened Bytes

  lemma SetTopBitIsOr(b: bv8)
    ensures SetTopBit(b as byte) as int == (0x80 | b) as int
  {}

  lemma TopBitIsAnd(b: bv8)
    ensures TopBit(b as byte) <==> b & 0x80 != 0
  {}

  lemma LowBitsAreAnd(b: bv8)
    ensures Low7(b as byte) as int == (b & 0x7F) as int
    ensures Low4(b as byte) as int == (b & 0x0F) as int
  {}

  // ---------------------------------------------------------------- exclusive or

  // Half and parity of an exclusive or are those that Bytes.XorBits gives at each level.

  lemma LowestBit(b: bv8)
    ensures (b >> 1) as int == (b as int) / 2
    ensures (b & 1) as int == (b as int) % 2
  {}

  lemma XorShifts(a: bv8, b: bv8)
    ensures (a ^ b) >> 1 == (a >> 1) ^ (b >> 1)
    ensures (a ^ b) & 1 == (a & 1) ^ (b & 1)
  {}

  lemma OneBitXor(a: bv8, b: bv8)
    requires a <= 1 && b <= 1
    ensures (a ^ b) as int == (a as int + b as int) % 2
  {
    assert a == 0 || a == 1;
    assert b == 0 || b == 1;
  }

  lemma LowestBitSmall(a: bv8)
    ensures a & 1 <= 1
  {}

  lemma HalfOfXor(a: bv8, b: bv8)
    ensures ((a ^ b) as int) / 2 == ((a >> 1) ^ (b >> 1)) as int
  {
    LowestBit(a ^ b);
    XorShifts(a, b);
  }

  lemma LowestOfXor(a: bv8, b: bv8)
    ensures ((a ^ b) & 1) as int == ((a & 1) as int + (b & 1) as int) % 2
  {
    XorShifts(a, b);
    LowestBitSmall(a);
    LowestBitSmall(b);
    OneBitXor(a & 1, b & 1);
  }

  lemma ParityOfXor(a: bv8, b: bv8)
    ensures ((a ^ b) as int) % 2 == ((a as int) % 2 + (b as int) % 2) % 2
  {
    LowestBit(a ^ b);
    LowestBit(a);
    LowestBit(b);
    LowestOfXor(a, b);
  }

  /** The number a bit-vector stands for. */
  function V(b: bv8): nat {
    b as int
  }

  lemma ZeroIsZero(b: bv8)
    requires V(b) == 0
    ensures b == 0
  {}

  lemma ZeroXor(a: bv8, b: bv8)
    requires V(a) == 0 && V(b) == 0
    ensures V(a ^ b) == 0
  {
    ZeroIsZero(a);
    ZeroIsZero(b);
  }

  /** The recursion of Bytes.XorBits, on the numbers alone. */
  lemma XorBitsUnfold(a: nat, b: nat, x: nat, width: nat)
    requires width > 0
    requires XorBits(a / 2, b / 2, width - 1) == x / 2 && x % 2 == (a % 2 + b % 2) % 2
    ensures XorBits(a, b, width) == x
  {}

  lemma Halves(a: bv8, b: bv8)
    ensures V(a >> 1) == V(a) / 2 && V(b >> 1) == V(b) / 2
    ensures V((a >> 1) ^ (b >> 1)) == V(a ^ b) / 2
    ensures V(a ^ b) % 2 == (V(a) % 2 + V(b) % 2) % 2
  {
    LowestBit(a);
    LowestBit(b);
    HalfOfXor(a, b);
    ParityOfXor(a, b);
  }

  lemma ShiftFits(a: bv8, width: nat)
    requires width > 0 && V(a) < Pow2(width)
    ensures V(a >> 1) < Pow2(width - 1)
  {
    LowestBit(a);
  }

  lemma XorBitsShift(a: bv8, b: bv8, width: nat)
    requires width > 0
    requires XorBits(V(a >> 1), V(b >> 1), width - 1) == V((a >> 1) ^ (b >> 1))
    ensures XorBits(V(a), V(b), width) == V(a ^ b)
  {
    Halves(a, b);
    XorBitsUnfold(V(a), V(b), V(a ^ b), width);
  }

  lemma {:induction false} XorBitsIsXor(a: bv8, b: bv8, width: nat)
    requires V(a) < Pow2(width) && V(b) < Pow2(width)
    ensures XorBits(V(a), V(b), width) == V(a ^ b)
    decreases width
  {
    if width == 0 {
      ZeroXor(a, b);
    } else {
      ShiftFits(a, width);
      ShiftFits(b, width);
      XorBitsIsXor(a >> 1, b >> 1, width - 1);
      XorBitsShift(a, b, width);
    }
  }

  lemma XorOfNumbers(a: bv8, b: bv8)
    ensures XorBits(V(a), V(b), 8) == V(a ^ b)
  {
    assert Pow2(8) == 256 by { assert Pow2(4) == 16; }
    XorBitsIsXor(a, b, 8);
  }

  /** The exclusive or of module Bytes is that of bit-vectors. */
  lemma XorIsBitwise(a: bv8, b: bv8)
    ensures Xor(a as byte, b as byte) as int == (a ^ b) as int
  {
    XorOfNumbers(a, b);
    assert (a as byte) as int == V(a) && (b as byte) as int == V(b);
  }
}
