// Bytes on the wire, the bit operations of the frame format written as arithmetic, and the
// big-endian integers inside a frame header. Module Bits shows that they are those of bit-vectors.

module Bytes {

  import opened Arithmetic

  newtype byte = x: int | 0 <= x < 256

  const TWO_TO_16: nat := 0x1_0000
  const TWO_TO_63: nat := 0x8000_0000_0000_0000
  const TWO_TO_64: nat := 0x1_0000_0000_0000_0000

  /** `0x80 | b` */
  function SetTopBit(b: byte): byte {
    if b < 0x80 then b + 0x80 else b
  }

  /** `b & 0x80 != 0` */
  predicate TopBit(b: byte) {
    b >= 0x80
  }

  /** `b & 0x7F` */
  function Low7(b: byte): byte {
    b % 0x80
  }

  /** `b & 0x0F` */
  function Low4(b: byte): byte {
    b % 0x10
  }

  /** Exclusive or of the `width` low bits, the lowest bit last. */
  function XorBits(a: nat, b: nat, width: nat): (r: nat)
    ensures r < Pow2(width)
  {
    if width == 0 then 0 else 2 * XorBits(a / 2, b / 2, width - 1) + (a + b) % 2
  }

  /** `a ^ b` */
  function Xor(a: byte, b: byte): byte {
    assert Pow2(8) == 256 by { assert Pow2(4) == 16; }
    XorBits(a as int, b as int, 8) as byte
  }

  function Pow2(width: nat): (p: nat)
    ensures p > 0
  {
    if width == 0 then 1 else 2 * Pow2(width - 1)
  }

  lemma {:induction false} XorBitsTwice(a: nat, b: nat, width: nat)
    requires a < Pow2(width)
    ensures XorBits(XorBits(a, b, width), b, width) == a
  {
    if width > 0 {
      var high := XorBits(a / 2, b / 2, width - 1);
      XorBitsTwice(a / 2, b / 2, width - 1);
      Parity(a, b, high);
    }
  }

  lemma Parity(a: nat, b: nat, high: nat)
    ensures var r := 2 * high + (a + b) % 2;
            r / 2 == high && (r + b) % 2 == a % 2
  {}

  lemma XorTwice(a: byte, b: byte)
    ensures Xor(Xor(a, b), b) == a
  {
    assert Pow2(8) == 256 by { assert Pow2(4) == 16; }
    XorBitsTwice(a as int, b as int, 8);
  }

  // ---------------------------------------------------------------- numbers

  function Pow256(width: nat): (p: nat)
    ensures p > 0
  {
    if width == 0 then 1 else 256 * Pow256(width - 1)
  }

  /** The low byte of a number, as the conversion `byte(n)` gives it. */
  function LowByte(n: nat): byte {
    (n % 256) as byte
  }

  /** The `width` low bytes of `n`, most significant first. */
  function BigEndian(n: nat, width: nat): (s: seq<byte>)
    ensures |s| == width
  {
    if width == 0 then [] else BigEndian(n / 256, width - 1) + [LowByte(n)]
  }

  function FromBigEndian(s: seq<byte>): (n: nat)
    ensures n < Pow256(|s|)
  {
    if s == [] then 0 else 256 * FromBigEndian(s[..|s| - 1]) + (s[|s| - 1] as int)
  }

  lemma {:induction false} BigEndianRoundTrip(n: nat, width: nat)
    requires n < Pow256(width)
    ensures FromBigEndian(BigEndian(n, width)) == n
  {
    if width > 0 {
      BigEndianRoundTrip(n / 256, width - 1);
      assert BigEndian(n, width)[..width - 1] == BigEndian(n / 256, width - 1);
    }
  }

  lemma DivideTwice(n: nat, width: nat)
    ensures n / 256 / Pow256(width) == n / Pow256(width + 1)
  {
    var p := Pow256(width);
    var q, r := n / 256 / p, n / 256 % p;
    var b := n % 256;
    assert n / 256 == q * p + r && n == 256 * (n / 256) + b;
    assert n == 256 * (q * p + r) + b;
    Regroup(q, p, r, b);
    QuotientUnique(n, 256 * p, q, 256 * r + b);
  }

  lemma Regroup(q: int, p: int, r: int, b: int)
    ensures 256 * (q * p + r) + b == q * (256 * p) + (256 * r + b)
  {}

  /** Byte `i` from the left is the digit of its weight. */
  lemma {:induction false} BigEndianByte(n: nat, width: nat, i: nat)
    requires i < width
    ensures BigEndian(n, width)[i] as int == n / Pow256(width - 1 - i) % 256
  {
    if i == width - 1 {
      assert Pow256(0) == 1;
    } else {
      BigEndianByte(n / 256, width - 1, i);
      DivideTwice(n, width - 2 - i);
    }
  }

  /** Every string of bytes is the big-endian form of its number. */
  lemma {:induction false} BigEndianInverse(s: seq<byte>)
    ensures BigEndian(FromBigEndian(s), |s|) == s
  {
    if s != [] {
      var front, last := s[..|s| - 1], s[|s| - 1];
      BigEndianInverse(front);
      assert FromBigEndian(s) / 256 == FromBigEndian(front) && FromBigEndian(s) % 256 == last as int;
      assert s == front + [last];
    }
  }

  lemma Widths()
    ensures Pow256(2) == TWO_TO_16
    ensures Pow256(8) == TWO_TO_64
  {
    assert Pow256(1) == 256;
    assert Pow256(2) == 0x1_0000;
    assert Pow256(3) == 0x100_0000;
    assert Pow256(4) == 0x1_0000_0000;
    assert Pow256(5) == 0x100_0000_0000;
    assert Pow256(6) == 0x1_0000_0000_0000;
    assert Pow256(7) == 0x100_0000_0000_0000;
    assert Pow256(8) == 0x1_0000_0000_0000_0000;
  }
}
