// The bytes of a frame, position by position, as section 5.2 of RFC 6455 lays them out: what is
// written where, which mask byte meets which payload byte, and which streams are refused.

module FrameBytes {
  import opened Bytes
  import opened Frames
  import opened Sequences

  // ---------------------------------------------------------------- writing

  /** The length of a header without its mask. */
  function HeaderSize(n: nat): nat {
    if n < 126 then 2 else if n <= 65535 then 4 else 10
  }

  /** These bytes are the number's digits, the most significant first. */
  predicate IsBigEndian(digits: seq<byte>, n: nat) {
    forall i :: 0 <= i < |digits| ==> digits[i] as int == n / Pow256(|digits| - 1 - i) % 256
  }

  /** The first bytes of a frame: the final bit and the opcode, then the mask bit and the length. */
  predicate Header(s: seq<byte>, opcode: byte, masked: bool, n: nat) {
    var h, bit := HeaderSize(n), if masked then 128 else 0;
    && |s| >= h
    && s[0] as int == 128 + opcode as int
    && s[1] as int == bit + (if n < 126 then n else if n <= 65535 then 126 else 127)
    && IsBigEndian(s[2..h], if n < 126 then 0 else n)
  }

  lemma BigEndianDigits(n: nat, width: nat)
    ensures IsBigEndian(BigEndian(n, width), n)
  {
    forall i | 0 <= i < width
      ensures BigEndian(n, width)[i] as int == n / Pow256(width - 1 - i) % 256
    {
      BigEndianByte(n, width, i);
    }
  }

  lemma HeaderLaidOut(s: seq<byte>, opcode: byte, masked: bool, n: nat, rest: seq<byte>)
    requires opcode < 16 && n < TWO_TO_63
    requires s == [SetTopBit(opcode)] + LengthField(masked, n) + rest
    ensures Header(s, opcode, masked, n)
    ensures s[HeaderSize(n)..] == rest
  {
    var first, second, ext := SetTopBit(opcode), SecondByte(masked, n), ExtendedLength(n);
    assert s == [first, second] + ext + rest;
    Slices([first, second], ext, rest);
    BigEndianDigits(n, |ext|);
    assert s[2..HeaderSize(n)] == ext;
  }

  /** The gateway writes the header without mask bit, and the payload as it is. */
  lemma ServerBytesExactly(f: Frame)
    requires Sendable(f)
    ensures Header(ServerBytes(f), f.opcode, false, |f.payload|)
    ensures ServerBytes(f)[HeaderSize(|f.payload|)..] == f.payload
  {
    HeaderLaidOut(ServerBytes(f), f.opcode, false, |f.payload|, f.payload);
  }

  /** The client writes the header with mask bit, the mask, and the payload under the mask: byte `i`
      meets mask byte `i` modulo four. */
  lemma ClientBytesExactly(f: Frame, mask: seq<byte>)
    requires Sendable(f) && |mask| == 4
    ensures var s, h, n := ClientBytes(f, mask), HeaderSize(|f.payload|), |f.payload|;
            && Header(s, f.opcode, true, n)
            && |s| == h + 4 + n
            && s[h..h + 4] == mask
            && forall i :: 0 <= i < n ==> s[h + 4..][i] == Xor(f.payload[i], mask[i % 4])
  {
    var s, h, n := ClientBytes(f, mask), HeaderSize(|f.payload|), |f.payload|;
    var masked := Mask(f.payload, mask);
    Associate([SetTopBit(f.opcode)] + LengthField(true, n), mask, masked);
    HeaderLaidOut(s, f.opcode, true, n, mask + masked);
    assert s[h..h + 4] == s[h..][..4] == mask;
    assert s[h + 4..] == s[h..][4..] == masked;
    assert forall i :: 0 <= i < n ==> s[h + 4..][i] == Xor(f.payload[i], mask[i % 4]);
  }

  // ---------------------------------------------------------------- reading

  /** Where the extended length of a stream ends, by its second byte. */
  function BodyAt(s: seq<byte>): nat
    requires |s| >= 2
  {
    if s[1] % 128 == 126 then 4 else if s[1] % 128 == 127 then 10 else 2
  }

  /** The length that a stream declares, as an unsigned number. */
  predicate Declares(s: seq<byte>, n: nat)
    requires |s| >= 2 && |s| >= BodyAt(s)
  {
    if s[1] % 128 < 126 then n == (s[1] % 128) as int
    else n < Pow256(BodyAt(s) - 2) && IsBigEndian(s[2..BodyAt(s)], n)
  }

  lemma DeclaredBytes(s: seq<byte>)
    requires |s| >= 2 && |s| >= BodyAt(s)
    ensures BodyAt(s) == 2 + Extension(Low7(s[1]))
    ensures Declares(s, DeclaredLength(Low7(s[1]), s[2..BodyAt(s)]))
  {
    var ext := s[2..BodyAt(s)];
    BigEndianInverse(ext);
    BigEndianDigits(FromBigEndian(ext), |ext|);
  }

  /** The digits determine the number. */
  lemma {:induction false} DigitsDetermine(digits: seq<byte>, n: nat)
    requires n < Pow256(|digits|) && IsBigEndian(digits, n)
    ensures n == FromBigEndian(digits)
  {
    BigEndianDigits(n, |digits|);
    assert BigEndian(n, |digits|) == digits;
    BigEndianRoundTrip(n, |digits|);
  }

  /** A frame read from a client: its opcode is the low half of the first byte, and payload byte `i` is
      byte `i` behind the mask under mask byte `i` modulo four. */
  lemma ClientReadingBytes(s: seq<byte>, max: int)
    requires ParseClient(s, max).Got?
    ensures |s| >= 2 && |s| >= BodyAt(s) + 4
    ensures var h, f := BodyAt(s), ParseClient(s, max).frame;
            && Declares(s, |f.payload|) && |f.payload| <= max
            && f.opcode == s[0] % 16
            && |s| >= h + 4 + |f.payload|
            && (forall i :: 0 <= i < |f.payload| ==> f.payload[i] == Xor(s[h + 4 + i], s[h + i % 4]))
            && ParseClient(s, max).rest == s[h + 4 + |f.payload|..]
  {
    DeclaredBytes(s);
    var h := BodyAt(s);
    var body := s[h..];
    assert body[..4] == s[h..h + 4];
  }

  /** The client reads a frame of the gateway as soon as it is whole, and not before: header, declared
      length and payload as they stand in the stream. */
  lemma ServerReadingBytes(s: seq<byte>)
    ensures |s| >= 2 && |s| >= BodyAt(s) ==>
              exists n: nat ::
                && Declares(s, n)
                && ParseServer(s) == if |s| < BodyAt(s) + n then Bad(SocketClosed, [])
                                     else Got(Frame(s[0] % 16, s[BodyAt(s)..BodyAt(s) + n]), s[BodyAt(s) + n..])
    ensures |s| < 2 || |s| < BodyAt(s) ==> ParseServer(s) == Bad(SocketClosed, [])
  {
    if |s| >= 2 && |s| >= BodyAt(s) {
      DeclaredBytes(s);
    }
  }

  /** Which streams are refused, and where reading stops: fragments, frames without a mask, and frames
      over the limit, each as soon as it can be told. */
  lemma ClientRefusals(s: seq<byte>, max: int)
    ensures |s| < 2 ==> ParseClient(s, max) == Bad(if s == [] then Eof else UnexpectedEof, [])
    ensures |s| >= 2 ==>
              && (ParseClient(s, max) == Bad(Fragmented, s[2..]) <==> s[0] < 128)
              && (ParseClient(s, max) == Bad(Unmasked, s[2..]) <==> s[0] >= 128 && s[1] < 128)
    ensures |s| >= 2 && s[0] >= 128 && s[1] >= 128 ==>
              if |s| < BodyAt(s) then ParseClient(s, max) == Bad(if |s| == 2 then Eof else UnexpectedEof, [])
              else
                exists n: nat :: Declares(s, n) && RefusedAt(s, max, if n < TWO_TO_63 then n else n - TWO_TO_64)
  {
    if |s| >= 2 && |s| >= BodyAt(s) {
      DeclaredBytes(s);
    }
  }

  /** What comes of a declared length, read as a signed number. */
  predicate RefusedAt(s: seq<byte>, max: int, n: int)
    requires |s| >= 2 && |s| >= BodyAt(s)
  {
    var h, r := BodyAt(s), ParseClient(s, max);
    if n > max then r == Bad(TooLarge(n), s[h..])
    else if |s| < h + 4 then r == Bad(if |s| == h then Eof else UnexpectedEof, [])
    else if n < 0 then r == Bad(NegativeLength, s[h + 4..])
    else if |s| < h + 4 + n then r == Bad(if |s| == h + 4 then Eof else UnexpectedEof, [])
    else r.Got? && |r.frame.payload| == n
  }
}
