// The WebSocket frame format of section 5.2 of RFC 6455 and the masking of section 5.3,
// as the gateway and its client write and read it.

module Frames {
  import opened Bytes
  import opened Sequences
  import opened Wrappers

  datatype Frame = Frame(opcode: byte, payload: seq<byte>)

  const TEXT: byte := 0x1
  const CLOSE: byte := 0x8
  const PING: byte := 0x9
  const PONG: byte := 0xA

  /** Opcodes have four bits; Go slice lengths fit in a signed 64-bit integer. */
  predicate Sendable(f: Frame) {
    f.opcode < 16 && |f.payload| < TWO_TO_63
  }

  // ---------------------------------------------------------------- writing

  /** The 7-bit length: the payload's own size, or the mark of a longer form. */
  function ShortLength(n: nat): (r: nat)
    ensures r < 128
  {
    if n < 126 then n else if n <= 65535 then 126 else 127
  }

  function ExtendedLength(n: nat): (s: seq<byte>)
    ensures |s| <= 8
  {
    if n < 126 then [] else if n <= 65535 then BigEndian(n, 2) else BigEndian(n, 8)
  }

  function SecondByte(masked: bool, n: nat): byte {
    if masked then SetTopBit(LowByte(ShortLength(n))) else LowByte(ShortLength(n))
  }

  /** The second header byte and the extended length, in one of three forms. */
  function LengthField(masked: bool, n: nat): (s: seq<byte>)
    ensures 1 <= |s| <= 9
  {
    [SecondByte(masked, n)] + ExtendedLength(n)
  }

  function ServerHeader(f: Frame): (s: seq<byte>)
    ensures 2 <= |s| <= 10
  {
    [SetTopBit(f.opcode)] + LengthField(false, |f.payload|)
  }

  /** Everything the gateway puts on the wire for one unmasked frame. */
  function ServerBytes(f: Frame): (s: seq<byte>)
    ensures |s| >= 2
  {
    ServerHeader(f) + f.payload
  }

  function Mask(payload: seq<byte>, mask: seq<byte>): (s: seq<byte>)
    requires |mask| == 4
    ensures |s| == |payload|
  {
    seq(|payload|, i requires 0 <= i < |payload| => Xor(payload[i], mask[i % 4]))
  }

  /** Everything the client puts on the wire for one masked frame. */
  function ClientBytes(f: Frame, mask: seq<byte>): (s: seq<byte>)
    requires |mask| == 4
    ensures |s| >= 6
  {
    [SetTopBit(f.opcode)] + LengthField(true, |f.payload|) + mask + Mask(f.payload, mask)
  }

  // ---------------------------------------------------------------- reading

  datatype ReadError =
    | Eof
    | UnexpectedEof
    | Fragmented
    | Unmasked
    | TooLarge(length: int)
    | NegativeLength  // the allocation of the payload panics
    | SocketClosed    // this and the next are the client's errors
    | SocketTimeout

  /** A frame or an error, with the bytes that stay unread. */
  datatype Reading =
    | Got(frame: Frame, rest: seq<byte>)
    | Bad(error: ReadError, rest: seq<byte>)

  /** What a full read reports when the stream holds too few bytes. */
  function ShortRead(left: seq<byte>): ReadError {
    if left == [] then Eof else UnexpectedEof
  }

  /** How many bytes of extended length follow a 7-bit length. */
  function Extension(short: byte): nat {
    if short == 126 then 2 else if short == 127 then 8 else 0
  }

  function DeclaredLength(short: byte, extension: seq<byte>): (n: nat)
    requires |extension| == Extension(short)
    ensures n < TWO_TO_64
  {
    Widths();
    if extension == [] then short as int else FromBigEndian(extension)
  }

  /** The value of 64 bits reinterpreted as a signed integer. */
  function Int64(n: nat): int
    requires n < TWO_TO_64
  {
    if n < TWO_TO_63 then n else n - TWO_TO_64
  }

  /** One frame sent by a client, as the gateway reads it with size limit `max`. */
  function ParseClient(s: seq<byte>, max: int): Reading {
    if |s| < 2 then Bad(ShortRead(s), [])
    else if !TopBit(s[0]) then Bad(Fragmented, s[2..])
    else if !TopBit(s[1]) then Bad(Unmasked, s[2..])
    else
      var k := Extension(Low7(s[1]));
      if |s| < 2 + k then Bad(ShortRead(s[2..]), [])
      else
        var length := Int64(DeclaredLength(Low7(s[1]), s[2..2 + k]));
        var body := s[2 + k..];
        if length > max then Bad(TooLarge(length), body)
        else if |body| < 4 then Bad(ShortRead(body), [])
        else if length < 0 then Bad(NegativeLength, body[4..])
        else if |body| < 4 + length then Bad(ShortRead(body[4..]), [])
        else Got(Frame(Low4(s[0]), Mask(body[4..4 + length], body[..4])), body[4 + length..])
  }

  /** One frame sent by the gateway, as the client reads it. */
  function ParseServer(s: seq<byte>): Reading {
    if |s| < 2 then Bad(SocketClosed, [])
    else
      var k := Extension(Low7(s[1]));
      if |s| < 2 + k then Bad(SocketClosed, [])
      else
        var length := DeclaredLength(Low7(s[1]), s[2..2 + k]);
        if |s| < 2 + k + length then Bad(SocketClosed, [])
        else Got(Frame(Low4(s[0]), s[2 + k..2 + k + length]), s[2 + k + length..])
  }

  // ---------------------------------------------------------------- one frame

  /** The length field of either direction is read back. */
  lemma LengthFieldReads(masked: bool, n: nat)
    requires n < TWO_TO_63
    ensures var second := SecondByte(masked, n);
            && TopBit(second) == masked
            && |ExtendedLength(n)| == Extension(Low7(second))
            && DeclaredLength(Low7(second), ExtendedLength(n)) == n
  {
    Widths();
    if 126 <= n <= 65535 {
      BigEndianRoundTrip(n, 2);
    } else if n > 65535 {
      BigEndianRoundTrip(n, 8);
    }
  }

  lemma ParseServerParts(first: byte, second: byte, ext: seq<byte>, payload: seq<byte>, tail: seq<byte>)
    requires |ext| == Extension(Low7(second))
    requires DeclaredLength(Low7(second), ext) == |payload|
    ensures ParseServer([first, second] + ext + payload + tail) == Got(Frame(Low4(first), payload), tail)
  {
    var s := [first, second] + ext + payload + tail;
    Slices([first, second], ext, payload + tail);
    Slices([first, second] + ext, payload, tail);
    assert s == [first, second] + ext + (payload + tail);
  }

  /** A frame's bytes split where a reader splits them. */
  lemma ServerBytesSplit(f: Frame, tail: seq<byte>)
    ensures ServerBytes(f) + tail
         == [SetTopBit(f.opcode), SecondByte(false, |f.payload|)] + ExtendedLength(|f.payload|) + f.payload + tail
  {
    var first, second := SetTopBit(f.opcode), SecondByte(false, |f.payload|);
    Associate([first], [second], ExtendedLength(|f.payload|));
    assert [first] + [second] == [first, second];
  }

  lemma ServerFrameRoundTrip(f: Frame, tail: seq<byte>)
    requires Sendable(f)
    ensures ParseServer(ServerBytes(f) + tail) == Got(f, tail)
  {
    var n := |f.payload|;
    var second := SecondByte(false, n);
    LengthFieldReads(false, n);
    ParseServerParts(SetTopBit(f.opcode), second, ExtendedLength(n), f.payload, tail);
    ServerBytesSplit(f, tail);
  }

  lemma MaskTwice(payload: seq<byte>, mask: seq<byte>)
    requires |mask| == 4
    ensures Mask(Mask(payload, mask), mask) == payload
  {
    forall i | 0 <= i < |payload|
      ensures Mask(Mask(payload, mask), mask)[i] == payload[i]
    {
      Bytes.XorTwice(payload[i], mask[i % 4]);
    }
  }

  lemma ParseClientHeader(first: byte, second: byte, ext: seq<byte>, body: seq<byte>, max: int)
    requires TopBit(first) && TopBit(second)
    requires |ext| == Extension(Low7(second))
    ensures var s := [first, second] + ext + body;
            var length := Int64(DeclaredLength(Low7(second), ext));
            ParseClient(s, max) ==
            if length > max then Bad(TooLarge(length), body)
            else if |body| < 4 then Bad(ShortRead(body), [])
            else if length < 0 then Bad(NegativeLength, body[4..])
            else if |body| < 4 + length then Bad(ShortRead(body[4..]), [])
            else Got(Frame(Low4(first), Mask(body[4..4 + length], body[..4])), body[4 + length..])
  {
    Slices([first, second], ext, body);
  }

  lemma ClientBytesSplit(f: Frame, mask: seq<byte>, tail: seq<byte>)
    requires |mask| == 4
    ensures ClientBytes(f, mask) + tail
         == [SetTopBit(f.opcode), SecondByte(true, |f.payload|)] + ExtendedLength(|f.payload|)
            + (mask + Mask(f.payload, mask) + tail)
  {
    var first, second := SetTopBit(f.opcode), SecondByte(true, |f.payload|);
    var ext, masked := ExtendedLength(|f.payload|), Mask(f.payload, mask);
    Associate([first], [second], ext);
    assert [first] + [second] == [first, second];
    Associate([first, second] + ext, mask, masked);
    Associate([first, second] + ext, mask + masked, tail);
  }

  lemma ClientBodySplit(mask: seq<byte>, masked: seq<byte>, tail: seq<byte>)
    requires |mask| == 4
    ensures var body := mask + masked + tail;
            && body[..4] == mask
            && body[4..4 + |masked|] == masked
            && body[4 + |masked|..] == tail
  {
    Slices(mask, masked, tail);
  }

  lemma ParseClientParts(first: byte, second: byte, ext: seq<byte>, mask: seq<byte>, masked: seq<byte>,
                         tail: seq<byte>, max: int)
    requires TopBit(first) && TopBit(second)
    requires |ext| == Extension(Low7(second))
    requires DeclaredLength(Low7(second), ext) == |masked| < TWO_TO_63
    requires |mask| == 4 && |masked| <= max
    ensures ParseClient([first, second] + ext + (mask + masked + tail), max)
         == Got(Frame(Low4(first), Mask(masked, mask)), tail)
  {
    ParseClientHeader(first, second, ext, mask + masked + tail, max);
    ClientBodySplit(mask, masked, tail);
  }

  lemma ClientFrameRoundTrip(f: Frame, mask: seq<byte>, tail: seq<byte>, max: int)
    requires |mask| == 4
    requires Sendable(f) && |f.payload| <= max
    ensures ParseClient(ClientBytes(f, mask) + tail, max) == Got(f, tail)
  {
    var n := |f.payload|;
    var second := SecondByte(true, n);
    LengthFieldReads(true, n);
    ParseClientParts(SetTopBit(f.opcode), second, ExtendedLength(n), mask, Mask(f.payload, mask), tail, max);
    ClientBytesSplit(f, mask, tail);
    MaskTwice(f.payload, mask);
  }

  /** A client frame over the gateway's limit is refused before its body is read. */
  lemma OversizedClientFrame(f: Frame, mask: seq<byte>, tail: seq<byte>, max: int)
    requires |mask| == 4
    requires Sendable(f) && |f.payload| > max
    ensures ParseClient(ClientBytes(f, mask) + tail, max)
         == Bad(TooLarge(|f.payload|), mask + Mask(f.payload, mask) + tail)
  {
    var n := |f.payload|;
    var second := SecondByte(true, n);
    var body := mask + Mask(f.payload, mask) + tail;
    LengthFieldReads(true, n);
    ParseClientHeader(SetTopBit(f.opcode), second, ExtendedLength(n), body, max);
    ClientBytesSplit(f, mask, tail);
  }

  // ---------------------------------------------------------------- streams

  function ServerStream(frames: seq<Frame>): seq<byte> {
    if frames == [] then [] else ServerBytes(frames[0]) + ServerStream(frames[1..])
  }

  function ClientStream(frames: seq<Frame>, masks: seq<seq<byte>>): seq<byte>
    requires |masks| == |frames|
    requires forall i :: 0 <= i < |masks| ==> |masks[i]| == 4
  {
    if frames == [] then [] else ClientBytes(frames[0], masks[0]) + ClientStream(frames[1..], masks[1..])
  }

  /** Reads exactly `count` frames of the gateway, if the stream holds them. */
  function ReadServer(s: seq<byte>, count: nat): Option<(seq<Frame>, seq<byte>)> {
    if count == 0 then Some(([], s))
    else
      match ParseServer(s)
      case Bad(_, _) => None
      case Got(f, rest) =>
        match ReadServer(rest, count - 1)
        case None => None
        case Some((frames, tail)) => Some(([f] + frames, tail))
  }

  function ReadClient(s: seq<byte>, max: int, count: nat): Option<(seq<Frame>, seq<byte>)> {
    if count == 0 then Some(([], s))
    else
      match ParseClient(s, max)
      case Bad(_, _) => None
      case Got(f, rest) =>
        match ReadClient(rest, max, count - 1)
        case None => None
        case Some((frames, tail)) => Some(([f] + frames, tail))
  }

  lemma {:induction false} ServerStreamRoundTrip(frames: seq<Frame>, tail: seq<byte>)
    requires forall f | f in frames :: Sendable(f)
    ensures ReadServer(ServerStream(frames) + tail, |frames|) == Some((frames, tail))
  {
    if frames != [] {
      var more := ServerStream(frames[1..]) + tail;
      ServerFrameRoundTrip(frames[0], more);
      Associate(ServerBytes(frames[0]), ServerStream(frames[1..]), tail);
      ServerStreamRoundTrip(frames[1..], tail);
      assert [frames[0]] + frames[1..] == frames;
    } else {
      assert ServerStream(frames) + tail == tail;
    }
  }

  lemma {:induction false} ClientStreamRoundTrip(
      frames: seq<Frame>, masks: seq<seq<byte>>, tail: seq<byte>, max: int)
    requires |masks| == |frames|
    requires forall i :: 0 <= i < |masks| ==> |masks[i]| == 4
    requires forall f | f in frames :: Sendable(f) && |f.payload| <= max
    ensures ReadClient(ClientStream(frames, masks) + tail, max, |frames|) == Some((frames, tail))
  {
    if frames != [] {
      var more := ClientStream(frames[1..], masks[1..]) + tail;
      ClientFrameRoundTrip(frames[0], masks[0], more, max);
      Associate(ClientBytes(frames[0], masks[0]), ClientStream(frames[1..], masks[1..]), tail);
      ClientStreamRoundTrip(frames[1..], masks[1..], tail, max);
      assert [frames[0]] + frames[1..] == frames;
    } else {
      assert ClientStream(frames, masks) + tail == tail;
    }
  }

  lemma {:induction false} ServerStreamAppend(frames: seq<Frame>, f: Frame)
    ensures ServerStream(frames + [f]) == ServerStream(frames) + ServerBytes(f)
  {
    if frames == [] {
      assert [f][1..] == [];
    } else {
      ServerStreamAppend(frames[1..], f);
      assert (frames + [f])[1..] == frames[1..] + [f];
      Associate(ServerBytes(frames[0]), ServerStream(frames[1..]), ServerBytes(f));
    }
  }

  // ---------------------------------------------------------------- prefixes and size

  lemma ReadingConsumes(s: seq<byte>)
    requires ParseServer(s).Got?
    ensures |s| >= 2 + |ParseServer(s).rest|
  {}

  /** More bytes behind a frame that can be read do not change it. */
  lemma ParseServerExtend(s: seq<byte>, more: seq<byte>)
    requires ParseServer(s).Got?
    ensures ParseServer(s + more) == Got(ParseServer(s).frame, ParseServer(s).rest + more)
  {
    var k := Extension(Low7(s[1]));
    var n := DeclaredLength(Low7(s[1]), s[2..2 + k]);
    assert (s + more)[2..2 + k] == s[2..2 + k];
    assert (s + more)[2 + k..2 + k + n] == s[2 + k..2 + k + n];
    assert (s + more)[2 + k + n..] == s[2 + k + n..] + more;
  }

  /** No proper prefix of an encoded frame reads as a frame. */
  lemma ProperPrefixIsNoFrame(p: seq<byte>, f: Frame)
    requires Sendable(f)
    requires p <= ServerBytes(f) && p != ServerBytes(f)
    ensures ParseServer(p).Bad?
  {
    if ParseServer(p).Got? {
      var more := ServerBytes(f)[|p|..];
      assert p + more == ServerBytes(f) + [];
      ParseServerExtend(p, more);
      ServerFrameRoundTrip(f, []);
    }
  }

  lemma PrefixFree(f: Frame, g: Frame)
    requires Sendable(f) && Sendable(g)
    requires ServerBytes(f) <= ServerBytes(g)
    ensures f == g
  {
    ServerFrameRoundTrip(f, ServerBytes(g)[|ServerBytes(f)|..]);
    ServerFrameRoundTrip(g, []);
    assert ServerBytes(f) + ServerBytes(g)[|ServerBytes(f)|..] == ServerBytes(g) + [];
  }

  /** Of all byte strings that read as a frame, the gateway's is a shortest one. */
  lemma ShortestEncoding(s: seq<byte>)
    requires ParseServer(s).Got?
    ensures |ServerBytes(ParseServer(s).frame)| <= |s| - |ParseServer(s).rest|
  {
    var short := Low7(s[1]);
    var k := Extension(short);
    Widths();
    assert short <= 127;
    if short == 126 {
      assert FromBigEndian(s[2..4]) < Pow256(2);
    }
  }

  // ---------------------------------------------------------------- reading to the end

  /** Reads frames of the gateway until no more can be read. */
  function DecodeServer(s: seq<byte>): (seq<Frame>, seq<byte>)
    decreases |s|
  {
    match ParseServer(s)
    case Bad(_, _) => ([], s)
    case Got(f, rest) =>
      ReadingConsumes(s);
      var (frames, tail) := DecodeServer(rest);
      ([f] + frames, tail)
  }

  /** An interrupted stream decodes to its whole frames and leaves the cut frame unread. */
  lemma {:induction false} DecodeInterrupted(frames: seq<Frame>, cut: seq<byte>)
    requires forall f | f in frames :: Sendable(f)
    requires ParseServer(cut).Bad?
    ensures DecodeServer(ServerStream(frames) + cut) == (frames, cut)
  {
    if frames != [] {
      var more := ServerStream(frames[1..]) + cut;
      ServerFrameRoundTrip(frames[0], more);
      Associate(ServerBytes(frames[0]), ServerStream(frames[1..]), cut);
      DecodeInterrupted(frames[1..], cut);
      assert [frames[0]] + frames[1..] == frames;
    } else {
      assert ServerStream(frames) + cut == cut;
    }
  }
}
