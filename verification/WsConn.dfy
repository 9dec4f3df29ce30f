// The gateway's end of a WebSocket connection: reading masked frames from a buffered stream,
// writing unmasked frames in two writes, and the loop that answers control frames.

module WsConn {
  import opened Bytes
  import opened Frames
  import opened Sequences
  import opened Wrappers

  // ---------------------------------------------------------------- specification

  /** The bytes still to be read, the bytes written, and the fate of the coming writes:
      `Some(n)` is a write that fails after `n` bytes; past the end every write succeeds. */
  datatype State = State(input: seq<byte>, wire: seq<byte>, fates: seq<Option<nat>>)

  function Written(s: State, data: seq<byte>): (State, bool) {
    if s.fates == [] then (s.(wire := s.wire + data), true)
    else
      var later := s.fates[1..];
      match s.fates[0]
      case None => (State(s.input, s.wire + data, later), true)
      case Some(n) => (State(s.input, s.wire + data[..if n < |data| then n else |data|], later), false)
  }

  /** The header, then the payload unless it is empty or the header failed. */
  function FrameWritten(s: State, f: Frame): (State, bool) {
    var (s', ok) := Written(s, ServerHeader(f));
    if !ok || f.payload == [] then (s', ok) else Written(s', f.payload)
  }

  /** What one call of the read loop hands to its caller. */
  datatype Delivery =
    | Text(payload: seq<byte>)
    | ReadFailed(error: ReadError)  // a close frame is `ReadFailed(Eof)`
    | WriteFailed
    | Unsupported(opcode: byte)

  function ReadText(s: State, max: int): (Delivery, State)
    decreases |s.input|
  {
    match ParseClient(s.input, max)
    case Bad(e, rest) => (ReadFailed(e), s.(input := rest))
    case Got(f, rest) =>
      ClientReadingConsumes(s.input, max);
      var s' := s.(input := rest);
      if f.opcode == TEXT then (Text(f.payload), s')
      else if f.opcode == CLOSE then (ReadFailed(Eof), s')
      else if f.opcode == PING then
        var (s'', ok) := FrameWritten(s', Frame(PONG, f.payload));
        if ok then ReadText(s'', max) else (WriteFailed, s'')
      else if f.opcode == PONG then ReadText(s', max)
      else (Unsupported(f.opcode), s')
  }

  /** Every frame read from a client takes at least six bytes. */
  lemma ClientReadingConsumes(s: seq<byte>, max: int)
    requires ParseClient(s, max).Got?
    ensures |s| >= 6 + |ParseClient(s, max).rest|
  {}

  // ---------------------------------------------------------------- implementation

  class Conn {
    var input: seq<byte>
    var wire: seq<byte>
    var fates: seq<Option<nat>>
    const max: int

    constructor (input: seq<byte>, fates: seq<Option<nat>>, max: int)
      ensures View() == State(input, [], fates) && this.max == max
    {
      this.input, this.wire, this.fates, this.max := input, [], fates, max;
    }

    function View(): State
      reads this
    {
      State(input, wire, fates)
    }

    method ReadFull(size: nat) returns (r: Result<seq<byte>, ReadError>)
      modifies this`input
      ensures size <= |old(input)| ==> r == Ok(old(input)[..size]) && input == old(input)[size..]
      ensures size > |old(input)| ==> r == Err(ShortRead(old(input))) && input == []
    {
      if size <= |input| {
        r, input := Ok(input[..size]), input[size..];
      } else {
        r, input := Err(ShortRead(input)), [];
      }
    }

    method Write(data: seq<byte>) returns (ok: bool)
      modifies this`wire, this`fates
      ensures (View(), ok) == Written(old(View()), data)
    {
      if fates == [] {
        wire, ok := wire + data, true;
      } else {
        match fates[0] {
          case None =>
            wire, ok := wire + data, true;
          case Some(n) =>
            wire, ok := wire + data[..if n < |data| then n else |data|], false;
        }
        fates := fates[1..];
      }
    }

    method ReadFrame() returns (r: Result<Frame, ReadError>)
      modifies this`input
      ensures match ParseClient(old(input), max)
              case Got(f, rest) => r == Ok(f) && input == rest
              case Bad(e, rest) => r == Err(e) && input == rest
    {
      ghost var stream := input;
      var header := ReadFull(2);
      if header.Err? {
        return Err(header.error);
      }
      if !TopBit(header.value[0]) {
        return Err(Fragmented);
      }
      if !TopBit(header.value[1]) {
        return Err(Unmasked);
      }
      var short := Low7(header.value[1]);
      var payloadLen := short as int;
      if payloadLen == 126 {
        var buf := ReadFull(2);
        if buf.Err? {
          return Err(buf.error);
        }
        Skip(stream, 2, 2);
        payloadLen := FromBigEndian(buf.value);
      } else if payloadLen == 127 {
        var buf := ReadFull(8);
        if buf.Err? {
          return Err(buf.error);
        }
        Skip(stream, 2, 8);
        Widths();
        payloadLen := Int64(FromBigEndian(buf.value));
      }
      ghost var length := Int64(DeclaredLength(short, stream[2..2 + Extension(short)]));
      assert input == stream[2 + Extension(short)..];
      assert payloadLen == length by {
        Widths();
      }
      if payloadLen > max {
        return Err(TooLarge(payloadLen));
      }
      ghost var body := input;
      var mask := ReadFull(4);
      if mask.Err? {
        return Err(mask.error);
      }
      if payloadLen < 0 {
        return Err(NegativeLength);
      }
      var data := ReadFull(payloadLen);
      if data.Err? {
        return Err(data.error);
      }
      Skip(body, 4, payloadLen);
      var payload := Unmask(data.value, mask.value);
      return Ok(Frame(Low4(header.value[0]), payload));
    }

    /** Undoes the mask in place in the buffer the payload was read into. */
    method Unmask(data: seq<byte>, mask: seq<byte>) returns (payload: seq<byte>)
      requires |mask| == 4
      ensures |payload| == |data| && forall i :: 0 <= i < |data| ==> payload[i] == Xor(data[i], mask[i % 4])
      ensures payload == Mask(data, mask)
    {
      var buf := new byte[|data|](i requires 0 <= i < |data| => data[i]);
      for i := 0 to buf.Length
        invariant forall k :: 0 <= k < i ==> buf[k] == Xor(data[k], mask[k % 4])
        invariant forall k :: i <= k < buf.Length ==> buf[k] == data[k]
      {
        buf[i] := Xor(buf[i], mask[i % 4]);
      }
      payload := buf[..];
    }

    method WriteFrame(opcode: byte, payload: seq<byte>) returns (ok: bool)
      requires |payload| < TWO_TO_63  // the length of a slice is a signed 64-bit integer
      modifies this`wire, this`fates
      ensures (View(), ok) == FrameWritten(old(View()), Frame(opcode, payload))
    {
      var header := [SetTopBit(opcode)];
      var length := |payload|;
      if length < 126 {
        header := header + [LowByte(length)];
      } else if length <= 65535 {
        header := header + [126, LowByte(length / 256), LowByte(length)];
        TwoBytes(length);
      } else {
        header := header + [127];
        header := header + BigEndian(length, 8);
      }
      assert header == ServerHeader(Frame(opcode, payload));
      ok := Write(header);
      if !ok || |payload| == 0 {
        return;
      }
      ok := Write(payload);
    }

    /** The loop of the JSON reader; what it hands over is the text before decoding. */
    method ReadJSON() returns (d: Delivery)
      modifies this`input, this`wire, this`fates
      ensures (d, View()) == ReadText(old(View()), max)
    {
      while true
        invariant ReadText(View(), max) == ReadText(old(View()), max)
        decreases |input|
      {
        ClientPayloadSize(input, max);
        ghost var before := input;
        var frame := ReadFrame();
        if frame.Err? {
          return ReadFailed(frame.error);
        }
        ClientReadingConsumes(before, max);
        var opcode, payload := frame.value.opcode, frame.value.payload;
        if opcode == TEXT {
          return Text(payload);
        } else if opcode == CLOSE {
          return ReadFailed(Eof);
        } else if opcode == PING {
          var ok := WriteFrame(PONG, payload);
          if !ok {
            return WriteFailed;
          }
        } else if opcode == PONG {
          continue;
        } else {
          return Unsupported(opcode);
        }
      }
    }
  }

  lemma TwoBytes(n: nat)
    ensures BigEndian(n, 2) == [LowByte(n / 256), LowByte(n)]
  {
    assert BigEndian(n / 256, 1) == BigEndian(n / 256 / 256, 0) + [LowByte(n / 256)];
  }

  lemma ClientPayloadSize(s: seq<byte>, max: int)
    ensures ParseClient(s, max).Got? ==> |ParseClient(s, max).frame.payload| < TWO_TO_63
  {}

  // ---------------------------------------------------------------- meaning of the read loop

  predicate PingOrPong(f: Frame) {
    f.opcode == PING || f.opcode == PONG
  }

  function PongFor(f: Frame): seq<Frame> {
    if f.opcode == PING then [Frame(PONG, f.payload)] else []
  }

  /** One pong per ping, with its payload, in order. */
  function Pongs(frames: seq<Frame>): seq<Frame> {
    if frames == [] then [] else PongFor(frames[0]) + Pongs(frames[1..])
  }

  /** Writes frames until one fails. */
  function WriteAll(s: State, frames: seq<Frame>): (State, bool)
    decreases |frames|
  {
    if frames == [] then (s, true)
    else
      var (s', ok) := FrameWritten(s, frames[0]);
      if ok then WriteAll(s', frames[1..]) else (s', false)
  }

  /** Writing neither uses nor changes what is still to be read. */
  lemma WritingKeepsInput(s: State, f: Frame, input: seq<byte>)
    ensures var (out, ok) := FrameWritten(s, f);
            && out.input == s.input
            && FrameWritten(s.(input := input), f) == (out.(input := input), ok)
  {}

  lemma ReadTextSkipsOne(f: Frame, mask: seq<byte>, s: State, max: int)
    requires |mask| == 4
    requires Sendable(f) && |f.payload| <= max && PingOrPong(f)
    ensures var (out, ok) := WriteAll(s, PongFor(f));
            ReadText(s.(input := ClientBytes(f, mask) + s.input), max)
            == if ok then ReadText(out, max) else (WriteFailed, out)
  {
    ClientFrameRoundTrip(f, mask, s.input, max);
    assert s.(input := s.input) == s;
    if f.opcode == PING {
      var pong := Frame(PONG, f.payload);
      assert PongFor(f) == [pong];
      assert WriteAll(s, [pong]) == FrameWritten(s, pong);
    } else {
      assert PongFor(f) == [];
    }
  }

  /** Skipping one frame and then the rest writes the pongs of both. */
  lemma WriteAllSplits(s: State, first: seq<Frame>, later: seq<Frame>)
    requires |first| <= 1
    ensures var (mid, ok) := WriteAll(s, first);
            WriteAll(s, first + later) == if ok then WriteAll(mid, later) else (mid, false)
  {
    if first == [] {
      assert first + later == later;
    } else {
      assert (first + later)[1..] == later;
    }
  }

  lemma {:induction false} WriteAllKeepsInput(s: State, frames: seq<Frame>, input: seq<byte>)
    ensures var (out, ok) := WriteAll(s, frames);
            && out.input == s.input
            && WriteAll(s.(input := input), frames) == (out.(input := input), ok)
    decreases |frames|
  {
    if frames != [] {
      WritingKeepsInput(s, frames[0], input);
      WriteAllKeepsInput(FrameWritten(s, frames[0]).0, frames[1..], input);
    }
  }

  /** The outcome does not depend on what follows, except that a failed write ends the loop. */
  predicate SkippedTo(r: (Delivery, State), out: State, ok: bool, max: int) {
    if ok then r == ReadText(out, max)
    else r.0 == WriteFailed && r.1.wire == out.wire && r.1.fates == out.fates
  }

  /** On well-formed frames the loop skips leading pings and pongs, writing exactly the pongs of the
      pings, and then behaves as on what follows; it stops at the first pong that cannot be written. */
  lemma {:induction false} ReadTextSkipsControl(control: seq<Frame>, masks: seq<seq<byte>>, s: State, max: int)
    requires |masks| == |control|
    requires forall i :: 0 <= i < |masks| ==> |masks[i]| == 4
    requires forall f | f in control :: Sendable(f) && |f.payload| <= max && PingOrPong(f)
    ensures var (out, ok) := WriteAll(s, Pongs(control));
            SkippedTo(ReadText(s.(input := ClientStream(control, masks) + s.input), max), out, ok, max)
    decreases |control|
  {
    if control == [] {
      assert ClientStream(control, masks) + s.input == s.input;
    } else {
      var f, more := control[0], ClientStream(control[1..], masks[1..]) + s.input;
      var (mid, ok) := WriteAll(s, PongFor(f));
      Associate(ClientBytes(f, masks[0]), ClientStream(control[1..], masks[1..]), s.input);
      ReadTextSkipsOne(f, masks[0], s.(input := more), max);
      WriteAllKeepsInput(s, PongFor(f), more);
      WriteAllSplits(s, PongFor(f), Pongs(control[1..]));
      if ok {
        ReadTextSkipsControl(control[1..], masks[1..], mid, max);
      }
    }
  }

  /** After any pings and pongs, the first other frame decides, and nothing behind it is read. */
  lemma ReadTextMeaning(control: seq<Frame>, masks: seq<seq<byte>>, f: Frame, mask: seq<byte>, s: State, max: int)
    requires |masks| == |control| && |mask| == 4
    requires forall i :: 0 <= i < |masks| ==> |masks[i]| == 4
    requires forall c | c in control :: Sendable(c) && |c.payload| <= max && PingOrPong(c)
    requires Sendable(f) && |f.payload| <= max && !PingOrPong(f)
    ensures var (out, ok) := WriteAll(s, Pongs(control));
            var r := ReadText(s.(input := ClientStream(control, masks) + (ClientBytes(f, mask) + s.input)), max);
            && (ok ==>
                  && r.1 == out
                  && r.0 == if f.opcode == 0x1 then Text(f.payload)
                            else if f.opcode == 0x8 then ReadFailed(Eof)
                            else Unsupported(f.opcode))
            && (!ok ==> r.0 == WriteFailed && r.1.wire == out.wire && r.1.fates == out.fates)
  {
    var input := ClientBytes(f, mask) + s.input;
    var (out, ok) := WriteAll(s, Pongs(control));
    ReadTextSkipsControl(control, masks, s.(input := input), max);
    WriteAllKeepsInput(s, Pongs(control), input);
    ClientFrameRoundTrip(f, mask, s.input, max);
    assert out.(input := s.input) == out;
  }

  /** After any pings and pongs, what is no frame ends the loop with the reader's own error. */
  lemma ReadTextFails(control: seq<Frame>, masks: seq<seq<byte>>, s: State, max: int)
    requires |masks| == |control|
    requires forall i :: 0 <= i < |masks| ==> |masks[i]| == 4
    requires forall c | c in control :: Sendable(c) && |c.payload| <= max && PingOrPong(c)
    requires ParseClient(s.input, max).Bad?
    ensures var (out, ok) := WriteAll(s, Pongs(control));
            ok ==> ReadText(s.(input := ClientStream(control, masks) + s.input), max)
                   == (ReadFailed(ParseClient(s.input, max).error), out.(input := ParseClient(s.input, max).rest))
  {
    ReadTextSkipsControl(control, masks, s, max);
    WriteAllKeepsInput(s, Pongs(control), s.input);
  }

  /** The pongs of a list are those of its parts, in order. */
  lemma {:induction false} PongsSplit(a: seq<Frame>, b: seq<Frame>)
    ensures Pongs(a + b) == Pongs(a) + Pongs(b)
  {
    if a == [] {
      assert a + b == b;
    } else {
      PongsSplit(a[1..], b);
      assert (a + b)[1..] == a[1..] + b;
      Associate(PongFor(a[0]), Pongs(a[1..]), Pongs(b));
    }
  }

  /** A ping has one pong, of its payload, and any other frame none. */
  lemma PongsOfOne(f: Frame)
    ensures Pongs([f]) == if f.opcode == 0x9 then [Frame(0xA, f.payload)] else []
  {
    assert [f][1..] == [];
    assert Pongs([f][1..]) == [];
    assert PongFor(f) + [] == PongFor(f);
  }

  lemma FaultlessWrite(s: State, f: Frame)
    requires s.fates == []
    ensures FrameWritten(s, f) == (s.(wire := s.wire + ServerBytes(f)), true)
  {
    Associate(s.wire, ServerHeader(f), f.payload);
    if f.payload == [] {
      assert ServerBytes(f) == ServerHeader(f);
    }
  }

  lemma {:induction false} FaultlessWriteAll(s: State, frames: seq<Frame>)
    requires s.fates == []
    ensures WriteAll(s, frames) == (s.(wire := s.wire + ServerStream(frames)), true)
    decreases |frames|
  {
    if frames == [] {
      assert s.wire + [] == s.wire;
    } else {
      FaultlessWrite(s, frames[0]);
      FaultlessWriteAll(s.(wire := s.wire + ServerBytes(frames[0])), frames[1..]);
      Associate(s.wire, ServerBytes(frames[0]), ServerStream(frames[1..]));
    }
  }

  lemma {:induction false} PongsSendable(control: seq<Frame>)
    requires forall f | f in control :: Sendable(f)
    ensures forall f | f in Pongs(control) :: Sendable(f) && f.opcode == PONG
  {
    if control != [] {
      PongsSendable(control[1..]);
      forall f | f in Pongs(control)
        ensures Sendable(f) && f.opcode == PONG
      {
        assert control[0] in control;
        assert f in Pongs(control[1..]) || f == Frame(PONG, control[0].payload);
      }
    }
  }

  /** When writes work, the client reads back exactly one pong per ping it sent, payloads in order. */
  lemma PongsReachTheClient(control: seq<Frame>, masks: seq<seq<byte>>, max: int)
    requires |masks| == |control|
    requires forall i :: 0 <= i < |masks| ==> |masks[i]| == 4
    requires forall c | c in control :: Sendable(c) && |c.payload| <= max && PingOrPong(c)
    ensures var (d, s) := ReadText(State(ClientStream(control, masks), [], []), max);
            d == ReadFailed(Eof) && s.input == [] && DecodeServer(s.wire) == (Pongs(control), [])
  {
    var start := State([], [], []);
    assert ClientStream(control, masks) + [] == ClientStream(control, masks);
    ReadTextSkipsControl(control, masks, start, max);
    FaultlessWriteAll(start, Pongs(control));
    PongsSendable(control);
    DecodeInterrupted(Pongs(control), []);
    assert [] + ServerStream(Pongs(control)) == ServerStream(Pongs(control)) + [];
  }
}
