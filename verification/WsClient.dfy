// The client's end of a WebSocket connection: sending masked frames and rebuilding the gateway's
// frames from a socket that delivers the stream in arbitrary pieces.

module WsClient {
  import opened Bytes
  import opened Frames
  import opened Sequences
  import opened Wrappers

  // ---------------------------------------------------------------- specification

  /** What one call of the JSON reader hands to its caller; text is not decoded. */
  datatype Outcome = Text(payload: seq<byte>) | Closed | Failed(error: ReadError) | TimedOut

  /** The socket's error once everything that arrives in time has been received. */
  function SocketError(ended: bool): ReadError {
    if ended then SocketClosed else SocketTimeout
  }

  /** The outcome on the frames that arrive in time, and the frames left after it; `patience` is how
      many times the clock shows that the deadline has not passed. */
  function NextText(frames: seq<Frame>, patience: nat, ended: bool): (Outcome, seq<Frame>) {
    if patience == 0 then (TimedOut, frames)
    else if frames == [] then (Failed(SocketError(ended)), [])
    else if frames[0].opcode == TEXT then (Text(frames[0].payload), frames[1..])
    else if frames[0].opcode == CLOSE then (Closed, frames[1..])
    else NextText(frames[1..], patience - 1, ended)
  }

  // ---------------------------------------------------------------- implementation

  class Client {
    var incoming: seq<byte>  // what arrives before a receive gives up, and is not yet received
    var ended: bool          // the stream ends behind it; otherwise the next receive gives up
    var outgoing: seq<byte>

    constructor (incoming: seq<byte>, ended: bool)
      ensures this.incoming == incoming && this.ended == ended && outgoing == []
    {
      this.incoming, this.ended, outgoing := incoming, ended, [];
    }

    /** One receive: at most `size` bytes, at least one unless the stream has ended; or nothing in
        time. How many bytes is up to the network. */
    method Recv(size: nat) returns (chunk: Option<seq<byte>>)
      requires size > 0
      modifies this`incoming
      ensures old(incoming) == [] ==> incoming == [] && chunk == if ended then Some([]) else None
      ensures old(incoming) != [] ==>
                chunk.Some? && 0 < |chunk.value| <= size && old(incoming) == chunk.value + incoming
    {
      if incoming == [] {
        return if ended then Some([]) else None;
      }
      var n: nat :| 1 <= n <= size && n <= |incoming|;
      chunk, incoming := Some(incoming[..n]), incoming[n..];
    }

    /** Exactly the next `size` bytes, or an error when the stream ends or stalls before them; the
        bytes received by then are lost. */
    method RecvExact(size: nat) returns (r: Result<seq<byte>, ReadError>)
      modifies this`incoming
      ensures size <= |old(incoming)| ==> r == Ok(old(incoming)[..size]) && incoming == old(incoming)[size..]
      ensures size > |old(incoming)| ==> r == Err(SocketError(ended)) && incoming == []
    {
      ghost var stream := incoming;
      var chunks := [];
      var remaining := size;
      while remaining > 0
        invariant 0 <= remaining && |chunks| + remaining == size
        invariant stream == chunks + incoming
      {
        var chunk := Recv(remaining);
        if chunk == None {
          return Err(SocketTimeout);
        }
        if chunk.value == [] {
          return Err(SocketClosed);
        }
        chunks := chunks + chunk.value;
        remaining := remaining - |chunk.value|;
      }
      Split(chunks, incoming);
      return Ok(chunks);
    }

    /** The frame read depends on the concatenated bytes alone, not on how they arrived. */
    method RecvFrame() returns (r: Result<Frame, ReadError>)
      modifies this`incoming
      ensures match ParseServer(old(incoming))
              case Got(f, rest) => r == Ok(f) && incoming == rest
              case Bad(_, rest) => r == Err(SocketError(ended)) && incoming == rest
    {
      ghost var stream := incoming;
      var header := RecvExact(2);
      if header.Err? {
        return Err(header.error);
      }
      var opcode, short := Low4(header.value[0]), Low7(header.value[1]);
      var length := short as nat;
      Widths();
      if length == 126 {
        var buf := RecvExact(2);
        if buf.Err? {
          return Err(buf.error);
        }
        Skip(stream, 2, 2);
        length := FromBigEndian(buf.value);
      } else if length == 127 {
        var buf := RecvExact(8);
        if buf.Err? {
          return Err(buf.error);
        }
        Skip(stream, 2, 8);
        length := FromBigEndian(buf.value);
      }
      ghost var k := Extension(short);
      assert incoming == stream[2 + k..];
      assert length == DeclaredLength(short, stream[2..2 + k]);
      var payload := RecvExact(length);
      if payload.Err? {
        return Err(payload.error);
      }
      Skip(stream, 2 + k, length);
      return Ok(Frame(opcode, payload.value));
    }

    /** The next text, skipping frames that are neither text nor close. */
    method RecvJSON(patience: nat) returns (r: Outcome)
      modifies this`incoming
      ensures (r, DecodeServer(incoming).0) == NextText(DecodeServer(old(incoming)).0, patience, ended)
    {
      var left := patience;
      while left > 0
        invariant NextText(DecodeServer(incoming).0, left, ended)
                  == NextText(DecodeServer(old(incoming)).0, patience, ended)
      {
        FirstFrame(incoming);
        var frame := RecvFrame();
        if frame.Err? {
          return Failed(frame.error);
        }
        if frame.value.opcode == TEXT {
          return Text(frame.value.payload);
        }
        if frame.value.opcode == CLOSE {
          return Closed;
        }
        left := left - 1;
      }
      return TimedOut;
    }

    method SendFrame(opcode: byte, payload: seq<byte>, mask: seq<byte>)
      requires |mask| == 4
      requires |payload| < TWO_TO_64  // larger payloads do not exist
      modifies this`outgoing
      ensures outgoing == old(outgoing) + ClientBytes(Frame(opcode, payload), mask)
    {
      var header := [SetTopBit(opcode)];
      var length := |payload|;
      if length < 126 {
        header := header + [SetTopBit(LowByte(length))];
      } else if length <= 65535 {
        header := header + [SetTopBit(126)];
        header := header + BigEndian(length, 2);
      } else {
        header := header + [SetTopBit(127)];
        header := header + BigEndian(length, 8);
      }
      var masked := Mask(payload, mask);
      assert header == [SetTopBit(opcode)] + LengthField(true, length);
      outgoing := outgoing + (header + mask + masked);
    }
  }

  /** Reading one frame of a stream takes the first of its frames. */
  lemma FirstFrame(stream: seq<byte>)
    ensures match ParseServer(stream)
            case Bad(_, rest) => DecodeServer(stream).0 == [] && rest == [] && DecodeServer(rest).0 == []
            case Got(f, rest) =>
              && DecodeServer(stream).0 != []
              && DecodeServer(stream).0[0] == f
              && DecodeServer(stream).0[1..] == DecodeServer(rest).0
  {}

  // ---------------------------------------------------------------- meaning of repeated calls

  /** The payloads of the text frames before the first close frame. */
  function Texts(frames: seq<Frame>): seq<seq<byte>> {
    if frames == [] || frames[0].opcode == CLOSE then []
    else (if frames[0].opcode == TEXT then [frames[0].payload] else []) + Texts(frames[1..])
  }

  predicate HasClose(frames: seq<Frame>) {
    exists f :: f in frames && f.opcode == CLOSE
  }

  /** With enough time a call returns the first of the texts and leaves the others; with none left it
      reports the close frame, or the end or the stall of the stream. */
  lemma {:induction false} NextTextIsFirst(frames: seq<Frame>, patience: nat, ended: bool)
    requires patience > |frames|
    ensures var (r, rest) := NextText(frames, patience, ended);
            if Texts(frames) == [] then r == if HasClose(frames) then Closed else Failed(SocketError(ended))
            else r == Text(Texts(frames)[0]) && Texts(rest) == Texts(frames)[1..] && |rest| < |frames|
    decreases |frames|
  {
    if frames != [] {
      var more := frames[1..];
      assert frames == [frames[0]] + more;
      if frames[0].opcode == TEXT {
        assert Texts(frames) == [frames[0].payload] + Texts(more);
      } else if frames[0].opcode != CLOSE {
        NextTextIsFirst(more, patience - 1, ended);
        assert Texts(frames) == Texts(more);
      }
    }
  }

  /** The deadline passes after any number of frames: then those were neither text nor close, and the
      others are left. */
  lemma {:induction false} PatienceRunsOut(frames: seq<Frame>, patience: nat, ended: bool)
    ensures NextText(frames, patience, ended).0 == TimedOut ==>
              && patience <= |frames|
              && NextText(frames, patience, ended).1 == frames[patience..]
              && forall i :: 0 <= i < patience ==> frames[i].opcode != TEXT && frames[i].opcode != CLOSE
    decreases patience
  {
    if patience > 0 && frames != [] && NextText(frames, patience, ended).0 == TimedOut {
      PatienceRunsOut(frames[1..], patience - 1, ended);
      assert frames == [frames[0]] + frames[1..];
    }
  }

  /** What a client reads that calls again and again until it gets no more text. */
  function ReadAll(frames: seq<Frame>, ended: bool): seq<seq<byte>>
    decreases |frames|
  {
    NextTextIsFirst(frames, |frames| + 1, ended);
    var (r, rest) := NextText(frames, |frames| + 1, ended);
    if r.Text? then [r.payload] + ReadAll(rest, ended) else []
  }

  /** The calls return every text before a close frame, once each and in order. */
  lemma {:induction false} ReadAllTexts(frames: seq<Frame>, ended: bool)
    ensures ReadAll(frames, ended) == Texts(frames)
    decreases |frames|
  {
    NextTextIsFirst(frames, |frames| + 1, ended);
    var (r, rest) := NextText(frames, |frames| + 1, ended);
    if r.Text? {
      ReadAllTexts(rest, ended);
      assert Texts(frames) == [r.payload] + Texts(rest);
    }
  }
}
