// Any number of goroutines write frames to one connection. Each call locks the mutex, writes the
// header, writes the payload if there is one, and unlocks; the steps of different calls interleave.

module Wire {
  import opened Bytes
  import opened Frames
  import opened Sequences
  import opened Wrappers
  import WsConn
  import WsClient

  /** Where a goroutine stands in `writeFrame`. */
  datatype Writer =
    | Waiting(frame: Frame)    // called, mutex not yet held
    | AtHeader(frame: Frame)   // holds the mutex, next write is the header
    | AtPayload(frame: Frame)  // holds the mutex, header is out
    | Returning                // holds the mutex, both writes are done or one failed

  datatype Call = Call(writer: nat, frame: Frame)

  /** A link carries every byte until one write fails part-way, and nothing afterwards. */
  datatype Link = Up | Broken

  /** `called` and `locked` record the calls in the order they were made and served. */
  datatype State = State(
    writers: map<nat, Writer>, holder: Option<nat>, wire: seq<byte>, link: Link,
    called: seq<Call>, locked: seq<Call>)

  const Start := State(map[], None, [], Up, [], [])

  datatype Action =
    | Enter(frame: Frame)
    | Lock
    | Write(accepted: nat)  // how many bytes the connection takes before failing
    | Unlock

  datatype Step = Step(writer: nat, action: Action)

  predicate Enabled(s: State, step: Step) {
    var w := step.writer;
    match step.action
    case Enter(f) => w !in s.writers && Sendable(f)
    case Lock => w in s.writers && s.writers[w].Waiting? && s.holder == None
    case Write(_) => w in s.writers && (s.writers[w].AtHeader? || s.writers[w].AtPayload?)
    case Unlock => w in s.writers && s.writers[w].Returning?
  }

  /** One write on the connection: the bytes that get through and whether it succeeded. */
  function Sent(link: Link, data: seq<byte>, accepted: nat): (seq<byte>, bool) {
    if link.Broken? then ([], false)
    else if accepted < |data| then (data[..accepted], false)
    else (data, true)
  }

  function Next(s: State, step: Step): State
    requires Enabled(s, step)
  {
    var w := step.writer;
    match step.action
    case Enter(f) => s.(writers := s.writers[w := Waiting(f)], called := s.called + [Call(w, f)])
    case Lock =>
      var f := s.writers[w].frame;
      s.(writers := s.writers[w := AtHeader(f)], holder := Some(w), locked := s.locked + [Call(w, f)])
    case Write(accepted) =>
      var f := s.writers[w].frame;
      var data := if s.writers[w].AtHeader? then ServerHeader(f) else f.payload;
      var (sent, ok) := Sent(s.link, data, accepted);
      var after := if ok && s.writers[w].AtHeader? && f.payload != [] then AtPayload(f) else Returning;
      s.(writers := s.writers[w := after], wire := s.wire + sent, link := if ok then s.link else Broken)
    case Unlock => s.(writers := s.writers - {w}, holder := None)
  }

  /** A run takes the enabled steps of any schedule. */
  function Run(schedule: seq<Step>): State {
    if schedule == [] then Start
    else
      var s := Run(schedule[..|schedule| - 1]);
      var step := schedule[|schedule| - 1];
      if Enabled(s, step) then Next(s, step) else s
  }

  // ---------------------------------------------------------------- the wire in lock order

  function FramesOf(calls: seq<Call>): (frames: seq<Frame>)
    ensures |frames| == |calls|
    ensures forall i :: 0 <= i < |calls| ==> frames[i] == calls[i].frame
  {
    seq(|calls|, i requires 0 <= i < |calls| => calls[i].frame)
  }

  /** How many of the served calls have every byte on the wire of a working link. */
  function WholeCalls(s: State): (n: int) {
    match s.holder
    case None => |s.locked|
    case Some(w) =>
      if w in s.writers && s.writers[w].Returning? then |s.locked| else |s.locked| - 1
  }

  /** The mutex admits one writer past the lock, and it is the last one served. */
  predicate Exclusive(s: State) {
    && (forall w | w in s.writers && !s.writers[w].Waiting? :: s.holder == Some(w))
    && (s.holder.Some? ==>
          && s.holder.value in s.writers
          && !s.writers[s.holder.value].Waiting?
          && s.locked != []
          && (!s.writers[s.holder.value].Returning? ==>
                s.locked[|s.locked| - 1] == Call(s.holder.value, s.writers[s.holder.value].frame)))
  }

  predicate AllSendable(s: State) {
    && (forall w | w in s.writers && !s.writers[w].Returning? :: Sendable(s.writers[w].frame))
    && (forall c | c in s.locked :: Sendable(c.frame))
  }

  /** What an unfinished frame has on a working wire: nothing or its header. */
  function Unfinished(s: State): seq<byte> {
    match s.holder
    case None => []
    case Some(w) => if w in s.writers && s.writers[w].AtPayload? then ServerHeader(s.writers[w].frame) else []
  }

  /** A broken link carries the first `k` served frames and a proper prefix of the next one. */
  ghost predicate BrokenAfter(s: State, k: nat, cut: seq<byte>) {
    && k < |s.locked|
    && CutOf(cut, s.locked[k].frame)
    && s.wire == ServerStream(FramesOf(s.locked[..k])) + cut
  }

  predicate CutOf(cut: seq<byte>, f: Frame) {
    cut <= ServerBytes(f) && cut != ServerBytes(f)
  }

  ghost predicate WireOk(s: State) {
    match s.link
    case Up => 0 <= WholeCalls(s) && s.wire == ServerStream(FramesOf(s.locked[..WholeCalls(s)])) + Unfinished(s)
    case Broken => exists k: nat, cut: seq<byte> :: BrokenAfter(s, k, cut)
  }

  ghost predicate PayloadPending(s: State) {
    forall w | w in s.writers && s.writers[w].AtPayload? :: s.writers[w].frame.payload != []
  }

  ghost predicate Inv(s: State) {
    Exclusive(s) && AllSendable(s) && PayloadPending(s) && WireOk(s) && InOrder(s)
  }

  // ---------------------------------------------------------------- program order

  function By(calls: seq<Call>, w: nat): seq<Frame> {
    if calls == [] then []
    else By(calls[..|calls| - 1], w) + (if calls[|calls| - 1].writer == w then [calls[|calls| - 1].frame] else [])
  }

  /** A writer's frames are served in the order it wrote them, none lost and none repeated. */
  ghost predicate InOrder(s: State) {
    forall w: nat {:trigger By(s.called, w)} ::
      By(s.called, w)
      == By(s.locked, w) + StillWaiting(s, w)
  }

  function StillWaiting(s: State, w: nat): seq<Frame> {
    if w in s.writers && s.writers[w].Waiting? then [s.writers[w].frame] else []
  }

  lemma ByAppend(calls: seq<Call>, c: Call, w: nat)
    ensures By(calls + [c], w) == By(calls, w) + (if c.writer == w then [c.frame] else [])
  {
    assert (calls + [c])[..|calls|] == calls;
  }

  lemma InOrderStep(s: State, step: Step)
    requires Exclusive(s) && InOrder(s) && Enabled(s, step)
    ensures InOrder(Next(s, step))
  {
    var s' := Next(s, step);
    forall w: nat
      ensures By(s'.called, w) == By(s'.locked, w) + StillWaiting(s', w)
    {
      assert By(s.called, w) == By(s.locked, w) + StillWaiting(s, w);
      match step.action {
        case Enter(f) => ByAppend(s.called, Call(step.writer, f), w);
        case Lock => ByAppend(s.locked, Call(step.writer, s.writers[step.writer].frame), w);
        case _ =>
      }
    }
  }

  // ---------------------------------------------------------------- preservation

  lemma ExclusiveStep(s: State, step: Step)
    requires Exclusive(s) && AllSendable(s) && PayloadPending(s) && Enabled(s, step)
    ensures Exclusive(Next(s, step)) && AllSendable(Next(s, step)) && PayloadPending(Next(s, step))
  {}

  /** Finishing a frame completes one more call of the lock order. */
  lemma FrameFinished(before: seq<Frame>, f: Frame, done: seq<byte>, sent: seq<byte>)
    requires done + sent == ServerBytes(f)
    ensures ServerStream(before) + done + sent == ServerStream(before + [f])
  {
    ServerStreamAppend(before, f);
    Associate(ServerStream(before), done, sent);
  }

  lemma FramesOfLast(calls: seq<Call>)
    requires calls != []
    ensures FramesOf(calls) == FramesOf(calls[..|calls| - 1]) + [calls[|calls| - 1].frame]
  {}

  lemma HeaderOut(s: State, step: Step)
    requires Inv(s) && Enabled(s, step) && step.action.Write? && s.link.Up? && Next(s, step).link.Up?
    requires Next(s, step).writers[step.writer].AtPayload?
    ensures WireOk(Next(s, step))
  {
    var s' := Next(s, step);
    assert WholeCalls(s') == WholeCalls(s) && Unfinished(s) == [];
    assert s.wire == ServerStream(FramesOf(s.locked[..WholeCalls(s)]));
  }

  lemma FrameOut(s: State, step: Step)
    requires Inv(s) && Enabled(s, step) && step.action.Write? && s.link.Up? && Next(s, step).link.Up?
    requires Next(s, step).writers[step.writer].Returning?
    ensures WireOk(Next(s, step))
  {
    var s', w := Next(s, step), step.writer;
    var f, n := s.writers[w].frame, |s.locked| - 1;
    assert WholeCalls(s) == n && s.locked[n] == Call(w, f) && WholeCalls(s') == n + 1;
    var sent := if s.writers[w].AtHeader? then ServerHeader(f) else f.payload;
    assert Unfinished(s) + sent == ServerBytes(f);
    assert s'.wire == ServerStream(FramesOf(s.locked[..n])) + Unfinished(s) + sent;
    FrameFinished(FramesOf(s.locked[..n]), f, Unfinished(s), sent);
    FramesOfLast(s.locked);
    assert s'.locked[..n + 1] == s.locked;
  }

  /** A failed write leaves a proper prefix of the frame on the wire. */
  lemma CutIsProper(f: Frame, header: bool, accepted: nat)
    requires header ==> accepted < |ServerHeader(f)|
    requires !header ==> accepted < |f.payload|
    ensures CutOf(if header then ServerHeader(f)[..accepted] else ServerHeader(f) + f.payload[..accepted], f)
  {
    if header {
      assert |ServerHeader(f)[..accepted]| < |ServerBytes(f)|;
    }
  }

  lemma WriteFails(s: State, step: Step)
    requires Inv(s) && Enabled(s, step) && step.action.Write? && s.link.Up? && Next(s, step).link.Broken?
    ensures exists k: nat, cut: seq<byte> :: BrokenAfter(Next(s, step), k, cut) && k + 1 == |s.locked|
    ensures WireOk(Next(s, step))
  {
    var s', w := Next(s, step), step.writer;
    var f, n, m := s.writers[w].frame, |s.locked| - 1, step.action.accepted;
    assert s.holder == Some(w) && WholeCalls(s) == n && s.locked[n] == Call(w, f);
    CutIsProper(f, s.writers[w].AtHeader?, m);
    var cut := if s.writers[w].AtHeader? then ServerHeader(f)[..m] else ServerHeader(f) + f.payload[..m];
    if s.writers[w].AtPayload? {
      Associate(ServerStream(FramesOf(s.locked[..n])), ServerHeader(f), f.payload[..m]);
    }
    assert BrokenAfter(s', n, cut);
  }

  lemma WireStep(s: State, step: Step)
    requires Inv(s) && Enabled(s, step)
    ensures WireOk(Next(s, step))
  {
    var s' := Next(s, step);
    if s.link.Broken? {
      var k: nat, cut: seq<byte> :| BrokenAfter(s, k, cut);
      assert s'.wire == s.wire;
      assert s'.locked[..k] == s.locked[..k];
      assert BrokenAfter(s', k, cut);
    } else {
      match step.action {
        case Enter(_) =>
        case Lock => assert s'.locked[..|s.locked|] == s.locked[..|s.locked|];
        case Write(_) =>
          if s'.link.Broken? {
            WriteFails(s, step);
          } else if s'.writers[step.writer].AtPayload? {
            HeaderOut(s, step);
          } else {
            FrameOut(s, step);
          }
        case Unlock =>
      }
    }
  }

  lemma {:induction false} RunInv(schedule: seq<Step>)
    ensures Inv(Run(schedule))
  {
    if schedule != [] {
      var s, step := Run(schedule[..|schedule| - 1]), schedule[|schedule| - 1];
      RunInv(schedule[..|schedule| - 1]);
      if Enabled(s, step) {
        ExclusiveStep(s, step);
        WireStep(s, step);
        InOrderStep(s, step);
      }
    }
  }

  // ---------------------------------------------------------------- what the peer reads

  lemma LockedSendable(s: State, n: nat)
    requires AllSendable(s) && n <= |s.locked|
    ensures forall f | f in FramesOf(s.locked[..n]) :: Sendable(f)
  {
    forall f | f in FramesOf(s.locked[..n])
      ensures Sendable(f)
    {
      var i :| 0 <= i < n && FramesOf(s.locked[..n])[i] == f;
      assert s.locked[i] in s.locked;
    }
  }

  /** On a working link the peer sees the whole frames and at most the holder's header. */
  lemma ReadsWhole(s: State)
    requires Inv(s) && s.link.Up?
    ensures 0 <= WholeCalls(s) <= |s.locked| <= WholeCalls(s) + 1
    ensures DecodeServer(s.wire) == (FramesOf(s.locked[..WholeCalls(s)]), Unfinished(s))
  {
    var n := WholeCalls(s);
    LockedSendable(s, n);
    if Unfinished(s) != [] {
      var f := s.writers[s.holder.value].frame;
      assert |ServerHeader(f)| < |ServerBytes(f)|;
      ProperPrefixIsNoFrame(ServerHeader(f), f);
    }
    DecodeInterrupted(FramesOf(s.locked[..n]), Unfinished(s));
  }

  /** On a cut link it sees the frames before the cut one. */
  lemma ReadsBroken(s: State, k: nat, cut: seq<byte>)
    requires Inv(s) && BrokenAfter(s, k, cut)
    ensures DecodeServer(s.wire).0 == FramesOf(s.locked[..k])
  {
    LockedSendable(s, k);
    assert s.locked[k] in s.locked;
    ProperPrefixIsNoFrame(cut, s.locked[k].frame);
    DecodeInterrupted(FramesOf(s.locked[..k]), cut);
  }

  /** On a working link with the mutex free, the peer reads exactly the frames served, in the
      order the mutex served them, and no byte is left over. */
  lemma PeerReadsLockOrder(schedule: seq<Step>)
    ensures var s := Run(schedule);
            s.link.Up? && s.holder == None ==> DecodeServer(s.wire) == (FramesOf(s.locked), [])
  {
    var s := Run(schedule);
    RunInv(schedule);
    if s.link.Up? && s.holder == None {
      ReadsWhole(s);
      assert s.locked[..|s.locked|] == s.locked;
    }
  }

  /** While a writer holds the mutex the peer sees whole frames and at most that writer's header. */
  lemma PeerReadsWhileLocked(schedule: seq<Step>)
    ensures var s := Run(schedule);
            s.link.Up? ==>
              && 0 <= WholeCalls(s) <= |s.locked| <= WholeCalls(s) + 1
              && DecodeServer(s.wire) == (FramesOf(s.locked[..WholeCalls(s)]), Unfinished(s))
  {
    RunInv(schedule);
    if Run(schedule).link.Up? {
      ReadsWhole(Run(schedule));
    }
  }

  /** After a failed write the peer still reads only whole frames, a prefix of the lock order. */
  lemma PeerReadsPrefix(schedule: seq<Step>)
    ensures var s := Run(schedule);
            var frames := DecodeServer(s.wire).0;
            |frames| <= |s.locked| && frames == FramesOf(s.locked[..|frames|])
  {
    var s := Run(schedule);
    RunInv(schedule);
    if s.link.Up? {
      ReadsWhole(s);
    } else {
      var k: nat, cut: seq<byte> :| BrokenAfter(s, k, cut);
      ReadsBroken(s, k, cut);
    }
  }

  /** The step that puts the last byte of a frame on the wire. */
  predicate Completes(s: State, step: Step)
    requires Enabled(s, step)
  {
    step.action.Write? && Next(s, step).link.Up? && Next(s, step).writers[step.writer].Returning?
  }

  lemma FirstCut(s: State, step: Step)
    requires Inv(s) && Enabled(s, step) && step.action.Write? && s.link.Up? && Next(s, step).link.Broken?
    ensures DecodeServer(Next(s, step).wire).0 == DecodeServer(s.wire).0
  {
    var s' := Next(s, step);
    WriteFails(s, step);
    ExclusiveStep(s, step);
    InOrderStep(s, step);
    var k: nat, cut: seq<byte> :| BrokenAfter(s', k, cut) && k + 1 == |s.locked|;
    ReadsBroken(s', k, cut);
    ReadsWhole(s);
    assert WholeCalls(s) == |s.locked| - 1;
  }

  /** The peer reads one more frame exactly when a step completes it. */
  lemma StepReads(s: State, step: Step)
    requires Inv(s) && Enabled(s, step)
    ensures DecodeServer(Next(s, step).wire).0
         == DecodeServer(s.wire).0 + if Completes(s, step) then [s.writers[step.writer].frame] else []
  {
    var s' := Next(s, step);
    if !step.action.Write? || s.link.Broken? {
      assert s'.wire == s.wire;
    } else if s'.link.Broken? {
      FirstCut(s, step);
    } else {
      WireStep(s, step);
      ExclusiveStep(s, step);
      InOrderStep(s, step);
      ReadsWhole(s);
      ReadsWhole(s');
      assert WholeCalls(s) == |s.locked| - 1;
      if Completes(s, step) {
        FramesOfLast(s.locked);
        assert s'.locked[..|s.locked|] == s.locked;
      }
    }
  }

  lemma {:induction false} TextsOfMore(a: seq<Frame>, b: seq<Frame>)
    ensures WsClient.Texts(a) <= WsClient.Texts(a + b)
  {
    if a != [] {
      TextsOfMore(a[1..], b);
      assert (a + b)[1..] == a[1..] + b;
    }
  }

  /** A client that calls its JSON reader again and again gets the texts of the frames served, in lock
      order: always a prefix of them, and all of them when no frame is under way or was cut. */
  lemma ClientReadsTexts(schedule: seq<Step>, ended: bool)
    ensures var s := Run(schedule);
            var read, written := WsClient.ReadAll(DecodeServer(s.wire).0, ended), WsClient.Texts(FramesOf(s.locked));
            read <= written && (s.link.Up? && s.holder == None ==> read == written)
  {
    var s := Run(schedule);
    var frames := DecodeServer(s.wire).0;
    WsClient.ReadAllTexts(frames, ended);
    PeerReadsPrefix(schedule);
    assert FramesOf(s.locked) == FramesOf(s.locked[..|frames|]) + FramesOf(s.locked[|frames|..]);
    TextsOfMore(frames, FramesOf(s.locked[|frames|..]));
    PeerReadsLockOrder(schedule);
  }

  /** Each writer's frames reach the wire in the order it wrote them; at most its latest call is
      still waiting for the mutex. */
  lemma ProgramOrder(schedule: seq<Step>, w: nat)
    ensures By(Run(schedule).called, w) == By(Run(schedule).locked, w) + StillWaiting(Run(schedule), w)
  {
    RunInv(schedule);
  }

  // ---------------------------------------------------------------- one call by itself

  /** The fate, in the sequential model, of a write of which `accepted` bytes can be taken. */
  function Fate(data: seq<byte>, accepted: nat): Option<nat> {
    if accepted < |data| then Some(accepted) else None
  }

  /** The steps of one call that meets no contention. */
  function Alone(s: State, w: nat, f: Frame, first: nat, second: nat): State
    requires w !in s.writers && s.holder == None && Sendable(f)
  {
    var locked := Next(Next(s, Step(w, Enter(f))), Step(w, Lock));
    var header := Next(locked, Step(w, Write(first)));
    var payload := if header.writers[w].AtPayload? then Next(header, Step(w, Write(second))) else header;
    Next(payload, Step(w, Unlock))
  }

  /** The steps of an uncontended call are the frame writer of module WsConn. */
  lemma AloneIsFrameWritten(s: State, w: nat, f: Frame, first: nat, second: nat)
    requires w !in s.writers && s.holder == None && Sendable(f) && s.link.Up?
    ensures var s' := Alone(s, w, f, first, second);
            var fates := [Fate(ServerHeader(f), first), Fate(f.payload, second)];
            var (c, ok) := WsConn.FrameWritten(WsConn.State([], s.wire, fates), f);
            && s'.wire == c.wire && s'.link.Up? == ok
            && s'.writers == s.writers && s'.holder == None
            && s'.locked == s.locked + [Call(w, f)]
  {}
}
