// The match protocol on its connections: every message of a handler or poller goes through the frame
// writer of its session, step by step under the mutex, while the other threads go on.

module Delivery {
  import opened Bytes
  import opened Frames
  import opened Wrappers
  import opened Protocol
  import PL = ProtocolLaws
  import PR = ProtocolRuns
  import PO = ProtocolOwnership
  import M = Matchmaker
  import W = Wire
  import WsClient

  /** A marshalled message; the length of a Go slice is a signed 64-bit integer. */
  type Payload = s: seq<byte> | |s| < TWO_TO_63

  type Encoding = Response -> Payload

  // ---------------------------------------------------------------- the joint system

  /** One connection for each session. */
  datatype Joint = Joint(proto: State, wires: map<nat, W.State>)

  const Begin := Joint(Initial, map[])

  /** The handler and the pollers of a session write to one connection. */
  function WriterOf(t: Tid): nat {
    match t
    case HandlerOf(_) => 0
    case PollerNo(n) => n + 1
  }

  function ThreadOf(session: nat, writer: nat): Tid {
    if writer == 0 then HandlerOf(session) else PollerNo(writer - 1)
  }

  /** The message that a thread is about to write. */
  function ToWrite(th: Thread): Option<Response> {
    match th.pc
    case WritingFound(_, r) => Some(r)
    case WritingQueued(e, t) =>
      if th.polls == None then Some(Queued(e.requestID, e.playerID, t.ticketID, StandingOf(t.status))) else None
    case Failing(e) => if th.polls == None then Some(Error(e.requestID)) else None
    case Writing(r) => if th.polls == None then Some(r) else None
    case Leaving => if th.polls == None then Some(Error("")) else None
    case WritingPollError => if th.polls.Some? then Some(Error(th.polls.value.requestID)) else None
    case WritingLast(r) => if th.polls.Some? then Some(r) else None
    case _ => None
  }

  datatype Event =
    | Quiet(move: Label)                      // a step of the protocol that writes nothing
    | Call(thread: Tid)                       // a thread calls the frame writer with its message
    | Control(session: nat, frame: Frame)     // the read loop answers a ping, or the connection closes
    | OnWire(session: nat, step: W.Step)      // a step inside the frame writer

  /** A goroutine inside the frame writer does nothing else. */
  predicate Busy(s: Joint, t: Tid)
    requires t in s.proto.threads
  {
    var k := s.proto.threads[t].session;
    k in s.wires && WriterOf(t) in s.wires[k].writers
  }

  predicate QuietOk(s: Joint, move: Label) {
    move.Act? && move.thread in s.proto.threads ==>
      !Busy(s, move.thread) && ToWrite(s.proto.threads[move.thread]) == None
  }

  predicate ControlOk(s: Joint, k: nat, f: Frame) {
    && HandlerOf(k) in s.proto.threads
    && ((f.opcode == PONG && s.proto.threads[HandlerOf(k)].pc.Reading?)
        || (f.opcode == CLOSE && s.proto.threads[HandlerOf(k)].pc.Stopped?))
  }

  /** The step of a connection that an event takes, if there is one. */
  function WireStep(encode: Encoding, s: Joint, event: Event): Option<(nat, W.Step)> {
    match event
    case Quiet(_) => None
    case Call(t) =>
      if t in s.proto.threads && ToWrite(s.proto.threads[t]).Some?
      then Some((s.proto.threads[t].session,
                 W.Step(WriterOf(t), W.Enter(Frame(TEXT, encode(ToWrite(s.proto.threads[t]).value))))))
      else None
    case Control(k, f) => if ControlOk(s, k, f) then Some((k, W.Step(0, W.Enter(f)))) else None
    case OnWire(k, step) => if step.action.Enter? then None else Some((k, step))
  }

  predicate Takes(s: Joint, k: nat, step: W.Step) {
    k in s.wires && W.Enabled(s.wires[k], step)
  }

  /** A write that is the last of its frame. */
  predicate Finishes(s: Joint, k: nat, step: W.Step) {
    && Takes(s, k, step)
    && step.action.Write?
    && W.Next(s.wires[k], step).writers[step.writer].Returning?
  }

  /** The step of the protocol that an event takes: with the last write of its message a thread goes on. */
  function ProtoStep(s: Joint, event: Event): Option<Label> {
    match event
    case Quiet(move) => if QuietOk(s, move) then Some(move) else None
    case OnWire(k, step) =>
      if Finishes(s, k, step) && s.wires[k].writers[step.writer].frame.opcode == TEXT
      then Some(Act(ThreadOf(k, step.writer), if W.Next(s.wires[k], step).link.Up? then WriteOk else WriteFails))
      else None
    case _ => None
  }

  function Wires(s: Joint, opens: Option<Label>, step: Option<(nat, W.Step)>): map<nat, W.State> {
    if opens.Some? && opens.value.Connect? && opens.value.session !in s.wires
    then s.wires[opens.value.session := W.Start]
    else if step.Some? && Takes(s, step.value.0, step.value.1)
    then s.wires[step.value.0 := W.Next(s.wires[step.value.0], step.value.1)]
    else s.wires
  }

  function After(encode: Encoding, s: Joint, event: Event): Joint {
    var move := ProtoStep(s, event);
    Joint(if move.Some? then Step(s.proto, move.value) else s.proto, Wires(s, move, WireStep(encode, s, event)))
  }

  function Execute(encode: Encoding, events: seq<Event>): Joint {
    if events == [] then Begin
    else After(encode, Execute(encode, events[..|events| - 1]), events[|events| - 1])
  }

  // ---------------------------------------------------------------- both systems are refined

  /** The run of the protocol inside a joint run. */
  function ProtoTrace(encode: Encoding, events: seq<Event>): seq<Label> {
    if events == [] then []
    else
      var front := events[..|events| - 1];
      var move := ProtoStep(Execute(encode, front), events[|events| - 1]);
      ProtoTrace(encode, front) + if move.Some? then [move.value] else []
  }

  /** The step that an event takes on connection `k`, if any. */
  function StepOn(encode: Encoding, s: Joint, event: Event, k: nat): seq<W.Step> {
    var step := WireStep(encode, s, event);
    if step.Some? && step.value.0 == k && Takes(s, k, step.value.1) then [step.value.1] else []
  }

  /** The schedule of one connection inside a joint run. */
  function WireTrace(encode: Encoding, events: seq<Event>, k: nat): seq<W.Step> {
    if events == [] then []
    else
      var front := events[..|events| - 1];
      WireTrace(encode, front, k) + StepOn(encode, Execute(encode, front), events[|events| - 1], k)
  }

  /** Every joint run is a run of the protocol, so everything proved of those holds of it. */
  lemma {:induction false} ProtocolRefined(encode: Encoding, events: seq<Event>)
    ensures Execute(encode, events).proto == Run(ProtoTrace(encode, events))
  {
    if events != [] {
      var front := events[..|events| - 1];
      ProtocolRefined(encode, front);
      var move := ProtoStep(Execute(encode, front), events[|events| - 1]);
      if move.Some? {
        assert (ProtoTrace(encode, front) + [move.value])[..|ProtoTrace(encode, front)|] == ProtoTrace(encode, front);
      } else {
        assert ProtoTrace(encode, events) == ProtoTrace(encode, front);
      }
    }
  }

  lemma WireRunAppend(schedule: seq<W.Step>, steps: seq<W.Step>)
    requires |steps| <= 1
    ensures var wire := W.Run(schedule);
            W.Run(schedule + steps) == if steps != [] && W.Enabled(wire, steps[0]) then W.Next(wire, steps[0]) else wire
  {
    if steps == [] {
      assert schedule + steps == schedule;
    } else {
      assert (schedule + steps)[..|schedule|] == schedule;
    }
  }

  /** What an event does to connection `k`. */
  lemma WireAfter(encode: Encoding, s: Joint, event: Event, k: nat)
    ensures var s', steps := After(encode, s, event), StepOn(encode, s, event, k);
            if k in s.wires
            then && k in s'.wires
                 && s'.wires[k] == if steps != [] then W.Next(s.wires[k], steps[0]) else s.wires[k]
            else steps == [] && (k in s'.wires ==> s'.wires[k] == W.Start)
  {}

  /** Every connection of a joint run goes through a schedule of the frame writer. */
  lemma {:induction false} WireRefined(encode: Encoding, events: seq<Event>, k: nat)
    ensures var s, trace := Execute(encode, events), WireTrace(encode, events, k);
            if k in s.wires then s.wires[k] == W.Run(trace) else trace == []
  {
    if events != [] {
      var front, event := events[..|events| - 1], events[|events| - 1];
      WireRefined(encode, front, k);
      WireAfter(encode, Execute(encode, front), event, k);
      WireRunAppend(WireTrace(encode, front, k), StepOn(encode, Execute(encode, front), event, k));
    }
  }

  // ---------------------------------------------------------------- what has reached the client

  /** The payloads of all text frames. */
  function TextPayloads(frames: seq<Frame>): seq<seq<byte>> {
    if frames == [] then []
    else
      var last := frames[|frames| - 1];
      TextPayloads(frames[..|frames| - 1]) + if last.opcode == TEXT then [last.payload] else []
  }

  /** The messages that a session was sent, as they are marshalled. */
  function SentTexts(encode: Encoding, sent: seq<Sent>, k: nat): seq<seq<byte>> {
    if sent == [] then []
    else
      var last := sent[|sent| - 1];
      SentTexts(encode, sent[..|sent| - 1], k) + if last.session == k then [encode(last.message.response)] else []
  }

  lemma TextPayloadsAppend(frames: seq<Frame>, f: Frame)
    ensures TextPayloads(frames + [f]) == TextPayloads(frames) + if f.opcode == TEXT then [f.payload] else []
  {
    assert (frames + [f])[..|frames|] == frames;
  }

  lemma SentTextsAppend(encode: Encoding, sent: seq<Sent>, m: Sent, k: nat)
    ensures SentTexts(encode, sent + [m], k)
         == SentTexts(encode, sent, k) + if m.session == k then [encode(m.message.response)] else []
  {
    assert (sent + [m])[..|sent|] == sent;
  }

  // ---------------------------------------------------------------- the invariant

  /** A text frame inside the writer is the message that its thread is about to write. */
  predicate FrameOk(encode: Encoding, s: Joint, k: nat, w: nat) {
    && k in s.wires && w in s.wires[k].writers
    && (!s.wires[k].writers[w].Returning? && s.wires[k].writers[w].frame.opcode == TEXT ==>
          var t := ThreadOf(k, w);
          && t in s.proto.threads && s.proto.threads[t].session == k
          && ToWrite(s.proto.threads[t]).Some?
          && s.wires[k].writers[w].frame == Frame(TEXT, encode(ToWrite(s.proto.threads[t]).value)))
  }

  predicate FramesOk(encode: Encoding, s: Joint) {
    forall k, w | k in s.wires && w in s.wires[k].writers :: FrameOk(encode, s, k, w)
  }

  predicate Arrived(encode: Encoding, s: Joint, k: nat) {
    k in s.wires && TextPayloads(DecodeServer(s.wires[k].wire).0) == SentTexts(encode, s.proto.sent, k)
  }

  predicate AllArrived(encode: Encoding, s: Joint) {
    forall k | k in s.wires :: Arrived(encode, s, k)
  }

  predicate Sound(encode: Encoding, s: Joint) {
    s.wires.Keys == s.proto.sessions.Keys && FramesOk(encode, s) && AllArrived(encode, s)
  }

  // ---------------------------------------------------------------- the protocol's part of an event

  /** A thread says its message when its write succeeds, and nothing at any other step. */
  lemma WriteSays(core: M.State, session: Session, th: Thread, choice: Choice, tally: Tally)
    ensures var say := ThreadStep(core, session, th, choice, tally).say;
            if choice == WriteOk && ToWrite(th).Some? then say.Some? && say.value.response == ToWrite(th).value
            else say == None
  {}

  /** All that other threads and other sessions see of an act of thread `t`. */
  ghost predicate Acts(s: State, t: Tid, said: Option<Response>, s': State) {
    && t in s.threads
    && s'.sessions.Keys == s.sessions.Keys
    && (forall u | u in s.threads && u != t :: u in s'.threads && s'.threads[u] == s.threads[u])
    && match said
       case None => s'.sent == s.sent
       case Some(r) => exists m: Message ::
         m.response == r && s'.sent == s.sent + [Sent(t, s.threads[t].session, m)]
  }

  lemma AppliedActs(s: State, t: Tid, e: Effect)
    requires t in s.threads && s.threads[t].session in s.sessions && PollerNo(s.nextPoller) !in s.threads
    ensures Acts(s, t, if e.say.Some? then Some(e.say.value.response) else None, Applied(s, t, e))
  {
    assert e.say.Some? ==> Applied(s, t, e).sent == s.sent + [Sent(t, s.threads[t].session, e.say.value)];
  }

  lemma ActActs(s: State, t: Tid, choice: Choice)
    requires PR.Inv(s) && t in s.threads
    ensures Acts(s, t, if choice == WriteOk then ToWrite(s.threads[t]) else None, Step(s, Act(t, choice)))
  {
    assert PR.ThreadInv(s, t);
    assert PollerNo(s.nextPoller) in s.threads ==> PR.ThreadInv(s, PollerNo(s.nextPoller));
    var session := s.sessions[s.threads[t].session];
    WriteSays(s.core, session, s.threads[t], choice, s.tally);
    AppliedActs(s, t, ThreadStep(s.core, session, s.threads[t], choice, s.tally));
  }

  /** A session that is not there yet has no handler and was sent nothing. */
  lemma NewSession(s: State, k: nat)
    requires PR.Inv(s) && k !in s.sessions
    ensures forall i :: 0 <= i < |s.sent| ==> s.sent[i].session != k
    ensures HandlerOf(k) !in s.threads
  {
    assert HandlerOf(k) in s.threads ==> PR.ThreadInv(s, HandlerOf(k));
    forall i | 0 <= i < |s.sent|
      ensures s.sent[i].session != k
    {
      assert PR.SentInv(s, s.sent[i]) && PR.ThreadInv(s, s.sent[i].thread);
    }
  }

  lemma {:induction false} NothingSent(encode: Encoding, sent: seq<Sent>, k: nat)
    requires forall i :: 0 <= i < |sent| ==> sent[i].session != k
    ensures SentTexts(encode, sent, k) == []
  {
    if sent != [] {
      NothingSent(encode, sent[..|sent| - 1], k);
    }
  }

  // ---------------------------------------------------------------- the connections' part of an event

  /** What a step of the writer does to the frames inside it. */
  lemma WritersAfter(s: W.State, step: W.Step, w: nat)
    requires W.Enabled(s, step) && w in W.Next(s, step).writers && !W.Next(s, step).writers[w].Returning?
    ensures step.action.Enter? && w == step.writer ==> W.Next(s, step).writers[w].frame == step.action.frame
    ensures !(step.action.Enter? && w == step.writer) ==>
              w in s.writers && !s.writers[w].Returning? && W.Next(s, step).writers[w].frame == s.writers[w].frame
  {}

  /** The texts that a connection has carried whole. */
  function Carried(wire: W.State): seq<seq<byte>> {
    TextPayloads(DecodeServer(wire.wire).0)
  }

  /** A step of the writer completes one text frame, or none. */
  lemma CarriedAfter(wire: W.State, step: W.Step)
    requires W.Inv(wire) && W.Enabled(wire, step)
    ensures if W.Completes(wire, step) && wire.writers[step.writer].frame.opcode == TEXT
            then Carried(W.Next(wire, step)) == Carried(wire) + [wire.writers[step.writer].frame.payload]
            else Carried(W.Next(wire, step)) == Carried(wire)
  {
    W.StepReads(wire, step);
    CarriedMore(wire, W.Next(wire, step),
                if W.Completes(wire, step) then [wire.writers[step.writer].frame] else []);
  }

  lemma CarriedMore(wire: W.State, wire': W.State, more: seq<Frame>)
    requires DecodeServer(wire'.wire).0 == DecodeServer(wire.wire).0 + more && |more| <= 1
    ensures if |more| == 1 && more[0].opcode == TEXT then Carried(wire') == Carried(wire) + [more[0].payload]
            else Carried(wire') == Carried(wire)
  {
    if |more| == 1 {
      assert more == [more[0]];
      TextPayloadsAppend(DecodeServer(wire.wire).0, more[0]);
    } else {
      assert DecodeServer(wire.wire).0 + more == DecodeServer(wire.wire).0;
    }
  }

  // ---------------------------------------------------------------- preservation

  /** Threads with a frame in the writer keep standing where they are. */
  lemma FramesKept(encode: Encoding, s: Joint, s': Joint)
    requires FramesOk(encode, s) && s'.wires == s.wires
    requires forall t | t in s.proto.threads && ToWrite(s.proto.threads[t]).Some? ::
               t in s'.proto.threads && s'.proto.threads[t] == s.proto.threads[t]
    ensures FramesOk(encode, s')
  {
    forall k, w | k in s'.wires && w in s'.wires[k].writers
      ensures FrameOk(encode, s', k, w)
    {
      assert FrameOk(encode, s, k, w);
    }
  }

  lemma ArrivedKept(encode: Encoding, s: Joint, s': Joint)
    requires AllArrived(encode, s) && s'.proto.sent == s.proto.sent && s'.wires.Keys == s.wires.Keys
    requires forall k | k in s.wires :: Carried(s'.wires[k]) == Carried(s.wires[k])
    ensures AllArrived(encode, s')
  {
    forall k | k in s'.wires
      ensures Arrived(encode, s', k)
    {
      assert Arrived(encode, s, k);
    }
  }

  lemma QuietActSound(encode: Encoding, s: Joint, t: Tid, proto: State)
    requires Sound(encode, s) && Acts(s.proto, t, None, proto) && ToWrite(s.proto.threads[t]) == None
    ensures Sound(encode, s.(proto := proto))
  {
    FramesKept(encode, s, s.(proto := proto));
    ArrivedKept(encode, s, s.(proto := proto));
  }

  lemma ForeignSound(encode: Encoding, s: Joint, proto: State)
    requires Sound(encode, s)
    requires proto.sessions == s.proto.sessions && proto.threads == s.proto.threads && proto.sent == s.proto.sent
    ensures Sound(encode, s.(proto := proto))
  {
    FramesKept(encode, s, s.(proto := proto));
    ArrivedKept(encode, s, s.(proto := proto));
  }

  lemma ConnectFrames(encode: Encoding, s: Joint, s': Joint, k: nat)
    requires FramesOk(encode, s) && k !in s.wires && s'.wires == s.wires[k := W.Start]
    requires forall t | t in s.proto.threads :: t in s'.proto.threads && s'.proto.threads[t] == s.proto.threads[t]
    ensures FramesOk(encode, s')
  {
    forall j, w | j in s'.wires && w in s'.wires[j].writers
      ensures FrameOk(encode, s', j, w)
    {
      assert FrameOk(encode, s, j, w);
    }
  }

  lemma ConnectArrived(encode: Encoding, s: Joint, s': Joint, k: nat)
    requires AllArrived(encode, s) && k !in s.wires && s'.wires == s.wires[k := W.Start]
    requires s'.proto.sent == s.proto.sent
    requires forall i :: 0 <= i < |s.proto.sent| ==> s.proto.sent[i].session != k
    ensures AllArrived(encode, s')
  {
    forall j | j in s'.wires
      ensures Arrived(encode, s', j)
    {
      if j == k {
        NothingSent(encode, s.proto.sent, k);
        assert W.Start.wire == [];
      } else {
        assert Arrived(encode, s, j);
      }
    }
  }

  lemma ConnectSound(encode: Encoding, s: Joint, k: nat)
    requires Sound(encode, s) && k !in s.proto.sessions && HandlerOf(k) !in s.proto.threads
    requires forall i :: 0 <= i < |s.proto.sent| ==> s.proto.sent[i].session != k
    ensures Sound(encode, Joint(Connected(s.proto, k), s.wires[k := W.Start]))
  {
    var s' := Joint(Connected(s.proto, k), s.wires[k := W.Start]);
    ConnectFrames(encode, s, s', k);
    ConnectArrived(encode, s, s', k);
  }

  lemma WireFrames(encode: Encoding, s: Joint, k: nat, step: W.Step, s': Joint)
    requires FramesOk(encode, s) && Takes(s, k, step)
    requires s' == s.(wires := s.wires[k := W.Next(s.wires[k], step)])
    requires step.action.Enter? ==> FrameOk(encode, s', k, step.writer)
    ensures FramesOk(encode, s')
  {
    forall j, w | j in s'.wires && w in s'.wires[j].writers
      ensures FrameOk(encode, s', j, w)
    {
      if j == k && !s'.wires[k].writers[w].Returning? {
        WritersAfter(s.wires[k], step, w);
      }
      assert w in s.wires[j].writers ==> FrameOk(encode, s, j, w);
    }
  }

  /** A step on a connection that finishes no text frame. */
  lemma WireSound(encode: Encoding, s: Joint, k: nat, step: W.Step, s': Joint)
    requires Sound(encode, s) && Takes(s, k, step)
    requires s' == s.(wires := s.wires[k := W.Next(s.wires[k], step)])
    requires Carried(s'.wires[k]) == Carried(s.wires[k])
    requires step.action.Enter? ==> FrameOk(encode, s', k, step.writer)
    ensures Sound(encode, s')
  {
    WireFrames(encode, s, k, step, s');
    ArrivedKept(encode, s, s');
  }

  /** Different writers belong to different threads. */
  lemma OneThreadEach(k: nat, w: nat, j: nat, v: nat)
    requires ThreadOf(k, w) == ThreadOf(j, v)
    ensures w == v && (w == 0 ==> k == j)
  {}

  lemma FinishFrames(encode: Encoding, s: Joint, k: nat, step: W.Step, s': Joint)
    requires FramesOk(encode, s) && Finishes(s, k, step)
    requires s.wires[k].writers[step.writer].frame.opcode == TEXT
    requires s'.wires == s.wires[k := W.Next(s.wires[k], step)]
    requires forall u | u in s.proto.threads && u != ThreadOf(k, step.writer) ::
               u in s'.proto.threads && s'.proto.threads[u] == s.proto.threads[u]
    ensures FramesOk(encode, s')
  {
    assert FrameOk(encode, s, k, step.writer);
    forall j, w | j in s'.wires && w in s'.wires[j].writers
      ensures FrameOk(encode, s', j, w)
    {
      if !s'.wires[j].writers[w].Returning? {
        if j == k {
          WritersAfter(s.wires[k], step, w);
        }
        assert FrameOk(encode, s, j, w);
        if ThreadOf(j, w) == ThreadOf(k, step.writer) {
          OneThreadEach(j, w, k, step.writer);
        }
      }
    }
  }

  lemma SaidArrived(encode: Encoding, s: Joint, k: nat, t: Tid, m: Message, s': Joint)
    requires AllArrived(encode, s) && k in s.wires && s'.wires.Keys == s.wires.Keys
    requires s'.proto.sent == s.proto.sent + [Sent(t, k, m)]
    requires forall j | j in s.wires && j != k :: s'.wires[j] == s.wires[j]
    requires Carried(s'.wires[k]) == Carried(s.wires[k]) + [encode(m.response)]
    ensures AllArrived(encode, s')
  {
    forall j | j in s'.wires
      ensures Arrived(encode, s', j)
    {
      assert Arrived(encode, s, j);
      SentTextsAppend(encode, s.proto.sent, Sent(t, k, m), j);
    }
  }

  /** The last write of a message: the frame is whole on the wire exactly when the message is sent. */
  lemma FinishSound(encode: Encoding, s: Joint, k: nat, step: W.Step, said: Option<Response>, s': Joint)
    requires Sound(encode, s) && Finishes(s, k, step)
    requires s.wires[k].writers[step.writer].frame.opcode == TEXT
    requires s'.wires == s.wires[k := W.Next(s.wires[k], step)]
    requires Acts(s.proto, ThreadOf(k, step.writer), said, s'.proto)
    requires s.proto.threads[ThreadOf(k, step.writer)].session == k
    requires match said
             case None => Carried(s'.wires[k]) == Carried(s.wires[k])
             case Some(r) => Carried(s'.wires[k]) == Carried(s.wires[k]) + [encode(r)]
    ensures Sound(encode, s')
  {
    FinishFrames(encode, s, k, step, s');
    match said {
      case None => ArrivedKept(encode, s, s');
      case Some(r) =>
        var t := ThreadOf(k, step.writer);
        var m: Message :| m.response == r && s'.proto.sent == s.proto.sent + [Sent(t, k, m)];
        SaidArrived(encode, s, k, t, m, s');
    }
  }

  // ---------------------------------------------------------------- one event

  lemma AfterQuiet(encode: Encoding, s: Joint, move: Label)
    ensures After(encode, s, Quiet(move))
         == if !QuietOk(s, move) then s
            else if move.Connect? && move.session !in s.wires
            then Joint(Step(s.proto, move), s.wires[move.session := W.Start])
            else s.(proto := Step(s.proto, move))
  {}

  lemma AfterEntry(encode: Encoding, s: Joint, event: Event, k: nat, step: W.Step)
    requires !event.Quiet? && !event.OnWire? && WireStep(encode, s, event) == Some((k, step))
    ensures After(encode, s, event)
         == if Takes(s, k, step) then s.(wires := s.wires[k := W.Next(s.wires[k], step)]) else s
  {}

  lemma AfterOnWire(encode: Encoding, s: Joint, k: nat, step: W.Step)
    requires !step.action.Enter? && Takes(s, k, step)
    ensures var wire := W.Next(s.wires[k], step);
            After(encode, s, OnWire(k, step))
            == Joint(if Finishes(s, k, step) && s.wires[k].writers[step.writer].frame.opcode == TEXT
                     then Step(s.proto, Act(ThreadOf(k, step.writer), if wire.link.Up? then WriteOk else WriteFails))
                     else s.proto,
                     s.wires[k := wire])
  {}

  lemma QuietSound(encode: Encoding, s: Joint, move: Label)
    requires Sound(encode, s) && PR.Inv(s.proto)
    ensures Sound(encode, After(encode, s, Quiet(move)))
  {
    AfterQuiet(encode, s, move);
    if QuietOk(s, move) {
      match move {
        case Connect(k) =>
          if k !in s.proto.sessions {
            NewSession(s.proto, k);
            ConnectSound(encode, s, k);
          }
        case Foreign(op) => ForeignSound(encode, s, Step(s.proto, move));
        case Act(t, choice) =>
          if t in s.proto.threads {
            ActActs(s.proto, t, choice);
            QuietActSound(encode, s, t, Step(s.proto, move));
          }
      }
    }
  }

  /** A call of the frame writer. */
  lemma EntrySound(encode: Encoding, s: Joint, k: nat, w: nat, f: Frame)
    requires Sound(encode, s) && Takes(s, k, W.Step(w, W.Enter(f)))
    requires W.Inv(s.wires[k])
    requires f.opcode == TEXT ==>
               var t := ThreadOf(k, w);
               && t in s.proto.threads && s.proto.threads[t].session == k
               && ToWrite(s.proto.threads[t]).Some? && f.payload == encode(ToWrite(s.proto.threads[t]).value)
    ensures var step := W.Step(w, W.Enter(f));
            Sound(encode, s.(wires := s.wires[k := W.Next(s.wires[k], step)]))
  {
    var step := W.Step(w, W.Enter(f));
    CarriedAfter(s.wires[k], step);
    WireSound(encode, s, k, step, s.(wires := s.wires[k := W.Next(s.wires[k], step)]));
  }

  lemma OwnWriter(s: State, t: Tid)
    requires PR.Inv(s) && t in s.threads
    ensures ThreadOf(s.threads[t].session, WriterOf(t)) == t
  {
    assert PR.ThreadInv(s, t);
  }

  lemma CallEnters(encode: Encoding, s: Joint, t: Tid, k: nat, f: Frame)
    requires Sound(encode, s) && t in s.proto.threads && ToWrite(s.proto.threads[t]).Some?
    requires k == s.proto.threads[t].session && ThreadOf(k, WriterOf(t)) == t
    requires f == Frame(TEXT, encode(ToWrite(s.proto.threads[t]).value))
    requires k in s.wires ==> W.Inv(s.wires[k])
    ensures Sound(encode, After(encode, s, Call(t)))
  {
    var step := W.Step(WriterOf(t), W.Enter(f));
    AfterEntry(encode, s, Call(t), k, step);
    if Takes(s, k, step) {
      EntrySound(encode, s, k, WriterOf(t), f);
    }
  }

  lemma CallSound(encode: Encoding, s: Joint, t: Tid)
    requires Sound(encode, s) && PR.Inv(s.proto)
    requires forall k | k in s.wires :: W.Inv(s.wires[k])
    ensures Sound(encode, After(encode, s, Call(t)))
  {
    if t in s.proto.threads && ToWrite(s.proto.threads[t]).Some? {
      OwnWriter(s.proto, t);
      CallEnters(encode, s, t, s.proto.threads[t].session, Frame(TEXT, encode(ToWrite(s.proto.threads[t]).value)));
    }
  }

  lemma ControlSound(encode: Encoding, s: Joint, k: nat, f: Frame)
    requires Sound(encode, s)
    requires k in s.wires ==> W.Inv(s.wires[k])
    ensures Sound(encode, After(encode, s, Control(k, f)))
  {
    if ControlOk(s, k, f) {
      var step := W.Step(0, W.Enter(f));
      AfterEntry(encode, s, Control(k, f), k, step);
      if Takes(s, k, step) {
        EntrySound(encode, s, k, 0, f);
      }
    }
  }

  lemma MessageSound(encode: Encoding, s: Joint, k: nat, step: W.Step)
    requires Sound(encode, s) && PR.Inv(s.proto) && Finishes(s, k, step) && W.Inv(s.wires[k])
    requires s.wires[k].writers[step.writer].frame.opcode == TEXT
    ensures Sound(encode, After(encode, s, OnWire(k, step)))
  {
    var t, up := ThreadOf(k, step.writer), W.Next(s.wires[k], step).link.Up?;
    AfterOnWire(encode, s, k, step);
    assert FrameOk(encode, s, k, step.writer);
    ActActs(s.proto, t, if up then WriteOk else WriteFails);
    CarriedAfter(s.wires[k], step);
    FinishSound(encode, s, k, step, if up then ToWrite(s.proto.threads[t]) else None,
                After(encode, s, OnWire(k, step)));
  }

  lemma OnWireSound(encode: Encoding, s: Joint, k: nat, step: W.Step)
    requires Sound(encode, s) && PR.Inv(s.proto)
    requires k in s.wires ==> W.Inv(s.wires[k])
    ensures Sound(encode, After(encode, s, OnWire(k, step)))
  {
    if !step.action.Enter? && Takes(s, k, step) {
      if Finishes(s, k, step) && s.wires[k].writers[step.writer].frame.opcode == TEXT {
        MessageSound(encode, s, k, step);
      } else {
        AfterOnWire(encode, s, k, step);
        CarriedAfter(s.wires[k], step);
        WireSound(encode, s, k, step, s.(wires := s.wires[k := W.Next(s.wires[k], step)]));
      }
    }
  }

  lemma EventSound(encode: Encoding, s: Joint, event: Event)
    requires Sound(encode, s) && PR.Inv(s.proto)
    requires forall k | k in s.wires :: W.Inv(s.wires[k])
    ensures Sound(encode, After(encode, s, event))
  {
    match event {
      case Quiet(move) => QuietSound(encode, s, move);
      case Call(t) => CallSound(encode, s, t);
      case Control(k, f) => ControlSound(encode, s, k, f);
      case OnWire(k, step) => OnWireSound(encode, s, k, step);
    }
  }

  /** The invariants of both systems hold in every joint run, since it refines them. */
  lemma PartsKeep(encode: Encoding, events: seq<Event>)
    ensures PR.Inv(Execute(encode, events).proto)
    ensures forall k | k in Execute(encode, events).wires :: W.Inv(Execute(encode, events).wires[k])
  {
    ProtocolRefined(encode, events);
    PR.RunKeeps(ProtoTrace(encode, events));
    forall k | k in Execute(encode, events).wires
      ensures W.Inv(Execute(encode, events).wires[k])
    {
      WireRefined(encode, events, k);
      W.RunInv(WireTrace(encode, events, k));
    }
  }

  lemma {:induction false} ExecuteSound(encode: Encoding, events: seq<Event>)
    ensures Sound(encode, Execute(encode, events))
  {
    if events != [] {
      ExecuteSound(encode, events[..|events| - 1]);
      PartsKeep(encode, events[..|events| - 1]);
      EventSound(encode, Execute(encode, events[..|events| - 1]), events[|events| - 1]);
    }
  }

  // ---------------------------------------------------------------- main results

  /** At every moment of every run, the text frames that a session's client can decode are exactly the
      messages the protocol has sent to that session, in order, whoever else writes to it. */
  lemma EveryMessageArrives(encode: Encoding, events: seq<Event>, k: nat)
    requires k in Execute(encode, events).wires
    ensures var s := Execute(encode, events);
            TextPayloads(DecodeServer(s.wires[k].wire).0) == SentTexts(encode, s.proto.sent, k)
  {
    ExecuteSound(encode, events);
    assert Arrived(encode, Execute(encode, events), k);
  }

  lemma {:induction false} TextsAppend(frames: seq<Frame>, f: Frame)
    ensures WsClient.Texts(frames + [f])
         == WsClient.Texts(frames) + if f.opcode == TEXT && !WsClient.HasClose(frames) then [f.payload] else []
  {
    if frames != [] {
      TextsAppend(frames[1..], f);
      assert (frames + [f])[1..] == frames[1..] + [f];
      assert frames == [frames[0]] + frames[1..];
    }
  }

  /** The client's reader returns the payloads of the text frames up to the first close frame. */
  lemma {:induction false} TextsArePayloads(frames: seq<Frame>)
    ensures WsClient.Texts(frames) <= TextPayloads(frames)
    ensures !WsClient.HasClose(frames) ==> WsClient.Texts(frames) == TextPayloads(frames)
  {
    if frames != [] {
      var front, last := frames[..|frames| - 1], frames[|frames| - 1];
      TextsArePayloads(front);
      TextsAppend(front, last);
      assert frames == front + [last];
    }
  }

  /** What the client of session `k` has read when it has called its reader until no text was left. */
  function ClientRead(s: Joint, k: nat, ended: bool): seq<seq<byte>>
    requires k in s.wires
  {
    WsClient.ReadAll(DecodeServer(s.wires[k].wire).0, ended)
  }

  /** The client's reader returns a prefix of the messages sent to its session, in order, and all of
      them as long as no close frame was sent. */
  lemma ClientReadsMessages(encode: Encoding, events: seq<Event>, k: nat, ended: bool)
    requires k in Execute(encode, events).wires
    ensures var s := Execute(encode, events);
            && ClientRead(s, k, ended) <= SentTexts(encode, s.proto.sent, k)
            && (!WsClient.HasClose(DecodeServer(s.wires[k].wire).0) ==>
                  ClientRead(s, k, ended) == SentTexts(encode, s.proto.sent, k))
  {
    var frames := DecodeServer(Execute(encode, events).wires[k].wire).0;
    EveryMessageArrives(encode, events, k);
    WsClient.ReadAllTexts(frames, ended);
    TextsArePayloads(frames);
  }

  // ---------------------------------------------------------------- what a client learns

  predicate IsSent(encode: Encoding, sent: seq<Sent>, k: nat, text: seq<byte>, j: nat) {
    j < |sent| && sent[j].session == k && text == encode(sent[j].message.response)
  }

  lemma {:induction false} TextIsSent(encode: Encoding, sent: seq<Sent>, k: nat, i: nat) returns (j: nat)
    requires i < |SentTexts(encode, sent, k)|
    ensures IsSent(encode, sent, k, SentTexts(encode, sent, k)[i], j)
  {
    var front, last := sent[..|sent| - 1], sent[|sent| - 1];
    if i < |SentTexts(encode, front, k)| {
      j := TextIsSent(encode, front, k, i);
    } else {
      j := |sent| - 1;
    }
  }

  /** A match reported to session `k`: exactly the result of its ticket, and for an enqueue a ticket of
      this session's player. */
  predicate TrueMatch(s: State, k: nat, m: Message) {
    m.response.Found? ==>
      && PL.FoundOk(s.core, m.cause, m.response)
      && (m.cause.ForEnqueue? ==> k in s.sessions && m.response.ticketID in s.sessions[k].created)
  }

  /** Whatever text a client reads is a message of the protocol to its own session, and if that message
      is a match, it is a true one: from the matchmaker's tables to the bytes that the client decodes. */
  lemma ClientLearnsTrueMatch(encode: Encoding, events: seq<Event>, k: nat, ended: bool, i: nat)
    requires k in Execute(encode, events).wires && i < |ClientRead(Execute(encode, events), k, ended)|
    ensures var s := Execute(encode, events);
            exists j: nat :: IsSent(encode, s.proto.sent, k, ClientRead(s, k, ended)[i], j)
                             && TrueMatch(s.proto, k, s.proto.sent[j].message)
  {
    var s := Execute(encode, events);
    ClientReadsMessages(encode, events, k, ended);
    var j := TextIsSent(encode, s.proto.sent, k, i);
    PartsKeep(encode, events);
    assert PR.SentInv(s.proto, s.proto.sent[j]);
    if s.proto.sent[j].message.cause.ForEnqueue? {
      ProtocolRefined(encode, events);
      PO.MatchRouting(ProtoTrace(encode, events), j, k);
    }
  }
}
