// The whole conversation about one enqueue that has a ticket, whoever writes it: either its handler
// answers with a match or one error, or a queued reply comes first, then errors of the poller, and
// then at most one last message.

module ProtocolLifecycle {
  import opened Wrappers
  import opened Protocol
  import opened ProtocolLaws
  import opened ProtocolRuns
  import M = Matchmaker
  import L = MatchmakerLaws

  // ---------------------------------------------------------------- conversations

  datatype Talk = Silent | Announced | Over | Broken

  /** The language of a conversation, as an automaton. */
  function Heard(talk: Talk, r: Response): Talk {
    match talk
    case Silent => if r.Queued? then Announced else if r.Found? || r.Error? then Over else Broken
    case Announced => if r.Error? then Announced else if r.Found? || r.Status? then Over else Broken
    case _ => Broken
  }

  predicate About(m: Message, ticket: nat) {
    m.cause.ForEnqueue? && m.cause.enqueue.ticketID == ticket
  }

  function TalkOf(sent: seq<Sent>, ticket: nat): Talk {
    if sent == [] then Silent
    else
      var before, last := TalkOf(sent[..|sent| - 1], ticket), sent[|sent| - 1].message;
      if About(last, ticket) then Heard(before, last.response) else before
  }

  lemma TalkAppend(sent: seq<Sent>, m: Sent, ticket: nat)
    ensures TalkOf(sent + [m], ticket)
         == if About(m.message, ticket) then Heard(TalkOf(sent, ticket), m.message.response) else TalkOf(sent, ticket)
  {
    assert (sent + [m])[..|sent|] == sent;
  }

  // ---------------------------------------------------------------- who talks when

  function TicketOf(c: Cause): Option<nat> {
    match c
    case ForEnqueue(e) => Some(e.ticketID)
    case _ => None
  }

  /** The ticket for whose enqueue a thread works; a poller that has stopped keeps it. */
  function Works(polls: Option<Enqueue>, pc: PC): Option<nat> {
    if polls.Some? then Some(polls.value.ticketID)
    else
      match pc
      case CreateReply(e) => Some(e.ticketID)
      case SettingPending(e, _) => Some(e.ticketID)
      case WritingQueued(e, _) => Some(e.ticketID)
      case Spawning(e) => Some(e.ticketID)
      case Failing(e) => Some(e.ticketID)
      case GettingResult(c, _) => TicketOf(c)
      case ClearingFound(c, _) => TicketOf(c)
      case WritingFound(c, _) => TicketOf(c)
      case _ => None
  }

  /** How far the conversation is when its thread stands at `pc`. */
  predicate StageOk(polls: Option<Enqueue>, pc: PC, talk: Talk) {
    if polls.Some? then pc.Stopped? || talk == Announced
    else if pc.Spawning? then talk == Announced
    else Works(polls, pc).Some? ==> talk == Silent
  }

  /** A thread takes up work only with the ticket it has just created, and hands it only to the
      poller it starts. */
  predicate TakesUp(core: M.State, th: Thread, e: Effect) {
    var w, w' := Works(th.polls, th.pc), Works(th.polls, e.pc);
    && e.core.nextTicket >= core.nextTicket
    && (w' == w || w' == None
        || (w == None && w' == Some(core.nextTicket) && core.nextTicket < e.core.nextTicket
            && e.say == None && StageOk(th.polls, e.pc, Silent)))
    && (e.spawn.Some? ==> e.say == None && th.pc.Spawning? && w == Some(e.spawn.value.ticketID) && w' == None)
  }

  /** A thread speaks only about its own ticket, and only what fits. */
  predicate Speaks(th: Thread, e: Effect, talk: Talk) {
    var w, w' := Works(th.polls, th.pc), Works(th.polls, e.pc);
    StageOk(th.polls, th.pc, talk) ==>
      if e.say.Some? && e.say.value.cause.ForEnqueue? then
        && w == Some(e.say.value.cause.enqueue.ticketID)
        && Heard(talk, e.say.value.response) != Broken
        && (w' == w ==> StageOk(th.polls, e.pc, Heard(talk, e.say.value.response)))
      else w' == w ==> StageOk(th.polls, e.pc, talk)
  }

  predicate Plays(core: M.State, th: Thread, e: Effect, talk: Talk) {
    TakesUp(core, th, e) && Speaks(th, e, talk)
  }

  lemma CreatingPlays(core: M.State, s: Session, th: Thread, choice: Choice, tally: Tally, talk: Talk)
    requires M.Inv(core) && th.polls == None && th.pc.Creating? && Holds(core, None, th.pc)
    ensures Plays(core, th, HandlerStep(core, s, th.pc, choice, tally), talk)
  {
    L.CreatedKeys(core, th.pc.payload);
  }

  lemma HandlerPlays(core: M.State, s: Session, th: Thread, choice: Choice, tally: Tally, talk: Talk)
    requires th.polls == None && !th.pc.Creating? && !Pushing(th.pc) && Holds(core, None, th.pc)
    ensures Plays(core, th, HandlerStep(core, s, th.pc, choice, tally), talk)
  {}

  lemma PushPlays(core: M.State, s: Session, th: Thread, choice: Choice, tally: Tally, talk: Talk)
    requires Pushing(th.pc) && Holds(core, th.polls, th.pc)
    ensures Plays(core, th, PushStep(core, s, th.pc, choice, tally, th.polls.Some?), talk)
  {}

  lemma PollerPlays(core: M.State, s: Session, th: Thread, choice: Choice, tally: Tally, talk: Talk)
    requires th.polls.Some? && !Pushing(th.pc) && Holds(core, th.polls, th.pc)
    ensures Plays(core, th, PollerStep(core, s, th.polls.value, th.pc, choice, tally), talk)
  {}

  lemma ThreadStepPlays(core: M.State, s: Session, th: Thread, choice: Choice, tally: Tally, talk: Talk)
    requires M.Inv(core) && ThreadOk(core, th.polls, th.pc)
    ensures Plays(core, th, ThreadStep(core, s, th, choice, tally), talk)
  {
    if Pushing(th.pc) {
      PushPlays(core, s, th, choice, tally, talk);
    } else if th.polls.Some? {
      PollerPlays(core, s, th, choice, tally, talk);
    } else if th.pc.Creating? {
      CreatingPlays(core, s, th, choice, tally, talk);
    } else {
      HandlerPlays(core, s, th, choice, tally, talk);
    }
  }

  // ---------------------------------------------------------------- the invariant

  function WorksOn(s: State, t: Tid): Option<nat>
    requires t in s.threads
  {
    Works(s.threads[t].polls, s.threads[t].pc)
  }

  predicate WorkerOk(s: State, t: Tid) {
    && t in s.threads
    && (WorksOn(s, t).Some? ==>
          && WorksOn(s, t).value < s.core.nextTicket
          && StageOk(s.threads[t].polls, s.threads[t].pc, TalkOf(s.sent, WorksOn(s, t).value)))
  }

  /** No two threads work for the same enqueue. */
  predicate Alone(s: State, t: Tid, u: Tid) {
    t in s.threads && u in s.threads && t != u && WorksOn(s, t).Some? ==> WorksOn(s, t) != WorksOn(s, u)
  }

  /** Tickets that do not exist yet are not talked about, and no conversation is broken. */
  predicate TalkOk(s: State, ticket: nat) {
    && TalkOf(s.sent, ticket) != Broken
    && (ticket >= s.core.nextTicket ==> TalkOf(s.sent, ticket) == Silent)
  }

  ghost predicate Orderly(s: State) {
    && (forall t | t in s.threads :: WorkerOk(s, t))
    && (forall t, u | t in s.threads && u in s.threads :: Alone(s, t, u))
    && (forall ticket: nat :: TalkOk(s, ticket))
  }

  // ---------------------------------------------------------------- preservation

  /** What is known before thread `t` takes its step. */
  ghost predicate MyTurn(s: State, t: Tid, e: Effect) {
    && Orderly(s)
    && t in s.threads && PollerNo(s.nextPoller) !in s.threads
    && TakesUp(s.core, s.threads[t], e)
    && (forall talk :: Speaks(s.threads[t], e, talk))
  }

  /** Only the conversation about the thread's own ticket can move. */
  lemma TalkMoves(s: State, t: Tid, e: Effect, ticket: nat)
    requires MyTurn(s, t, e)
    ensures WorksOn(s, t) != Some(ticket) ==> TalkOf(Applied(s, t, e).sent, ticket) == TalkOf(s.sent, ticket)
    ensures WorksOn(s, t) == Some(ticket) ==>
              TalkOf(Applied(s, t, e).sent, ticket)
              == if e.say.Some? && e.say.value.cause.ForEnqueue?
                 then Heard(TalkOf(s.sent, ticket), e.say.value.response) else TalkOf(s.sent, ticket)
  {
    assert WorkerOk(s, t);
    var talk := TalkOf(s.sent, if WorksOn(s, t).Some? then WorksOn(s, t).value else 0);
    assert Speaks(s.threads[t], e, talk);
    if e.say.Some? {
      TalkAppend(s.sent, Sent(t, s.threads[t].session, e.say.value), ticket);
    }
  }

  lemma TalkStaysOk(s: State, t: Tid, e: Effect, ticket: nat)
    requires MyTurn(s, t, e)
    ensures TalkOk(Applied(s, t, e), ticket)
  {
    assert TalkOk(s, ticket) && WorkerOk(s, t);
    TalkMoves(s, t, e, ticket);
    assert Speaks(s.threads[t], e, TalkOf(s.sent, ticket));
  }

  lemma MyStage(s: State, t: Tid, e: Effect)
    requires MyTurn(s, t, e)
    ensures WorkerOk(Applied(s, t, e), t)
  {
    assert WorkerOk(s, t);
    var w' := Works(s.threads[t].polls, e.pc);
    if w'.Some? {
      TalkMoves(s, t, e, w'.value);
      assert TalkOk(s, w'.value);
      assert Speaks(s.threads[t], e, TalkOf(s.sent, w'.value));
    }
  }

  lemma TheirStage(s: State, t: Tid, e: Effect, u: Tid)
    requires MyTurn(s, t, e) && u in s.threads && u != t
    ensures WorkerOk(Applied(s, t, e), u)
  {
    assert WorkerOk(s, u) && Alone(s, u, t);
    if WorksOn(s, u).Some? {
      TalkMoves(s, t, e, WorksOn(s, u).value);
    }
  }

  lemma PollerStage(s: State, t: Tid, e: Effect)
    requires MyTurn(s, t, e) && e.spawn.Some?
    ensures WorkerOk(Applied(s, t, e), PollerNo(s.nextPoller))
  {
    assert WorkerOk(s, t);
    TalkMoves(s, t, e, e.spawn.value.ticketID);
  }

  /** A thread's work after the step: its own may change, and a new poller takes over its work. */
  lemma WorksAfter(s: State, t: Tid, e: Effect, u: Tid)
    requires MyTurn(s, t, e) && u in Applied(s, t, e).threads
    ensures WorksOn(Applied(s, t, e), u)
         == if u == t then Works(s.threads[t].polls, e.pc)
            else if u == PollerNo(s.nextPoller) then WorksOn(s, t)
            else WorksOn(s, u)
    ensures u != t && u != PollerNo(s.nextPoller) ==> u in s.threads
    ensures u == PollerNo(s.nextPoller) ==> Works(s.threads[t].polls, e.pc) == None
  {}

  lemma StillAlone(s: State, t: Tid, e: Effect, u: Tid, v: Tid)
    requires MyTurn(s, t, e) && u in Applied(s, t, e).threads && v in Applied(s, t, e).threads
    ensures Alone(Applied(s, t, e), u, v)
  {
    if u != v {
      WorksAfter(s, t, e, u);
      WorksAfter(s, t, e, v);
      assert u in s.threads ==> Alone(s, u, t) && Alone(s, t, u) && WorkerOk(s, u);
      assert v in s.threads ==> Alone(s, v, t) && Alone(s, t, v) && WorkerOk(s, v);
      assert u in s.threads && v in s.threads ==> Alone(s, u, v);
    }
  }

  lemma AppliedOrderly(s: State, t: Tid, e: Effect)
    requires MyTurn(s, t, e)
    ensures Orderly(Applied(s, t, e))
  {
    var s' := Applied(s, t, e);
    forall u | u in s'.threads ensures WorkerOk(s', u) {
      if u == t {
        MyStage(s, t, e);
      } else if u in s.threads {
        TheirStage(s, t, e, u);
      } else {
        PollerStage(s, t, e);
      }
    }
    forall u, v | u in s'.threads && v in s'.threads ensures Alone(s', u, v) {
      StillAlone(s, t, e, u, v);
    }
    forall ticket: nat ensures TalkOk(s', ticket) {
      TalkStaysOk(s, t, e, ticket);
    }
  }

  lemma TurnComes(s: State, t: Tid, session: Session, choice: Choice)
    requires Orderly(s) && t in s.threads && PollerNo(s.nextPoller) !in s.threads
    requires M.Inv(s.core) && ThreadOk(s.core, s.threads[t].polls, s.threads[t].pc)
    ensures MyTurn(s, t, ThreadStep(s.core, session, s.threads[t], choice, s.tally))
  {
    var e := ThreadStep(s.core, session, s.threads[t], choice, s.tally);
    ThreadStepPlays(s.core, session, s.threads[t], choice, s.tally, Silent);
    forall talk ensures Speaks(s.threads[t], e, talk) {
      ThreadStepPlays(s.core, session, s.threads[t], choice, s.tally, talk);
    }
  }

  lemma ActOrderly(s: State, t: Tid, choice: Choice)
    requires Inv(s) && Orderly(s) && t in s.threads
    ensures Orderly(Step(s, Act(t, choice)))
  {
    assert ThreadInv(s, t);
    assert PollerNo(s.nextPoller) in s.threads ==> ThreadInv(s, PollerNo(s.nextPoller));
    var session := s.sessions[s.threads[t].session];
    TurnComes(s, t, session, choice);
    AppliedOrderly(s, t, ThreadStep(s.core, session, s.threads[t], choice, s.tally));
  }

  /** Steps that neither speak nor change anyone's work. */
  lemma QuietOrderly(s: State, s': State)
    requires Orderly(s) && s'.sent == s.sent && s'.core.nextTicket >= s.core.nextTicket
    requires forall t | t in s'.threads ::
               if t in s.threads then s'.threads[t] == s.threads[t] else WorksOn(s', t) == None
    ensures Orderly(s')
  {
    forall t | t in s'.threads ensures WorkerOk(s', t) {
      assert t in s.threads ==> WorkerOk(s, t);
    }
    forall t, u | t in s'.threads && u in s'.threads ensures Alone(s', t, u) {
      assert t in s.threads && u in s.threads ==> Alone(s, t, u);
    }
    forall ticket: nat ensures TalkOk(s', ticket) {
      assert TalkOk(s, ticket);
    }
  }

  lemma ConnectOrderly(s: State, k: nat)
    requires Inv(s) && Orderly(s) && k !in s.sessions
    ensures Orderly(Connected(s, k))
  {
    assert HandlerOf(k) in s.threads ==> ThreadInv(s, HandlerOf(k));
    QuietOrderly(s, Connected(s, k));
  }

  lemma ForeignOrderly(s: State, op: M.Op)
    requires Orderly(s)
    ensures Orderly(Step(s, Foreign(op)))
  {
    QuietOrderly(s, Step(s, Foreign(op)));
  }

  lemma StepOrderly(s: State, step: Label)
    requires Inv(s) && Orderly(s)
    ensures Orderly(Step(s, step))
  {
    match step {
      case Connect(k) =>
        if k !in s.sessions {
          ConnectOrderly(s, k);
        }
      case Foreign(op) => ForeignOrderly(s, op);
      case Act(t, choice) =>
        if t in s.threads {
          ActOrderly(s, t, choice);
        }
    }
  }

  lemma {:induction false} RunOrderly(labels: seq<Label>)
    ensures Orderly(Run(labels))
  {
    if labels != [] {
      RunOrderly(labels[..|labels| - 1]);
      RunKeeps(labels[..|labels| - 1]);
      StepOrderly(Run(labels[..|labels| - 1]), labels[|labels| - 1]);
    }
  }

  // ---------------------------------------------------------------- what a conversation says

  predicate Opens(sent: seq<Sent>, ticket: nat, i: nat) {
    i < |sent| && About(sent[i].message, ticket) && sent[i].message.response.Queued?
  }

  /** The queued reply comes before message `j`. */
  predicate Before(sent: seq<Sent>, ticket: nat, j: nat) {
    exists i: nat :: i < j < |sent| && Opens(sent, ticket, i)
  }

  lemma BeforeLonger(sent: seq<Sent>, m: Sent, ticket: nat, j: nat)
    requires Before(sent, ticket, j)
    ensures Before(sent + [m], ticket, j)
  {
    var i: nat :| i < j < |sent| && Opens(sent, ticket, i);
    assert Opens(sent + [m], ticket, i);
  }

  lemma {:induction false} TalkMeans(sent: seq<Sent>, ticket: nat)
    requires TalkOf(sent, ticket) != Broken
    ensures TalkOf(sent, ticket) == Silent ==> forall i :: 0 <= i < |sent| ==> !About(sent[i].message, ticket)
    ensures TalkOf(sent, ticket) == Announced ==>
              && (exists i: nat :: Opens(sent, ticket, i))
              && forall i :: 0 <= i < |sent| && About(sent[i].message, ticket) ==>
                   sent[i].message.response.Queued? || (sent[i].message.response.Error? && Before(sent, ticket, i))
    ensures forall i, j :: 0 <= i < j < |sent| && About(sent[i].message, ticket) && About(sent[j].message, ticket) ==>
              && (sent[i].message.response.Queued? || (sent[i].message.response.Error? && Before(sent, ticket, i)))
              && !sent[j].message.response.Queued?
    ensures forall j :: 0 <= j < |sent| && About(sent[j].message, ticket) && sent[j].message.response.Status? ==>
              Before(sent, ticket, j)
  {
    if sent != [] {
      var front, last := sent[..|sent| - 1], sent[|sent| - 1];
      assert sent == front + [last];
      TalkMeans(front, ticket);
      forall j | 0 <= j < |front| && Before(front, ticket, j)
        ensures Before(sent, ticket, j)
      {
        BeforeLonger(front, last, ticket, j);
      }
      if TalkOf(front, ticket) == Announced {
        var i: nat :| Opens(front, ticket, i);
        assert Opens(sent, ticket, i);
        assert Before(sent, ticket, |front|);
      } else if About(last.message, ticket) {
        assert TalkOf(front, ticket) == Silent;
        assert sent[|front|] == last;
        assert last.message.response.Queued? ==> Opens(sent, ticket, |front|);
      }
    }
  }

  // ---------------------------------------------------------------- main results

  /** In every interleaving all messages about one enqueue together, from its handler and its poller,
      are a word of the automaton: a match or one error at once, or a queued reply, errors, and at most
      one last message. */
  lemma EnqueueConversation(labels: seq<Label>, ticket: nat)
    ensures TalkOf(Run(labels).sent, ticket) != Broken
  {
    RunOrderly(labels);
    assert TalkOk(Run(labels), ticket);
  }

  /** Of two messages about one enqueue the earlier one is its queued reply or an error behind it, so
      there is at most one last message, and nothing comes after it; a queued reply is the first. */
  lemma OneLastMessage(labels: seq<Label>, ticket: nat, i: nat, j: nat)
    requires i < j < |Run(labels).sent|
    requires About(Run(labels).sent[i].message, ticket) && About(Run(labels).sent[j].message, ticket)
    ensures Run(labels).sent[i].message.response.Queued?
            || (Run(labels).sent[i].message.response.Error? && Before(Run(labels).sent, ticket, i))
    ensures !Run(labels).sent[j].message.response.Queued?
  {
    EnqueueConversation(labels, ticket);
    Follows(Run(labels).sent, ticket, i, j);
  }

  lemma Follows(sent: seq<Sent>, ticket: nat, i: nat, j: nat)
    requires TalkOf(sent, ticket) != Broken
    requires i < j < |sent| && About(sent[i].message, ticket) && About(sent[j].message, ticket)
    ensures sent[i].message.response.Queued? || (sent[i].message.response.Error? && Before(sent, ticket, i))
    ensures !sent[j].message.response.Queued?
  {
    TalkMeans(sent, ticket);
  }

  /** Each message of a poller comes after the queued reply of its enqueue. */
  predicate PollersFollow(sent: seq<Sent>) {
    forall j :: 0 <= j < |sent| && sent[j].thread.PollerNo? ==>
      && sent[j].message.cause.ForEnqueue?
      && Before(sent, sent[j].message.cause.enqueue.ticketID, j)
  }

  /** A poller that writes has a queued reply before it. */
  lemma PollerSpeaks(s: State, t: Tid, choice: Choice)
    requires Inv(s) && Orderly(s) && t in s.threads && t.PollerNo?
    ensures s.threads[t].session in s.sessions
    ensures var e := ThreadStep(s.core, s.sessions[s.threads[t].session], s.threads[t], choice, s.tally);
            e.say.Some? ==>
              && e.say.value.cause.ForEnqueue?
              && TalkOf(s.sent, e.say.value.cause.enqueue.ticketID) == Announced
  {
    assert ThreadInv(s, t) && WorkerOk(s, t);
    ThreadStepIsGood(s, t, choice);
  }

  lemma FollowAppend(sent: seq<Sent>, m: Sent)
    requires PollersFollow(sent)
    requires m.thread.PollerNo? ==>
               && m.message.cause.ForEnqueue?
               && TalkOf(sent, m.message.cause.enqueue.ticketID) == Announced
    ensures PollersFollow(sent + [m])
  {
    var sent' := sent + [m];
    forall j | 0 <= j < |sent'| && sent'[j].thread.PollerNo?
      ensures sent'[j].message.cause.ForEnqueue?
      ensures Before(sent', sent'[j].message.cause.enqueue.ticketID, j)
    {
      var ticket := sent'[j].message.cause.enqueue.ticketID;
      if j < |sent| {
        assert sent'[j] == sent[j];
        BeforeLonger(sent, m, ticket, j);
      } else {
        TalkMeans(sent, ticket);
        var i: nat :| Opens(sent, ticket, i);
        assert Opens(sent', ticket, i);
      }
    }
  }

  lemma {:induction false} RunFollows(labels: seq<Label>)
    ensures PollersFollow(Run(labels).sent)
  {
    if labels != [] {
      var s, step := Run(labels[..|labels| - 1]), labels[|labels| - 1];
      RunFollows(labels[..|labels| - 1]);
      RunKeeps(labels[..|labels| - 1]);
      RunOrderly(labels[..|labels| - 1]);
      if step.Act? && step.thread in s.threads {
        StepFollows(s, step.thread, step.choice);
      }
    }
  }

  lemma StepFollows(s: State, t: Tid, choice: Choice)
    requires Inv(s) && Orderly(s) && t in s.threads && PollersFollow(s.sent)
    ensures PollersFollow(Step(s, Act(t, choice)).sent)
  {
    assert ThreadInv(s, t);
    var e := ThreadStep(s.core, s.sessions[s.threads[t].session], s.threads[t], choice, s.tally);
    if e.say.Some? {
      if t.PollerNo? {
        PollerSpeaks(s, t, choice);
      }
      FollowAppend(s.sent, Sent(t, s.threads[t].session, e.say.value));
    }
  }

  /** Whatever a poller writes, an error, a status or the match, comes after the queued reply of the
      enqueue it polls for. */
  lemma QueuedReplyFirst(labels: seq<Label>, j: nat)
    requires j < |Run(labels).sent| && Run(labels).sent[j].thread.PollerNo?
    ensures var cause := Run(labels).sent[j].message.cause;
            cause.ForEnqueue? && Before(Run(labels).sent, cause.enqueue.ticketID, j)
  {
    RunFollows(labels);
  }

  /** At most one thread ever works for an enqueue at a time. */
  lemma OneWorker(labels: seq<Label>, t: Tid, u: Tid)
    requires t in Run(labels).threads && u in Run(labels).threads && t != u
    ensures WorksOn(Run(labels), t).Some? ==> WorksOn(Run(labels), t) != WorksOn(Run(labels), u)
  {
    RunOrderly(labels);
    assert Alone(Run(labels), t, u);
  }
}
