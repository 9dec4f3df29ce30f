// What the gateway does is what was asked of it: every call that changes the matchmaker and every
// message is traced to the request that caused it, and to what that request named.

module ProtocolTasks {
  import opened Wrappers
  import opened Protocol
  import opened ProtocolLaws
  import opened ProtocolRuns
  import M = Matchmaker
  import L = MatchmakerLaws

  // ---------------------------------------------------------------- what was asked

  /** The ticket that a request is about: the one it names, or the pending one if it names none. */
  predicate Names(named: Option<nat>, pending: Option<nat>, ticket: nat) {
    if named.Some? then ticket == named.value else pending == Some(ticket)
  }

  predicate CancelOf(r: Receipt, requestID: string, ticket: nat) {
    && r.request.CancelMatch? && r.request.requestID == requestID
    && r.playerID.Some? && Names(r.request.ticketID, r.pending, ticket)
  }

  predicate StatusFor(r: Receipt, requestID: string, ticket: nat) {
    && r.request.MatchStatus? && r.request.requestID == requestID
    && r.playerID.Some? && Names(r.request.ticketID, r.pending, ticket)
  }

  predicate EnqueueBy(r: Receipt, requestID: string, player: string) {
    && r.request.EnqueueMatch? && r.request.requestID == requestID && r.request.gate.Admitted?
    && r.playerID == Some(player)
  }

  /** The body sent to the matchmaker: the session's player, and score, mode and wait of the request. */
  predicate BodyOf(r: Receipt, payload: M.Payload) {
    && r.request.EnqueueMatch? && r.playerID.Some?
    && payload.Body?
    && payload.playerID == Some(M.Text(r.playerID.value))
    && payload.mmrScore == Some(M.Number(r.request.mmrScore as real))
    && payload.matchMode == Some(M.Text(r.request.matchMode))
    && payload.maxWaitMs == Some(M.Number(r.request.maxWaitMS as real))
  }

  /** Request `n` of the session, counted from one. */
  predicate Heard(heard: seq<Receipt>, n: nat) {
    1 <= n <= |heard|
  }

  /** The enqueue's ticket has the player, score and mode of its request. */
  predicate EnqueueOf(core: M.State, heard: seq<Receipt>, e: Enqueue) {
    && Heard(heard, e.receipt) && EnqueueBy(heard[e.receipt - 1], e.requestID, e.playerID)
    && e.ticketID in core.tickets
    && var t, r := core.tickets[e.ticketID], heard[e.receipt - 1].request;
    && t.playerID == M.Text(e.playerID)
    && t.mmrScore == M.Number(r.mmrScore as real)
    && t.matchMode == M.Text(if r.matchMode == "" then "duel" else r.matchMode)
  }

  /** What a reply to a request other than an enqueue with a ticket may say. */
  predicate AnswerFits(r: Receipt, m: Response) {
    && m.requestID == r.request.requestID
    && match m
       case Found(_, ticket, _, _, _, _, _, _) => StatusFor(r, m.requestID, ticket)
       case Queued(_, _, _, _) => false
       case Cancelled(_, ticket, status) => CancelOf(r, m.requestID, ticket) && status == CalledOff
       case Status(_, ticket, status, matchID, roomID) =>
         && StatusFor(r, m.requestID, ticket) && matchID == None && roomID == None
         && (status == InQueue || status == CalledOff)
       case Error(_) => true
       case Notice(_) =>
         || (r.request.Auth? && r.request.playerID != "")
         || r.request.Ping?
         || (r.request.EnqueueMatch? && r.request.gate.Maintenance? && r.playerID.Some?)
  }

  // ---------------------------------------------------------------- what a handler is at

  predicate Serves(core: M.State, heard: seq<Receipt>, e: Enqueue) {
    e.receipt == |heard| && EnqueueOf(core, heard, e)
  }

  predicate CauseServes(core: M.State, heard: seq<Receipt>, c: Cause, ticket: nat) {
    match c
    case ForEnqueue(e) => Serves(core, heard, e) && ticket == e.ticketID
    case ForRequest(n, id) => n == |heard| && Heard(heard, n) && StatusFor(heard[n - 1], id, ticket)
    case Unasked => false
  }

  /** A handler is at the last request it received. */
  predicate OnTask(core: M.State, heard: seq<Receipt>, pc: PC) {
    match pc
    case Reading => true
    case Leaving => true
    case Stopped => true
    case Creating(id, player, payload) =>
      && heard != [] && EnqueueBy(heard[|heard| - 1], id, player) && BodyOf(heard[|heard| - 1], payload)
    case CreateReply(e) => Serves(core, heard, e)
    case SettingPending(e, _) => Serves(core, heard, e)
    case WritingQueued(e, _) => Serves(core, heard, e)
    case Spawning(e) => Serves(core, heard, e)
    case Failing(e) => Serves(core, heard, e)
    case Cancelling(id, ticket) => heard != [] && CancelOf(heard[|heard| - 1], id, ticket)
    case CancelReply(id, ticket) => heard != [] && CancelOf(heard[|heard| - 1], id, ticket)
    case ClearingCancelled(id, t) =>
      heard != [] && CancelOf(heard[|heard| - 1], id, t.ticketID) && t.status == M.Cancelled
    case GettingStatus(id, ticket) => heard != [] && StatusFor(heard[|heard| - 1], id, ticket)
    case GettingResult(c, t) => CauseServes(core, heard, c, t.ticketID)
    case ClearingFound(c, r) => r.Found? && r.requestID == RequestOf(c) && CauseServes(core, heard, c, r.ticketID)
    case WritingFound(c, r) => r.Found? && r.requestID == RequestOf(c) && CauseServes(core, heard, c, r.ticketID)
    case Writing(r) => heard != [] && !r.Found? && AnswerFits(heard[|heard| - 1], r)
    case _ => false
  }

  predicate ThreadOnTask(core: M.State, heard: seq<Receipt>, th: Thread) {
    match th.polls
    case None => OnTask(core, heard, th.pc)
    case Some(e) => EnqueueOf(core, heard, e)
  }

  /** A message answers what its session asked. */
  predicate SentFits(core: M.State, heard: seq<Receipt>, m: Message) {
    match m.cause
    case Unasked => m.response == Error("")
    case ForRequest(n, _) => Heard(heard, n) && AnswerFits(heard[n - 1], m.response)
    case ForEnqueue(e) =>
      && EnqueueOf(core, heard, e)
      && m.response.requestID == e.requestID
      && (m.response.Queued? || m.response.Found? || m.response.Status? ==> m.response.ticketID == e.ticketID)
      && !m.response.Cancelled? && !m.response.Notice?
  }

  // ---------------------------------------------------------------- one step

  predicate TaskStep(th: Thread, s: Session, e: Effect) {
    && s.heard <= e.session.heard
    && ThreadOnTask(e.core, e.session.heard, th.(pc := e.pc))
    && (e.say.Some? ==> SentFits(e.core, e.session.heard, e.say.value))
    && (e.spawn.Some? ==> EnqueueOf(e.core, e.session.heard, e.spawn.value))
  }

  lemma ReceivedOnTask(core: M.State, s: Session, r: Request)
    ensures OnTask(core, s.heard + [Receipt(r, s.playerID, s.pending)], Received(s, r).1)
  {
    var heard := s.heard + [Receipt(r, s.playerID, s.pending)];
    assert heard[|heard| - 1] == Receipt(r, s.playerID, s.pending);
  }

  lemma ReadTicketOnTask(core: M.State, s: Session, pc: PC, choice: Choice, tally: Tally)
    requires M.Inv(core) && Holds(core, None, pc) && OnTask(core, s.heard, pc)
    requires pc.CreateReply? || pc.CancelReply? || pc.GettingStatus?
    ensures TaskStep(Thread(0, None, pc), s, HandlerStep(core, s, pc, choice, tally))
  {
    var id := if pc.CreateReply? then pc.enqueue.ticketID else pc.ticketID;
    if id in core.tickets {
      ReadTicket(core, id);
    }
  }

  lemma CreatingOnTask(core: M.State, s: Session, pc: PC, choice: Choice, tally: Tally)
    requires M.Inv(core) && Holds(core, None, pc) && OnTask(core, s.heard, pc) && pc.Creating?
    ensures TaskStep(Thread(0, None, pc), s, HandlerStep(core, s, pc, choice, tally))
  {
    L.CreatedKeys(core, pc.payload);
    L.CreatedTicket(core, pc.payload);
  }

  lemma HandlerOnTask(core: M.State, s: Session, pc: PC, choice: Choice, tally: Tally)
    requires Holds(core, None, pc) && OnTask(core, s.heard, pc) && !Pushing(pc)
    requires !pc.Creating? && !pc.CreateReply? && !pc.Cancelling? && !pc.CancelReply? && !pc.GettingStatus?
    ensures TaskStep(Thread(0, None, pc), s, HandlerStep(core, s, pc, choice, tally))
  {
    if pc.Reading? && choice.Receive? {
      ReceivedOnTask(core, s, choice.request);
    }
  }

  lemma CancellingOnTask(core: M.State, s: Session, pc: PC, choice: Choice, tally: Tally)
    requires OnTask(core, s.heard, pc) && pc.Cancelling?
    ensures TaskStep(Thread(0, None, pc), s, HandlerStep(core, s, pc, choice, tally))
  {}

  lemma HandlerPushOnTask(core: M.State, s: Session, pc: PC, choice: Choice, tally: Tally)
    requires Pushing(pc) && Holds(core, None, pc) && OnTask(core, s.heard, pc)
    ensures TaskStep(Thread(0, None, pc), s, PushStep(core, s, pc, choice, tally, false))
  {}

  lemma PollerPushOnTask(core: M.State, s: Session, e: Enqueue, pc: PC, choice: Choice, tally: Tally)
    requires Pushing(pc) && Holds(core, Some(e), pc) && EnqueueOf(core, s.heard, e)
    ensures TaskStep(Thread(0, Some(e), pc), s, PushStep(core, s, pc, choice, tally, true))
  {}

  lemma PushOnTask(core: M.State, s: Session, th: Thread, choice: Choice, tally: Tally)
    requires Pushing(th.pc) && ThreadOk(core, th.polls, th.pc) && ThreadOnTask(core, s.heard, th)
    ensures TaskStep(th, s, PushStep(core, s, th.pc, choice, tally, th.polls.Some?))
  {
    match th.polls {
      case None => HandlerPushOnTask(core, s, th.pc, choice, tally);
      case Some(e) => PollerPushOnTask(core, s, e, th.pc, choice, tally);
    }
  }

  lemma PollerOnTask(core: M.State, s: Session, th: Thread, choice: Choice, tally: Tally)
    requires th.polls.Some? && !Pushing(th.pc)
    requires ThreadOk(core, th.polls, th.pc) && ThreadOnTask(core, s.heard, th)
    ensures TaskStep(th, s, PollerStep(core, s, th.polls.value, th.pc, choice, tally))
  {}

  lemma ThreadStepOnTask(core: M.State, s: Session, th: Thread, choice: Choice, tally: Tally)
    requires M.Inv(core) && ThreadOk(core, th.polls, th.pc) && ThreadOnTask(core, s.heard, th)
    ensures TaskStep(th, s, ThreadStep(core, s, th, choice, tally))
  {
    if Pushing(th.pc) {
      PushOnTask(core, s, th, choice, tally);
    } else if th.polls.Some? {
      PollerOnTask(core, s, th, choice, tally);
    } else if th.pc.Creating? {
      CreatingOnTask(core, s, th.pc, choice, tally);
    } else if th.pc.Cancelling? {
      CancellingOnTask(core, s, th.pc, choice, tally);
    } else if th.pc.CreateReply? || th.pc.CancelReply? || th.pc.GettingStatus? {
      ReadTicketOnTask(core, s, th.pc, choice, tally);
    } else {
      HandlerOnTask(core, s, th.pc, choice, tally);
    }
  }

  // ---------------------------------------------------------------- what was asked for stays so

  lemma EnqueueKept(core: M.State, core': M.State, heard: seq<Receipt>, more: seq<Receipt>, e: Enqueue)
    requires L.Later(core, core') && heard <= more && EnqueueOf(core, heard, e)
    ensures EnqueueOf(core', more, e)
  {
    assert L.TicketLater(core, core', e.ticketID);
  }

  lemma CauseKept(core: M.State, core': M.State, heard: seq<Receipt>, c: Cause, ticket: nat)
    requires L.Later(core, core') && CauseServes(core, heard, c, ticket)
    ensures CauseServes(core', heard, c, ticket)
  {
    if c.ForEnqueue? {
      EnqueueKept(core, core', heard, heard, c.enqueue);
    }
  }

  lemma TaskKept(core: M.State, core': M.State, heard: seq<Receipt>, pc: PC)
    requires L.Later(core, core') && OnTask(core, heard, pc)
    ensures OnTask(core', heard, pc)
  {
    match pc {
      case CreateReply(e) => EnqueueKept(core, core', heard, heard, e);
      case SettingPending(e, _) => EnqueueKept(core, core', heard, heard, e);
      case WritingQueued(e, _) => EnqueueKept(core, core', heard, heard, e);
      case Spawning(e) => EnqueueKept(core, core', heard, heard, e);
      case Failing(e) => EnqueueKept(core, core', heard, heard, e);
      case GettingResult(c, t) => CauseKept(core, core', heard, c, t.ticketID);
      case ClearingFound(c, r) => CauseKept(core, core', heard, c, r.ticketID);
      case WritingFound(c, r) => CauseKept(core, core', heard, c, r.ticketID);
      case _ =>
    }
  }

  /** A thread's task outlives the steps of others; only a poller's session can hear more meanwhile. */
  lemma ThreadTaskKept(core: M.State, core': M.State, heard: seq<Receipt>, more: seq<Receipt>, th: Thread)
    requires L.Later(core, core') && ThreadOnTask(core, heard, th)
    requires heard <= more && (th.polls == None ==> heard == more)
    ensures ThreadOnTask(core', more, th)
  {
    match th.polls {
      case None => TaskKept(core, core', heard, th.pc);
      case Some(e) => EnqueueKept(core, core', heard, more, e);
    }
  }

  lemma SentKept(core: M.State, core': M.State, heard: seq<Receipt>, more: seq<Receipt>, m: Message)
    requires L.Later(core, core') && heard <= more && SentFits(core, heard, m)
    ensures SentFits(core', more, m)
  {
    match m.cause {
      case ForRequest(n, _) => assert heard[n - 1] == more[n - 1];
      case ForEnqueue(e) => EnqueueKept(core, core', heard, more, e);
      case Unasked =>
    }
  }

  // ---------------------------------------------------------------- every run

  function HeardBy(s: State, k: nat): seq<Receipt> {
    if k in s.sessions then s.sessions[k].heard else []
  }

  predicate TaskOk(s: State, t: Tid) {
    t in s.threads && ThreadOnTask(s.core, HeardBy(s, s.threads[t].session), s.threads[t])
  }

  predicate FitsAt(s: State, m: Sent) {
    SentFits(s.core, HeardBy(s, m.session), m.message)
  }

  predicate OnTasks(s: State) {
    && (forall t | t in s.threads :: TaskOk(s, t))
    && (forall i :: 0 <= i < |s.sent| ==> FitsAt(s, s.sent[i]))
  }

  /** What is known before thread `t` takes its step. */
  ghost predicate Due(s: State, t: Tid, e: Effect) {
    && t in s.threads && s.threads[t].session in s.sessions && PollerNo(s.nextPoller) !in s.threads
    && L.Later(s.core, e.core)
    && TaskStep(s.threads[t], s.sessions[s.threads[t].session], e)
    && (e.spawn.Some? ==> t != PollerNo(s.nextPoller))
    && (forall u | u in s.threads && u != t && s.threads[u].polls == None ::
          s.threads[u].session != s.threads[t].session || e.session.heard == HeardBy(s, s.threads[t].session))
  }

  lemma AppliedTask(s: State, t: Tid, e: Effect, u: Tid)
    requires OnTasks(s) && Due(s, t, e) && u in Applied(s, t, e).threads
    ensures TaskOk(Applied(s, t, e), u)
  {
    if u != t && u in s.threads {
      assert TaskOk(s, u);
      var k := s.threads[u].session;
      ThreadTaskKept(s.core, e.core, HeardBy(s, k), HeardBy(Applied(s, t, e), k), s.threads[u]);
    }
  }

  lemma AppliedFits(s: State, t: Tid, e: Effect, m: Sent)
    requires Due(s, t, e) && FitsAt(s, m)
    ensures FitsAt(Applied(s, t, e), m)
  {
    SentKept(s.core, e.core, HeardBy(s, m.session), HeardBy(Applied(s, t, e), m.session), m.message);
  }

  lemma AppliedOnTasks(s: State, t: Tid, e: Effect)
    requires OnTasks(s) && Due(s, t, e)
    ensures OnTasks(Applied(s, t, e))
  {
    var s' := Applied(s, t, e);
    forall u | u in s'.threads ensures TaskOk(s', u) {
      AppliedTask(s, t, e, u);
    }
    forall i | 0 <= i < |s.sent| ensures FitsAt(s', s.sent[i]) {
      AppliedFits(s, t, e, s.sent[i]);
    }
  }

  /** Only the session's own handler hears requests. */
  lemma PollersHearNothing(core: M.State, s: Session, th: Thread, choice: Choice, tally: Tally)
    requires th.polls.Some?
    ensures ThreadStep(core, s, th, choice, tally).session.heard == s.heard
  {}

  lemma StepDue(s: State, t: Tid, choice: Choice)
    requires Inv(s) && OnTasks(s) && t in s.threads
    ensures s.threads[t].session in s.sessions
    ensures Due(s, t, ThreadStep(s.core, s.sessions[s.threads[t].session], s.threads[t], choice, s.tally))
  {
    assert ThreadInv(s, t) && TaskOk(s, t);
    assert PollerNo(s.nextPoller) in s.threads ==> ThreadInv(s, PollerNo(s.nextPoller));
    var th, session := s.threads[t], s.sessions[s.threads[t].session];
    ThreadStepOk(s.core, session, th, choice, s.tally);
    ThreadStepOnTask(s.core, session, th, choice, s.tally);
    if th.polls.Some? {
      PollersHearNothing(s.core, session, th, choice, s.tally);
    }
    forall u | u in s.threads && u != t && s.threads[u].polls == None
      ensures th.polls.Some? || s.threads[u].session != th.session
    {
      assert ThreadInv(s, u);
    }
  }

  lemma ActOnTasks(s: State, t: Tid, choice: Choice)
    requires Inv(s) && OnTasks(s) && t in s.threads
    ensures OnTasks(Step(s, Act(t, choice)))
  {
    StepDue(s, t, choice);
    AppliedOnTasks(s, t, ThreadStep(s.core, s.sessions[s.threads[t].session], s.threads[t], choice, s.tally));
  }

  lemma ConnectOnTasks(s: State, k: nat)
    requires Inv(s) && OnTasks(s) && k !in s.sessions
    ensures OnTasks(Connected(s, k))
  {
    var s' := Connected(s, k);
    forall t | t in s'.threads ensures TaskOk(s', t) {
      if t in s.threads {
        assert ThreadInv(s, t) && TaskOk(s, t);
      }
    }
    forall i | 0 <= i < |s.sent| ensures FitsAt(s', s.sent[i]) {
      assert SentInv(s, s.sent[i]) && ThreadInv(s, s.sent[i].thread);
      assert FitsAt(s, s.sent[i]);
    }
  }

  lemma ForeignOnTasks(s: State, op: M.Op)
    requires M.Inv(s.core) && OnTasks(s)
    ensures OnTasks(Step(s, Foreign(op)))
  {
    var s' := Step(s, Foreign(op));
    L.StepLater(s.core, op);
    forall t | t in s'.threads ensures TaskOk(s', t) {
      var heard := HeardBy(s, s.threads[t].session);
      assert TaskOk(s, t);
      ThreadTaskKept(s.core, s'.core, heard, heard, s.threads[t]);
    }
    forall i | 0 <= i < |s.sent| ensures FitsAt(s', s.sent[i]) {
      var heard := HeardBy(s, s.sent[i].session);
      assert FitsAt(s, s.sent[i]);
      SentKept(s.core, s'.core, heard, heard, s.sent[i].message);
    }
  }

  lemma StepOnTasks(s: State, step: Label)
    requires Inv(s) && OnTasks(s)
    ensures OnTasks(Step(s, step))
  {
    match step {
      case Connect(k) =>
        if k !in s.sessions {
          ConnectOnTasks(s, k);
        }
      case Foreign(op) => ForeignOnTasks(s, op);
      case Act(t, choice) =>
        if t in s.threads {
          ActOnTasks(s, t, choice);
        }
    }
  }

  lemma {:induction false} RunOnTasks(labels: seq<Label>)
    ensures OnTasks(Run(labels))
  {
    if labels != [] {
      RunOnTasks(labels[..|labels| - 1]);
      RunKeeps(labels[..|labels| - 1]);
      StepOnTasks(Run(labels[..|labels| - 1]), labels[|labels| - 1]);
    }
  }

  // ---------------------------------------------------------------- main results

  /** In every run a message answers a request of the session it is written to: a cancelled or status
      reply, or a match reported on request, is about the ticket the request named, or about the one
      pending when it was received if it named none; what is written for an enqueue is about its own
      ticket, and that ticket has the player of the session and the score and mode of the request. */
  lemma AnswersFit(labels: seq<Label>, i: nat)
    requires i < |Run(labels).sent|
    ensures var s, m := Run(labels), Run(labels).sent[i];
            m.session in s.sessions && SentFits(s.core, s.sessions[m.session].heard, m.message)
  {
    RunOnTasks(labels);
    RunKeeps(labels);
    assert FitsAt(Run(labels), Run(labels).sent[i]);
    assert SentInv(Run(labels), Run(labels).sent[i]) && ThreadInv(Run(labels), Run(labels).sent[i].thread);
  }

  /** How an act of the gateway can change the matchmaker. */
  ghost predicate Justified(core: M.State, core': M.State, r: Receipt) {
    || (exists payload :: BodyOf(r, payload) && r.request.gate.Admitted? && core' == M.Created(core, payload).0)
    || (exists ticket: nat :: CancelOf(r, r.request.requestID, ticket) && core' == M.Next(core, M.Cancel(ticket)))
  }

  lemma HandlerJustified(core: M.State, s: Session, pc: PC, choice: Choice, tally: Tally)
    requires OnTask(core, s.heard, pc) && HandlerStep(core, s, pc, choice, tally).core != core
    ensures s.heard != [] && Justified(core, HandlerStep(core, s, pc, choice, tally).core, s.heard[|s.heard| - 1])
  {
    if pc.Creating? {
      assert BodyOf(s.heard[|s.heard| - 1], pc.payload);
    } else if pc.Cancelling? {
      assert CancelOf(s.heard[|s.heard| - 1], pc.requestID, pc.ticketID);
    } else {
      HandlerReads(core, s, pc, choice, tally);
    }
  }

  lemma ThreadJustified(core: M.State, s: Session, th: Thread, choice: Choice, tally: Tally)
    requires ThreadOnTask(core, s.heard, th)
    ensures var core' := ThreadStep(core, s, th, choice, tally).core;
            core' == core || (th.polls == None && s.heard != [] && Justified(core, core', s.heard[|s.heard| - 1]))
  {
    if Pushing(th.pc) {
      PushReads(core, s, th.pc, choice, tally, th.polls.Some?);
    } else if th.polls.Some? {
      PollerReads(core, s, th.polls.value, th.pc, choice, tally);
    } else if HandlerStep(core, s, th.pc, choice, tally).core != core {
      HandlerJustified(core, s, th.pc, choice, tally);
    }
  }

  /** Thread `t` is a handler, and the change is what its last request asks for. */
  ghost predicate ChangeAsked(s: State, t: Tid, core': M.State) {
    && t.HandlerOf?
    && HeardBy(s, t.session) != []
    && Justified(s.core, core', HeardBy(s, t.session)[|HeardBy(s, t.session)| - 1])
  }

  lemma ActCore(s: State, t: Tid, choice: Choice)
    requires t in s.threads && s.threads[t].session in s.sessions
    ensures Step(s, Act(t, choice)).core
         == ThreadStep(s.core, s.sessions[s.threads[t].session], s.threads[t], choice, s.tally).core
  {}

  lemma ActAsked(s: State, t: Tid, choice: Choice)
    requires ThreadInv(s, t) && TaskOk(s, t)
    ensures Step(s, Act(t, choice)).core == s.core || ChangeAsked(s, t, Step(s, Act(t, choice)).core)
  {
    ActCore(s, t, choice);
    ThreadJustified(s.core, s.sessions[s.threads[t].session], s.threads[t], choice, s.tally);
  }

  /** In every run the gateway changes the matchmaker only as asked: a handler whose last request is an
      admitted enqueue creates a ticket for the session's player with the score, mode and wait of the
      request, and one whose last request is a cancellation cancels the ticket that request is about. */
  lemma ChangesAreAsked(labels: seq<Label>, t: Tid, choice: Choice)
    requires t in Run(labels).threads
    ensures var s := Run(labels);
            Step(s, Act(t, choice)).core == s.core || ChangeAsked(s, t, Step(s, Act(t, choice)).core)
  {
    RunOnTasks(labels);
    RunKeeps(labels);
    assert ThreadInv(Run(labels), t) && TaskOk(Run(labels), t);
    ActAsked(Run(labels), t, choice);
  }
}
