// Every request of a session is answered once, in order, and what a reply says about a ticket was true
// when the handler read it, between the request and the reply.

module ProtocolAnswers {
  import opened Wrappers
  import opened Protocol
  import opened ProtocolLaws
  import opened ProtocolRuns
  import opened ProtocolTasks
  import M = Matchmaker
  import L = MatchmakerLaws

  // ---------------------------------------------------------------- answers

  /** The number of the request that a message answers. */
  function NumberOf(c: Cause): nat {
    match c
    case ForEnqueue(e) => e.receipt
    case ForRequest(n, _) => n
    case Unasked => 0
  }

  predicate Answers(m: Sent, k: nat) {
    m.thread == HandlerOf(k) && !m.message.cause.Unasked?
  }

  /** The requests that the handler of session `k` answered, in the order of the answers. */
  function Answered(sent: seq<Sent>, k: nat): seq<nat> {
    if sent == [] then []
    else
      var last := sent[|sent| - 1];
      Answered(sent[..|sent| - 1], k) + if Answers(last, k) then [NumberOf(last.message.cause)] else []
  }

  lemma AnsweredAppend(sent: seq<Sent>, m: Sent, k: nat)
    ensures Answered(sent + [m], k)
         == Answered(sent, k) + if Answers(m, k) then [NumberOf(m.message.cause)] else []
  {
    assert (sent + [m])[..|sent|] == sent;
  }

  /** The handler has yet to answer the last request. */
  predicate Owes(pc: PC) {
    !pc.Reading? && !pc.Spawning? && !pc.Leaving? && !pc.Stopped?
  }

  /** How many requests have been dealt with. */
  function Done(heard: nat, pc: PC): int {
    if Owes(pc) then heard - 1 else heard
  }

  predicate InOrder(answered: seq<nat>, done: int) {
    && (forall i, j :: 0 <= i < j < |answered| ==> answered[i] < answered[j])
    && (forall i :: 0 <= i < |answered| ==> 1 <= answered[i] <= done)
  }

  predicate Complete(answered: seq<nat>, done: int) {
    |answered| == done && forall i :: 0 <= i < |answered| ==> answered[i] == i + 1
  }

  /** A handler deals with one request more by its answer, or by a write that fails; it receives the
      next one only when it owes no answer. */
  predicate Deals(s: Session, pc: PC, choice: Choice, e: Effect) {
    var before, after := Done(|s.heard|, pc), Done(|e.session.heard|, e.pc);
    if e.say.Some? && !e.say.value.cause.Unasked?
    then Owes(pc) && NumberOf(e.say.value.cause) == |s.heard| == after && before == after - 1
    else after == before || (choice == WriteFails && after == before + 1)
  }

  lemma HandlerDeals(core: M.State, s: Session, pc: PC, choice: Choice, tally: Tally)
    requires OnTask(core, s.heard, pc) && !Pushing(pc)
    ensures Deals(s, pc, choice, HandlerStep(core, s, pc, choice, tally))
  {}

  lemma PushDeals(core: M.State, s: Session, pc: PC, choice: Choice, tally: Tally)
    requires OnTask(core, s.heard, pc) && Pushing(pc)
    ensures Deals(s, pc, choice, PushStep(core, s, pc, choice, tally, false))
  {}

  lemma ThreadDeals(core: M.State, s: Session, th: Thread, choice: Choice, tally: Tally)
    requires th.polls == None && OnTask(core, s.heard, th.pc)
    ensures Deals(s, th.pc, choice, ThreadStep(core, s, th, choice, tally))
  {
    if Pushing(th.pc) {
      PushDeals(core, s, th.pc, choice, tally);
    } else {
      HandlerDeals(core, s, th.pc, choice, tally);
    }
  }

  // ---------------------------------------------------------------- answers in every run

  function DoneBy(s: State, k: nat): int {
    if HandlerOf(k) in s.threads then Done(|HeardBy(s, k)|, s.threads[HandlerOf(k)].pc) else 0
  }

  /** What a step does to the answers of session `k`: nothing, one answer, or one that failed. */
  predicate Progress(s: State, s': State, k: nat, failed: bool) {
    var before, after := Answered(s.sent, k), Answered(s'.sent, k);
    || (after == before && DoneBy(s', k) == DoneBy(s, k))
    || (after == before + [DoneBy(s, k) + 1] && DoneBy(s', k) == DoneBy(s, k) + 1)
    || (failed && after == before && DoneBy(s', k) == DoneBy(s, k) + 1)
  }

  lemma AppliedProgress(s: State, t: Tid, e: Effect, k: nat, choice: Choice)
    requires Due(s, t, e) && ThreadInv(s, t) && (HandlerOf(k) in s.threads ==> ThreadInv(s, HandlerOf(k)))
    requires t == HandlerOf(k) ==> Deals(s.sessions[k], s.threads[t].pc, choice, e)
    ensures Progress(s, Applied(s, t, e), k, t == HandlerOf(k) && choice == WriteFails)
  {
    if e.say.Some? {
      AnsweredAppend(s.sent, Sent(t, s.threads[t].session, e.say.value), k);
    }
  }

  lemma TurnDeals(s: State, t: Tid, choice: Choice)
    requires ThreadInv(s, t) && TaskOk(s, t) && t.HandlerOf?
    ensures Deals(s.sessions[s.threads[t].session], s.threads[t].pc, choice, Turn(s, t, choice))
  {
    ThreadDeals(s.core, s.sessions[s.threads[t].session], s.threads[t], choice, s.tally);
  }

  /** The effect of the next step of thread `t`. */
  function Turn(s: State, t: Tid, choice: Choice): Effect
    requires t in s.threads && s.threads[t].session in s.sessions
  {
    ThreadStep(s.core, s.sessions[s.threads[t].session], s.threads[t], choice, s.tally)
  }

  /** What is known when thread `t` takes its turn, and of the handler of session `k`. */
  ghost predicate Ready(s: State, t: Tid, choice: Choice, k: nat) {
    && ThreadInv(s, t) && TaskOk(s, t)
    && (HandlerOf(k) in s.threads ==> ThreadInv(s, HandlerOf(k)))
    && Due(s, t, Turn(s, t, choice))
  }

  lemma GetReady(s: State, t: Tid, choice: Choice, k: nat)
    requires Inv(s) && OnTasks(s) && t in s.threads
    ensures Ready(s, t, choice, k)
  {
    assert ThreadInv(s, t) && TaskOk(s, t);
    assert HandlerOf(k) in s.threads ==> ThreadInv(s, HandlerOf(k));
    StepDue(s, t, choice);
  }

  lemma ReadyProgress(s: State, t: Tid, choice: Choice, k: nat)
    requires Ready(s, t, choice, k)
    ensures Progress(s, Applied(s, t, Turn(s, t, choice)), k, t == HandlerOf(k) && choice == WriteFails)
  {
    if t.HandlerOf? {
      TurnDeals(s, t, choice);
    }
    AppliedProgress(s, t, Turn(s, t, choice), k, choice);
  }

  lemma ActProgress(s: State, t: Tid, choice: Choice, k: nat)
    requires Inv(s) && OnTasks(s) && t in s.threads
    ensures Progress(s, Step(s, Act(t, choice)), k, t == HandlerOf(k) && choice == WriteFails)
  {
    GetReady(s, t, choice, k);
    ReadyProgress(s, t, choice, k);
  }

  lemma ConnectProgress(s: State, j: nat, k: nat)
    requires Inv(s) && j !in s.sessions
    ensures Progress(s, Connected(s, j), k, false)
  {
    assert HandlerOf(k) in s.threads ==> ThreadInv(s, HandlerOf(k));
  }

  lemma StepProgress(s: State, step: Label, k: nat)
    requires Inv(s) && OnTasks(s)
    ensures Progress(s, Step(s, step), k, step == Act(HandlerOf(k), WriteFails))
  {
    match step {
      case Connect(j) =>
        if j !in s.sessions {
          ConnectProgress(s, j, k);
        }
      case Foreign(op) =>
      case Act(t, choice) =>
        if t in s.threads {
          ActProgress(s, t, choice, k);
        }
    }
  }

  lemma ProgressInOrder(s: State, s': State, k: nat, failed: bool)
    requires Progress(s, s', k, failed) && InOrder(Answered(s.sent, k), DoneBy(s, k)) && DoneBy(s, k) >= 0
    ensures InOrder(Answered(s'.sent, k), DoneBy(s', k)) && DoneBy(s', k) >= 0
  {}

  lemma {:induction false} RunInOrder(labels: seq<Label>, k: nat)
    ensures InOrder(Answered(Run(labels).sent, k), DoneBy(Run(labels), k)) && DoneBy(Run(labels), k) >= 0
  {
    if labels != [] {
      var s, step := Run(labels[..|labels| - 1]), labels[|labels| - 1];
      RunInOrder(labels[..|labels| - 1], k);
      RunKeeps(labels[..|labels| - 1]);
      RunOnTasks(labels[..|labels| - 1]);
      StepProgress(s, step, k);
      ProgressInOrder(s, Run(labels), k, step == Act(HandlerOf(k), WriteFails));
    }
  }

  lemma {:induction false} RunComplete(labels: seq<Label>, k: nat)
    requires Act(HandlerOf(k), WriteFails) !in labels
    ensures Complete(Answered(Run(labels).sent, k), DoneBy(Run(labels), k))
  {
    if labels != [] {
      var front, step := labels[..|labels| - 1], labels[|labels| - 1];
      assert step in labels;
      RunComplete(front, k);
      RunKeeps(front);
      RunOnTasks(front);
      StepProgress(Run(front), step, k);
    }
  }

  /** In every run a handler answers the requests of its session in the order it received them, each at
      most once. */
  lemma AnswersInOrder(labels: seq<Label>, k: nat)
    requires k in Run(labels).sessions
    ensures var answered := Answered(Run(labels).sent, k);
            && (forall i, j :: 0 <= i < j < |answered| ==> answered[i] < answered[j])
            && (forall i :: 0 <= i < |answered| ==> 1 <= answered[i] <= |Run(labels).sessions[k].heard|)
  {
    RunInOrder(labels, k);
  }

  /** As long as none of its writes fails, a handler that waits for the next request has answered every
      request exactly once: one answer each, none left out. */
  lemma EveryRequestAnswered(labels: seq<Label>, k: nat)
    requires k in Run(labels).sessions && Act(HandlerOf(k), WriteFails) !in labels
    ensures HandlerOf(k) in Run(labels).threads
    ensures Run(labels).threads[HandlerOf(k)].pc.Reading? ==>
              var answered := Answered(Run(labels).sent, k);
              && |answered| == |Run(labels).sessions[k].heard|
              && forall i :: 0 <= i < |answered| ==> answered[i] == i + 1
  {
    RunComplete(labels, k);
    RunKeeps(labels);
    assert SessionInv(Run(labels), k);
  }

  // ---------------------------------------------------------------- what was read

  predicate Shows(s: State, k: nat, n: nat, t: M.Ticket) {
    k in s.sessions && |s.sessions[k].heard| == n && t.ticketID in s.core.tickets && s.core.tickets[t.ticketID] == t
  }

  /** At some moment of the run, when session `k` had received `n` requests, the ticket looked like
      this. */
  ghost predicate WasRead(labels: seq<Label>, k: nat, n: nat, t: M.Ticket) {
    exists i: nat :: i <= |labels| && Shows(Run(labels[..i]), k, n, t)
  }

  lemma ReadNow(labels: seq<Label>, k: nat, n: nat, t: M.Ticket)
    requires Shows(Run(labels), k, n, t)
    ensures WasRead(labels, k, n, t)
  {
    assert labels[..|labels|] == labels;
    assert Shows(Run(labels[..|labels|]), k, n, t);
  }

  lemma ReadBefore(labels: seq<Label>, step: Label, k: nat, n: nat, t: M.Ticket)
    requires WasRead(labels, k, n, t)
    ensures WasRead(labels + [step], k, n, t)
  {
    var i: nat :| i <= |labels| && Shows(Run(labels[..i]), k, n, t);
    assert (labels + [step])[..i] == labels[..i];
    assert Shows(Run((labels + [step])[..i]), k, n, t);
  }

  predicate StatusIs(standing: Standing, status: M.Status) {
    match status
    case Queued => standing == InQueue
    case Matched => standing == InMatch
    case Cancelled => standing == CalledOff
  }

  /** What a reply says of its ticket is what the ticket looked like. */
  predicate Describes(t: M.Ticket, r: Response) {
    match r
    case Queued(_, _, ticket, status) => ticket == t.ticketID && StatusIs(status, t.status) && t.matchID == None
    case Status(_, ticket, status, matchID, roomID) =>
      && ticket == t.ticketID && StatusIs(status, t.status)
      && matchID == t.matchID && roomID == t.roomID && t.matchID == None
    case _ => false
  }

  ghost predicate WasDescribed(labels: seq<Label>, k: nat, n: nat, r: Response) {
    exists t :: WasRead(labels, k, n, t) && Describes(t, r)
  }

  lemma DescribedBefore(labels: seq<Label>, step: Label, k: nat, n: nat, r: Response)
    requires WasDescribed(labels, k, n, r)
    ensures WasDescribed(labels + [step], k, n, r)
  {
    var t :| WasRead(labels, k, n, t) && Describes(t, r);
    ReadBefore(labels, step, k, n, t);
  }

  /** A handler holds a ticket, or is about to describe one, that it read for its last request. */
  ghost predicate HasRead(labels: seq<Label>, k: nat, n: nat, pc: PC) {
    match pc
    case SettingPending(_, t) => WasRead(labels, k, n, t)
    case WritingQueued(e, t) =>
      WasDescribed(labels, k, n, Queued(e.requestID, e.playerID, t.ticketID, StandingOf(t.status)))
    case Writing(r) => r.Status? ==> WasDescribed(labels, k, n, r)
    case _ => true
  }

  ghost predicate SaysRead(labels: seq<Label>, m: Sent) {
    m.thread.HandlerOf? && (m.message.response.Queued? || m.message.response.Status?) ==>
      WasDescribed(labels, m.session, NumberOf(m.message.cause), m.message.response)
  }

  lemma HasReadBefore(labels: seq<Label>, step: Label, k: nat, n: nat, pc: PC)
    requires HasRead(labels, k, n, pc)
    ensures HasRead(labels + [step], k, n, pc)
  {
    match pc {
      case SettingPending(_, t) => ReadBefore(labels, step, k, n, t);
      case WritingQueued(e, t) =>
        DescribedBefore(labels, step, k, n, Queued(e.requestID, e.playerID, t.ticketID, StandingOf(t.status)));
      case Writing(r) =>
        if r.Status? {
          DescribedBefore(labels, step, k, n, r);
        }
      case _ =>
    }
  }

  /** Where the handler goes with a ticket it reads at this step. */
  lemma ReadsTicket(core: M.State, s: Session, pc: PC, choice: Choice, tally: Tally)
    requires M.Inv(core) && (pc.CreateReply? || pc.GettingStatus?)
    ensures var e := HandlerStep(core, s, pc, choice, tally);
            && e.session == s && e.say == None
            && match e.pc
               case SettingPending(_, t) => t.ticketID in core.tickets && t == core.tickets[t.ticketID]
               case WritingQueued(_, _) => false
               case Writing(r) =>
                 r.Status? ==> r.ticketID in core.tickets && Describes(core.tickets[r.ticketID], r)
               case _ => true
  {
    var id := if pc.CreateReply? then pc.enqueue.ticketID else pc.ticketID;
    if id in core.tickets {
      ReadTicket(core, id);
      assert M.TicketOk(core, id);
    }
  }

  /** Elsewhere it keeps what it holds, or says it. */
  predicate Keeps(s: Session, pc: PC, e: Effect) {
    && (match e.pc
        case SettingPending(_, _) => e.pc == pc && e.session.heard == s.heard
        case WritingQueued(q, t) =>
          && e.session.heard == s.heard
          && (e.pc == pc || (pc == SettingPending(q, t) && !IsMatched(t)))
        case Writing(r) => r.Status? ==> e.pc == pc && e.session.heard == s.heard
        case _ => true)
    && (e.say.Some? ==>
          match e.say.value.response
          case Queued(id, player, ticket, status) =>
            && pc.WritingQueued? && NumberOf(e.say.value.cause) == |s.heard|
            && e.say.value.response == Queued(pc.enqueue.requestID, pc.enqueue.playerID, pc.ticket.ticketID,
                                              StandingOf(pc.ticket.status))
          case Status(_, _, _, _, _) =>
            pc == Writing(e.say.value.response) && NumberOf(e.say.value.cause) == |s.heard|
          case _ => true)
  }

  lemma HandlerKeeps(core: M.State, s: Session, pc: PC, choice: Choice, tally: Tally)
    requires OnTask(core, s.heard, pc) && !pc.CreateReply? && !pc.GettingStatus? && !Pushing(pc)
    ensures Keeps(s, pc, HandlerStep(core, s, pc, choice, tally))
  {}

  lemma PushKeeps(core: M.State, s: Session, pc: PC, choice: Choice, tally: Tally)
    requires OnTask(core, s.heard, pc) && Pushing(pc)
    ensures Keeps(s, pc, PushStep(core, s, pc, choice, tally, false))
  {}

  // ---------------------------------------------------------------- what was read, in every run

  /** What a step of the handler of session `k` leaves it with, and what it says. */
  ghost predicate StillRead(labels: seq<Label>, k: nat, e: Effect) {
    && HasRead(labels, k, |e.session.heard|, e.pc)
    && (e.say.Some? && (e.say.value.response.Queued? || e.say.value.response.Status?) ==>
          WasDescribed(labels, k, NumberOf(e.say.value.cause), e.say.value.response))
  }

  lemma KeepsRead(labels: seq<Label>, step: Label, k: nat, s: Session, pc: PC, e: Effect)
    requires HasRead(labels, k, |s.heard|, pc) && Keeps(s, pc, e)
    requires pc.SettingPending? && !IsMatched(pc.ticket) ==> pc.ticket.status != M.Matched && pc.ticket.matchID == None
    ensures StillRead(labels + [step], k, e)
  {
    HasReadBefore(labels, step, k, |s.heard|, pc);
    if e.pc.WritingQueued? && e.pc != pc {
      var q, t := e.pc.enqueue, e.pc.ticket;
      var r := Queued(q.requestID, q.playerID, t.ticketID, StandingOf(t.status));
      assert WasRead(labels + [step], k, |s.heard|, t) && Describes(t, r);
    }
  }

  lemma TakesRead(labels: seq<Label>, step: Label, k: nat, pc: PC, choice: Choice)
    requires Inv(Run(labels)) && k in Run(labels).sessions && (pc.CreateReply? || pc.GettingStatus?)
    ensures var s := Run(labels);
            StillRead(labels + [step], k, HandlerStep(s.core, s.sessions[k], pc, choice, s.tally))
  {
    var s := Run(labels);
    var session := s.sessions[k];
    var e := HandlerStep(s.core, session, pc, choice, s.tally);
    ReadsTicket(s.core, session, pc, choice, s.tally);
    match e.pc {
      case SettingPending(_, t) =>
        ReadNow(labels, k, |session.heard|, t);
        ReadBefore(labels, step, k, |session.heard|, t);
      case Writing(r) =>
        if r.Status? {
          var t := s.core.tickets[r.ticketID];
          assert M.TicketOk(s.core, r.ticketID);
          ReadNow(labels, k, |session.heard|, t);
          ReadBefore(labels, step, k, |session.heard|, t);
          assert WasRead(labels + [step], k, |session.heard|, t) && Describes(t, r);
        }
      case _ =>
    }
  }

  lemma HandlerRead(labels: seq<Label>, k: nat, choice: Choice, e: Effect)
    requires Inv(Run(labels)) && OnTasks(Run(labels)) && HandlerOf(k) in Run(labels).threads
    requires k in Run(labels).sessions
    requires e == ThreadStep(Run(labels).core, Run(labels).sessions[k], Run(labels).threads[HandlerOf(k)], choice,
                             Run(labels).tally)
    requires HasRead(labels, k, |Run(labels).sessions[k].heard|, Run(labels).threads[HandlerOf(k)].pc)
    ensures StillRead(labels + [Act(HandlerOf(k), choice)], k, e)
  {
    var s := Run(labels);
    var th := s.threads[HandlerOf(k)];
    assert ThreadInv(s, HandlerOf(k)) && TaskOk(s, HandlerOf(k));
    if Pushing(th.pc) {
      PushKeeps(s.core, s.sessions[k], th.pc, choice, s.tally);
      KeepsRead(labels, Act(HandlerOf(k), choice), k, s.sessions[k], th.pc, e);
    } else if th.pc.CreateReply? || th.pc.GettingStatus? {
      TakesRead(labels, Act(HandlerOf(k), choice), k, th.pc, choice);
    } else {
      HandlerKeeps(s.core, s.sessions[k], th.pc, choice, s.tally);
      KeepsRead(labels, Act(HandlerOf(k), choice), k, s.sessions[k], th.pc, e);
    }
  }

  ghost predicate HandlerHasRead(labels: seq<Label>, k: nat) {
    HandlerOf(k) in Run(labels).threads ==>
      HasRead(labels, k, |HeardBy(Run(labels), k)|, Run(labels).threads[HandlerOf(k)].pc)
  }

  ghost predicate AllRead(labels: seq<Label>) {
    && (forall k: nat :: HandlerHasRead(labels, k))
    && (forall i :: 0 <= i < |Run(labels).sent| ==> SaysRead(labels, Run(labels).sent[i]))
  }

  lemma RunNext(labels: seq<Label>, step: Label)
    ensures Run(labels + [step]) == Step(Run(labels), step)
  {
    assert (labels + [step])[..|labels|] == labels;
  }

  /** A step that leaves the handler of `k` alone. */
  lemma OtherRead(labels: seq<Label>, step: Label, k: nat)
    requires HandlerHasRead(labels, k)
    requires var s, s' := Run(labels), Step(Run(labels), step);
             HandlerOf(k) in s'.threads ==>
               || s'.threads[HandlerOf(k)].pc.Reading?
               || (HandlerOf(k) in s.threads && s'.threads[HandlerOf(k)].pc == s.threads[HandlerOf(k)].pc
                   && HeardBy(s', k) == HeardBy(s, k))
    ensures HandlerHasRead(labels + [step], k)
  {
    RunNext(labels, step);
    if HandlerOf(k) in Run(labels).threads {
      HasReadBefore(labels, step, k, |HeardBy(Run(labels), k)|, Run(labels).threads[HandlerOf(k)].pc);
    }
  }

  lemma SaidBefore(labels: seq<Label>, step: Label, m: Sent)
    requires SaysRead(labels, m)
    ensures SaysRead(labels + [step], m)
  {
    if m.thread.HandlerOf? && (m.message.response.Queued? || m.message.response.Status?) {
      DescribedBefore(labels, step, m.session, NumberOf(m.message.cause), m.message.response);
    }
  }

  /** What a step of another thread leaves alone. */
  predicate Leaves(s: State, s': State, k: nat) {
    HandlerOf(k) in s'.threads ==>
      && HandlerOf(k) in s.threads && s'.threads[HandlerOf(k)].pc == s.threads[HandlerOf(k)].pc
      && HeardBy(s', k) == HeardBy(s, k)
  }

  lemma AppliedLeaves(s: State, t: Tid, e: Effect, k: nat)
    requires Due(s, t, e) && ThreadInv(s, t) && (HandlerOf(k) in s.threads ==> ThreadInv(s, HandlerOf(k)))
    requires t != HandlerOf(k)
    ensures Leaves(s, Applied(s, t, e), k)
  {}

  lemma ActLeaves(s: State, t: Tid, choice: Choice, k: nat)
    requires Inv(s) && OnTasks(s) && t in s.threads && t != HandlerOf(k)
    ensures Leaves(s, Step(s, Act(t, choice)), k)
  {
    GetReady(s, t, choice, k);
    AppliedLeaves(s, t, Turn(s, t, choice), k);
  }

  lemma ActHandlersRead(labels: seq<Label>, t: Tid, choice: Choice, k: nat)
    requires Inv(Run(labels)) && OnTasks(Run(labels)) && HandlerHasRead(labels, k) && t in Run(labels).threads
    requires t != HandlerOf(k)
    ensures HandlerHasRead(labels + [Act(t, choice)], k)
  {
    ActLeaves(Run(labels), t, choice, k);
    OtherRead(labels, Act(t, choice), k);
  }

  /** The handler's own step, and what it says. */
  lemma OwnRead(labels: seq<Label>, k: nat, choice: Choice, e: Effect)
    requires Ready(Run(labels), HandlerOf(k), choice, k) && e == Turn(Run(labels), HandlerOf(k), choice)
    requires StillRead(labels + [Act(HandlerOf(k), choice)], k, e)
    ensures HandlerHasRead(labels + [Act(HandlerOf(k), choice)], k)
    ensures e.say.Some? ==> SaysRead(labels + [Act(HandlerOf(k), choice)], Sent(HandlerOf(k), k, e.say.value))
  {
    RunNext(labels, Act(HandlerOf(k), choice));
  }

  lemma SentAfter(s: State, t: Tid, choice: Choice)
    requires ThreadInv(s, t)
    ensures var e := Turn(s, t, choice);
            Step(s, Act(t, choice)).sent
            == if e.say.Some? then s.sent + [Sent(t, s.threads[t].session, e.say.value)] else s.sent
  {}

  lemma ActSaysRead(labels: seq<Label>, t: Tid, choice: Choice)
    requires ThreadInv(Run(labels), t)
    requires forall i :: 0 <= i < |Run(labels).sent| ==> SaysRead(labels, Run(labels).sent[i])
    requires var s, step := Run(labels), Act(t, choice);
             Turn(s, t, choice).say.Some? ==>
               SaysRead(labels + [step], Sent(t, s.threads[t].session, Turn(s, t, choice).say.value))
    ensures var sent := Step(Run(labels), Act(t, choice)).sent;
            forall i :: 0 <= i < |sent| ==> SaysRead(labels + [Act(t, choice)], sent[i])
  {
    var sent, sent' := Run(labels).sent, Step(Run(labels), Act(t, choice)).sent;
    SentAfter(Run(labels), t, choice);
    forall i | 0 <= i < |sent'| ensures SaysRead(labels + [Act(t, choice)], sent'[i]) {
      if i < |sent| {
        SaidBefore(labels, Act(t, choice), sent[i]);
      }
    }
  }

  lemma ActRead(labels: seq<Label>, t: Tid, choice: Choice)
    requires Inv(Run(labels)) && OnTasks(Run(labels)) && AllRead(labels) && t in Run(labels).threads
    ensures AllRead(labels + [Act(t, choice)])
  {
    RunNext(labels, Act(t, choice));
    GetReady(Run(labels), t, choice, 0);
    var k := Run(labels).threads[t].session;
    if t.HandlerOf? {
      GetReady(Run(labels), t, choice, k);
      assert HandlerHasRead(labels, k);
      HandlerRead(labels, k, choice, Turn(Run(labels), t, choice));
      OwnRead(labels, k, choice, Turn(Run(labels), t, choice));
    }
    ActSaysRead(labels, t, choice);
    forall j: nat ensures HandlerHasRead(labels + [Act(t, choice)], j) {
      if t != HandlerOf(j) {
        assert HandlerHasRead(labels, j);
        ActHandlersRead(labels, t, choice, j);
      }
    }
  }

  lemma QuietRead(labels: seq<Label>, step: Label)
    requires Inv(Run(labels)) && AllRead(labels)
    requires step.Act? ==> step.thread !in Run(labels).threads
    ensures AllRead(labels + [step])
  {
    var s := Run(labels);
    RunNext(labels, step);
    forall k: nat ensures HandlerHasRead(labels + [step], k) {
      assert HandlerHasRead(labels, k);
      assert HandlerOf(k) in s.threads ==> ThreadInv(s, HandlerOf(k));
      OtherRead(labels, step, k);
    }
    forall i | 0 <= i < |s.sent| ensures SaysRead(labels + [step], s.sent[i]) {
      SaidBefore(labels, step, s.sent[i]);
    }
  }

  lemma {:induction false} RunRead(labels: seq<Label>)
    ensures AllRead(labels)
  {
    if labels != [] {
      var front, step := labels[..|labels| - 1], labels[|labels| - 1];
      assert labels == front + [step];
      RunRead(front);
      RunKeeps(front);
      RunOnTasks(front);
      if step.Act? && step.thread in Run(front).threads {
        ActRead(front, step.thread, step.choice);
      } else {
        QuietRead(front, step);
      }
    }
  }

  /** In every run a status reply, and a queued reply, says what its ticket looked like at some moment
      between the request it answers and the next one: status, match and room. Neither is given for a
      ticket that had a match at that moment. */
  lemma RepliesWereTrue(labels: seq<Label>, i: nat)
    requires i < |Run(labels).sent| && Run(labels).sent[i].thread.HandlerOf?
    requires Run(labels).sent[i].message.response.Queued? || Run(labels).sent[i].message.response.Status?
    ensures var m := Run(labels).sent[i];
            exists t :: WasRead(labels, m.session, NumberOf(m.message.cause), t) && Describes(t, m.message.response)
  {
    RunRead(labels);
    assert SaysRead(labels, Run(labels).sent[i]);
  }
}
