// Where each request and each poll must lead, whatever other threads and other users of the matchmaker
// do between its steps: the message that ends it, and what it leaves behind.

module ProtocolPaths {
  import opened Wrappers
  import opened Protocol
  import opened ProtocolLaws
  import opened ProtocolRuns
  import opened ProtocolTasks
  import opened ProtocolAnswers
  import opened ProtocolOwnership
  import M = Matchmaker
  import L = MatchmakerLaws

  // ---------------------------------------------------------------- taking turns

  /** Nothing in the gap is a step of thread `t`. */
  predicate Others(gap: seq<Label>, t: Tid) {
    forall step | step in gap :: step.Act? ==> step.thread != t
  }

  /** After the gap, thread `t` takes a step. */
  function Go(labels: seq<Label>, gap: seq<Label>, t: Tid, choice: Choice): seq<Label> {
    labels + gap + [Act(t, choice)]
  }

  /** Thread `t` of session `k` stands at `pc`. */
  predicate Stands(s: State, t: Tid, k: nat, polls: Option<Enqueue>, pc: PC) {
    t in s.threads && s.threads[t] == Thread(k, polls, pc) && k in s.sessions
  }

  /** What a thread finds again after a gap: its place, and for a handler what its session heard, who
      its player is and which tickets it made. What was written stays written. */
  predicate Same(s: State, s': State, t: Tid) {
    && t in s.threads && t in s'.threads && s'.threads[t] == s.threads[t]
    && s.threads[t].session in s.sessions && s.threads[t].session in s'.sessions
    && (t.HandlerOf? ==>
          var a, b := s.sessions[s.threads[t].session], s'.sessions[s.threads[t].session];
          a.heard == b.heard && a.playerID == b.playerID && a.created == b.created && a.open == b.open)
    && s.sent <= s'.sent
  }

  lemma PollerLeaves(core: M.State, s: Session, th: Thread, choice: Choice, tally: Tally)
    requires th.polls.Some?
    ensures var s' := ThreadStep(core, s, th, choice, tally).session;
            s' == s || s' == s.(pending := None)
  {}

  lemma AppliedSame(s: State, u: Tid, e: Effect, t: Tid)
    requires ThreadInv(s, t) && ThreadInv(s, u) && t != u && PollerNo(s.nextPoller) !in s.threads
    requires var a := s.sessions[s.threads[u].session];
             u.PollerNo? ==> e.session == a || e.session == a.(pending := None)
    ensures Same(s, Applied(s, u, e), t)
  {}

  lemma ActSame(s: State, u: Tid, choice: Choice, t: Tid)
    requires ThreadInv(s, t) && ThreadInv(s, u) && t != u && PollerNo(s.nextPoller) !in s.threads
    ensures Same(s, Step(s, Act(u, choice)), t)
  {
    if u.PollerNo? {
      PollerLeaves(s.core, s.sessions[s.threads[u].session], s.threads[u], choice, s.tally);
    }
    AppliedSame(s, u, Turn(s, u, choice), t);
  }

  lemma StepSame(s: State, step: Label, t: Tid)
    requires Inv(s) && t in s.threads && (step.Act? ==> step.thread != t)
    ensures Same(s, Step(s, step), t)
  {
    assert ThreadInv(s, t);
    match step {
      case Connect(_) =>
      case Foreign(op) =>
      case Act(u, choice) =>
        if u in s.threads {
          assert ThreadInv(s, u);
          PollerIsNew(s);
          ActSame(s, u, choice, t);
        }
    }
  }

  lemma StepLater(s: State, step: Label)
    requires Inv(s)
    ensures L.Later(s.core, Step(s, step).core)
  {
    L.RunLater(s.core, []);
    match step {
      case Connect(_) =>
      case Foreign(op) => L.StepLater(s.core, op);
      case Act(u, choice) =>
        if u in s.threads {
          ThreadStepIsGood(s, u, choice);
        }
    }
  }

  lemma SameTransitive(a: State, b: State, c: State, t: Tid)
    requires Same(a, b, t) && Same(b, c, t)
    ensures Same(a, c, t)
  {}

  lemma SameSelf(s: State, t: Tid)
    requires Inv(s) && t in s.threads
    ensures Same(s, s, t) && L.Later(s.core, s.core)
  {
    assert ThreadInv(s, t);
    L.RunLater(s.core, []);
  }

  lemma GapStep(a: State, b: State, step: Label, t: Tid)
    requires Same(a, b, t) && L.Later(a.core, b.core) && Inv(b) && (step.Act? ==> step.thread != t)
    ensures Same(a, Step(b, step), t) && L.Later(a.core, Step(b, step).core)
  {
    StepSame(b, step, t);
    StepLater(b, step);
    SameTransitive(a, b, Step(b, step), t);
    L.LaterTransitive(a.core, b.core, Step(b, step).core);
  }

  lemma GapNext(labels: seq<Label>, front: seq<Label>, step: Label, t: Tid)
    requires Passes(labels, labels + front, t) && (step.Act? ==> step.thread != t)
    ensures Passes(labels, labels + front + [step], t)
  {
    RunKeeps(labels + front);
    RunNext(labels + front, step);
    GapStep(Run(labels), Run(labels + front), step, t);
  }

  lemma NoGap(labels: seq<Label>, t: Tid)
    requires t in Run(labels).threads
    ensures Passes(labels, labels, t)
  {
    RunKeeps(labels);
    SameSelf(Run(labels), t);
  }

  ghost predicate Passes(labels: seq<Label>, more: seq<Label>, t: Tid) {
    Same(Run(labels), Run(more), t) && L.Later(Run(labels).core, Run(more).core)
  }

  lemma GapSplits(labels: seq<Label>, gap: seq<Label>)
    ensures gap == [] ==> labels + gap == labels
    ensures gap != [] ==> labels + gap == labels + gap[..|gap| - 1] + [gap[|gap| - 1]]
  {}

  lemma {:induction false} GapPasses(labels: seq<Label>, gap: seq<Label>, t: Tid)
    requires t in Run(labels).threads && Others(gap, t)
    ensures Passes(labels, labels + gap, t)
    decreases |gap|
  {
    GapSplits(labels, gap);
    if gap == [] {
      NoGap(labels, t);
    } else {
      GapPasses(labels, gap[..|gap| - 1], t);
      GapNext(labels, gap[..|gap| - 1], gap[|gap| - 1], t);
    }
  }

  lemma GapSame(labels: seq<Label>, gap: seq<Label>, t: Tid)
    requires t in Run(labels).threads && Others(gap, t)
    ensures Same(Run(labels), Run(labels + gap), t)
    ensures L.Later(Run(labels).core, Run(labels + gap).core)
  {
    GapPasses(labels, gap, t);
  }

  /** The step of thread `t` in state `s`, and where it leads. */
  ghost predicate Takes(s: State, s': State, t: Tid, k: nat, polls: Option<Enqueue>, pc: PC, e: Effect) {
    && Stands(s, t, k, polls, pc) && M.Inv(s.core) && ThreadOk(s.core, polls, pc)
    && Stands(s', t, k, polls, e.pc)
    && s'.sessions[k] == e.session && s'.core == e.core
    && s'.sent == (if e.say.Some? then s.sent + [Sent(t, k, e.say.value)] else s.sent)
    && (e.spawn.Some? ==>
          exists p :: p !in s.threads && p in s'.threads && s'.threads[p] == Thread(k, e.spawn, Polling))
  }

  lemma StepTakes(s: State, t: Tid, k: nat, polls: Option<Enqueue>, pc: PC, choice: Choice)
    requires ThreadInv(s, t) && M.Inv(s.core) && PollerNo(s.nextPoller) !in s.threads && Stands(s, t, k, polls, pc)
    ensures Takes(s, Step(s, Act(t, choice)), t, k, polls, pc,
                  ThreadStep(s.core, s.sessions[k], Thread(k, polls, pc), choice, s.tally))
  {
    var s', p := Step(s, Act(t, choice)), PollerNo(s.nextPoller);
    var e := ThreadStep(s.core, s.sessions[k], Thread(k, polls, pc), choice, s.tally);
    assert e.spawn.Some? ==> p in s'.threads && s'.threads[p] == Thread(k, e.spawn, Polling);
  }

  /** A gap and a step: the thread finds itself where it stood, and then takes its step. */
  ghost predicate Goes(a: State, s: State, b: State, t: Tid, k: nat, polls: Option<Enqueue>, pc: PC, choice: Choice) {
    && Same(a, s, t) && L.Later(a.core, s.core)
    && k in s.sessions
    && Takes(s, b, t, k, polls, pc, ThreadStep(s.core, s.sessions[k], Thread(k, polls, pc), choice, s.tally))
  }

  lemma GapAndStep(
      labels: seq<Label>, gap: seq<Label>, t: Tid, k: nat, polls: Option<Enqueue>, pc: PC, choice: Choice)
    requires Stands(Run(labels), t, k, polls, pc) && Others(gap, t)
    ensures Goes(Run(labels), Run(labels + gap), Run(Go(labels, gap, t, choice)), t, k, polls, pc, choice)
  {
    GapSame(labels, gap, t);
    RunKeeps(labels + gap);
    var s := Run(labels + gap);
    assert ThreadInv(s, t);
    PollerIsNew(s);
    StepTakes(s, t, k, polls, pc, choice);
    RunNext(labels + gap, Act(t, choice));
  }

  // ---------------------------------------------------------------- outcomes

  /** The last message of the run is this one of thread `t`. */
  predicate Says(s: State, t: Tid, k: nat, cause: Cause, r: Response) {
    s.sent != [] && s.sent[|s.sent| - 1] == Sent(t, k, Message(cause, r))
  }

  /** The message that reports the match of a ticket, as the matchmaker has it. */
  predicate ReportsMatch(core: M.State, requestID: string, ticket: nat, r: Response) {
    && ticket in core.tickets && core.tickets[ticket].matchID.Some?
    && core.tickets[ticket].matchID.value in core.results
    && var result := core.results[core.tickets[ticket].matchID.value];
    && r.Found? && r.requestID == requestID && r.ticketID == ticket && r.status == InMatch
    && r.matchID == core.tickets[ticket].matchID && r.roomID == Some(result.roomID)
    && r.serverID == result.serverID && r.serverAddr == result.serverAddr && r.players == result.playerIDs
  }

  ghost predicate PushedMatch(s: State, t: Tid, k: nat, cause: Cause, ticket: nat) {
    exists r :: Says(s, t, k, cause, r) && ReportsMatch(s.core, RequestOf(cause), ticket, r)
  }

  lemma FoundReports(core: M.State, c: Cause, r: Response)
    requires M.Inv(core) && FoundOk(core, c, r)
    ensures ReportsMatch(core, RequestOf(c), r.ticketID, r)
  {
    assert M.ResultOk(core, r.matchID.value);
  }

  // ---------------------------------------------------------------- single steps

  lemma Fetches(a: State, s: State, b: State, t: Tid, k: nat, polls: Option<Enqueue>, c: Cause, ticket: M.Ticket)
    requires Goes(a, s, b, t, k, polls, GettingResult(c, ticket), CallOk)
    ensures var m := ticket.matchID;
            && m.Some? && m.value in s.core.results
            && Stands(b, t, k, polls, ClearingFound(c, FromResult(RequestOf(c), ticket, s.core.results[m.value])))
    ensures b.sent == s.sent
  {
    ReadResult(s.core, c, ticket);
  }

  lemma Clears(a: State, s: State, b: State, t: Tid, k: nat, polls: Option<Enqueue>, c: Cause, r: Response)
    requires Goes(a, s, b, t, k, polls, ClearingFound(c, r), Proceed)
    ensures Stands(b, t, k, polls, WritingFound(c, r)) && b.sessions[k].pending == None && b.sent == s.sent
  {}

  lemma WritesFound(a: State, s: State, b: State, t: Tid, k: nat, polls: Option<Enqueue>, c: Cause, r: Response)
    requires Goes(a, s, b, t, k, polls, WritingFound(c, r), WriteOk)
    ensures Stands(b, t, k, polls, if polls.Some? then Stopped else Reading)
    ensures Says(b, t, k, c, r) && FoundOk(b.core, c, r) && M.Inv(b.core)
  {}

  // ---------------------------------------------------------------- the push

  /** From the fetch of the result on, a push ends with the match, and clears the pending ticket. */
  lemma PushEnds(labels: seq<Label>, t: Tid, k: nat, polls: Option<Enqueue>, c: Cause, ticket: M.Ticket,
                 g1: seq<Label>, g2: seq<Label>, g3: seq<Label>)
    requires Stands(Run(labels), t, k, polls, GettingResult(c, ticket))
    requires Others(g1, t) && Others(g2, t) && Others(g3, t)
    ensures var l2 := Go(Go(labels, g1, t, CallOk), g2, t, Proceed);
            var l3 := Go(l2, g3, t, WriteOk);
            && k in Run(l2).sessions && Run(l2).sessions[k].pending == None
            && Stands(Run(l3), t, k, polls, if polls.Some? then Stopped else Reading)
            && PushedMatch(Run(l3), t, k, c, ticket.ticketID)
  {
    var l1 := Go(labels, g1, t, CallOk);
    var l2 := Go(l1, g2, t, Proceed);
    var l3 := Go(l2, g3, t, WriteOk);
    GapAndStep(labels, g1, t, k, polls, GettingResult(c, ticket), CallOk);
    Fetches(Run(labels), Run(labels + g1), Run(l1), t, k, polls, c, ticket);
    var r := FromResult(RequestOf(c), ticket, Run(labels + g1).core.results[ticket.matchID.value]);
    GapAndStep(l1, g2, t, k, polls, ClearingFound(c, r), Proceed);
    Clears(Run(l1), Run(l1 + g2), Run(l2), t, k, polls, c, r);
    GapAndStep(l2, g3, t, k, polls, WritingFound(c, r), WriteOk);
    WritesFound(Run(l2), Run(l2 + g3), Run(l3), t, k, polls, c, r);
    FoundReports(Run(l3).core, c, r);
  }

  // ---------------------------------------------------------------- the poller

  lemma ReadsMatch(a: State, s: State, b: State, t: Tid, k: nat, e: Enqueue)
    requires Goes(a, s, b, t, k, Some(e), Polling, CallOk)
    requires e.ticketID in s.core.tickets && s.core.tickets[e.ticketID].matchID.Some?
    ensures Stands(b, t, k, Some(e), GettingResult(ForEnqueue(e), s.core.tickets[e.ticketID]))
    ensures s.core.tickets[e.ticketID].ticketID == e.ticketID
  {
    ReadTicket(s.core, e.ticketID);
  }

  lemma ReadsNoMatch(a: State, s: State, b: State, t: Tid, k: nat, e: Enqueue)
    requires Goes(a, s, b, t, k, Some(e), Polling, CallOk)
    requires e.ticketID in s.core.tickets && s.core.tickets[e.ticketID].matchID == None
    ensures var ticket := s.core.tickets[e.ticketID];
            && ticket.ticketID == e.ticketID && ticket.status in {M.Queued, M.Cancelled}
            && Stands(b, t, k, Some(e), if ticket.status == M.Queued then Polling else ClearingPolled(ticket))
    ensures b.sent == s.sent
  {
    assert M.TicketOk(s.core, e.ticketID);
  }

  lemma ClearsPolled(a: State, s: State, b: State, t: Tid, k: nat, e: Enqueue, ticket: M.Ticket)
    requires Goes(a, s, b, t, k, Some(e), ClearingPolled(ticket), Proceed)
    ensures ticket.ticketID == e.ticketID && b.sessions[k].pending == None
    ensures Stands(b, t, k, Some(e), WritingLast(Status(e.requestID, e.ticketID, CalledOff, None, None)))
  {}

  lemma WritesLast(a: State, s: State, b: State, t: Tid, k: nat, e: Enqueue, r: Response)
    requires Goes(a, s, b, t, k, Some(e), WritingLast(r), WriteOk)
    ensures Stands(b, t, k, Some(e), Stopped) && Says(b, t, k, ForEnqueue(e), r)
  {}

  /** A poll that reads a ticket with a match, whose fetch and write succeed, ends the poller with
      exactly the match of that ticket; also when the ticket was cancelled after it was matched. */
  lemma PollPushesMatch(labels: seq<Label>, t: Tid, k: nat, e: Enqueue,
                        g1: seq<Label>, g2: seq<Label>, g3: seq<Label>, g4: seq<Label>)
    requires Stands(Run(labels), t, k, Some(e), Polling)
    requires Others(g1, t) && Others(g2, t) && Others(g3, t) && Others(g4, t)
    requires var core := Run(labels + g1).core;
             e.ticketID in core.tickets && core.tickets[e.ticketID].matchID.Some?
    ensures var l3 := Go(Go(Go(labels, g1, t, CallOk), g2, t, CallOk), g3, t, Proceed);
            var l4 := Go(l3, g4, t, WriteOk);
            && k in Run(l3).sessions && Run(l3).sessions[k].pending == None
            && Stands(Run(l4), t, k, Some(e), Stopped)
            && PushedMatch(Run(l4), t, k, ForEnqueue(e), e.ticketID)
  {
    var l1, s := Go(labels, g1, t, CallOk), Run(labels + g1);
    GapAndStep(labels, g1, t, k, Some(e), Polling, CallOk);
    ReadsMatch(Run(labels), s, Run(l1), t, k, e);
    PushEnds(l1, t, k, Some(e), ForEnqueue(e), s.core.tickets[e.ticketID], g2, g3, g4);
  }

  /** A poll that reads a ticket without a match says nothing and polls again while the ticket is
      queued; once it is cancelled, the poller clears the pending ticket and ends with that status. */
  lemma PollSeesNoMatch(labels: seq<Label>, t: Tid, k: nat, e: Enqueue,
                        g1: seq<Label>, g2: seq<Label>, g3: seq<Label>)
    requires Stands(Run(labels), t, k, Some(e), Polling)
    requires Others(g1, t) && Others(g2, t) && Others(g3, t)
    requires var core := Run(labels + g1).core;
             e.ticketID in core.tickets && core.tickets[e.ticketID].matchID == None
    ensures var l1 := Go(labels, g1, t, CallOk);
            var l2 := Go(l1, g2, t, Proceed);
            var l3 := Go(l2, g3, t, WriteOk);
            if Run(labels + g1).core.tickets[e.ticketID].status == M.Queued
            then Stands(Run(l1), t, k, Some(e), Polling) && Run(l1).sent == Run(labels + g1).sent
            else
              && k in Run(l2).sessions && Run(l2).sessions[k].pending == None
              && Stands(Run(l3), t, k, Some(e), Stopped)
              && Says(Run(l3), t, k, ForEnqueue(e), Status(e.requestID, e.ticketID, CalledOff, None, None))
  {
    var l1 := Go(labels, g1, t, CallOk);
    var l2 := Go(l1, g2, t, Proceed);
    var l3 := Go(l2, g3, t, WriteOk);
    var ticket := Run(labels + g1).core.tickets[e.ticketID];
    GapAndStep(labels, g1, t, k, Some(e), Polling, CallOk);
    ReadsNoMatch(Run(labels), Run(labels + g1), Run(l1), t, k, e);
    if ticket.status != M.Queued {
      var r := Status(e.requestID, e.ticketID, CalledOff, None, None);
      GapAndStep(l1, g2, t, k, Some(e), ClearingPolled(ticket), Proceed);
      ClearsPolled(Run(l1), Run(l1 + g2), Run(l2), t, k, e, ticket);
      GapAndStep(l2, g3, t, k, Some(e), WritingLast(r), WriteOk);
      WritesLast(Run(l2), Run(l2 + g3), Run(l3), t, k, e, r);
    }
  }

  lemma TimesOut(a: State, s: State, b: State, t: Tid, k: nat, e: Enqueue)
    requires Goes(a, s, b, t, k, Some(e), Polling, TimerFires)
    ensures Stands(b, t, k, Some(e), WritingLast(Status(e.requestID, e.ticketID, StillWaiting, None, None)))
  {}

  /** When its time is over a poller says that the ticket still waits, and ends. */
  lemma PollTimesOut(labels: seq<Label>, t: Tid, k: nat, e: Enqueue, g1: seq<Label>, g2: seq<Label>)
    requires Stands(Run(labels), t, k, Some(e), Polling) && Others(g1, t) && Others(g2, t)
    ensures var s := Run(Go(Go(labels, g1, t, TimerFires), g2, t, WriteOk));
            && Stands(s, t, k, Some(e), Stopped)
            && Says(s, t, k, ForEnqueue(e), Status(e.requestID, e.ticketID, StillWaiting, None, None))
  {
    var l1 := Go(labels, g1, t, TimerFires);
    var r := Status(e.requestID, e.ticketID, StillWaiting, None, None);
    GapAndStep(labels, g1, t, k, Some(e), Polling, TimerFires);
    TimesOut(Run(labels), Run(labels + g1), Run(l1), t, k, e);
    GapAndStep(l1, g2, t, k, Some(e), WritingLast(r), WriteOk);
    WritesLast(Run(l1), Run(l1 + g2), Run(Go(l1, g2, t, WriteOk)), t, k, e, r);
  }

  lemma PollCallFails(a: State, s: State, b: State, t: Tid, k: nat, e: Enqueue)
    requires Goes(a, s, b, t, k, Some(e), Polling, CallFails)
    ensures Stands(b, t, k, Some(e), WritingPollError)
  {}

  lemma WritesPollError(a: State, s: State, b: State, t: Tid, k: nat, e: Enqueue)
    requires Goes(a, s, b, t, k, Some(e), WritingPollError, WriteOk)
    ensures Stands(b, t, k, Some(e), Polling) && Says(b, t, k, ForEnqueue(e), Error(e.requestID))
  {}

  /** A poll that fails is reported as an error, and polling goes on. */
  lemma PollReportsFailure(labels: seq<Label>, t: Tid, k: nat, e: Enqueue, g1: seq<Label>, g2: seq<Label>)
    requires Stands(Run(labels), t, k, Some(e), Polling) && Others(g1, t) && Others(g2, t)
    ensures var s := Run(Go(Go(labels, g1, t, CallFails), g2, t, WriteOk));
            Stands(s, t, k, Some(e), Polling) && Says(s, t, k, ForEnqueue(e), Error(e.requestID))
  {
    var l1 := Go(labels, g1, t, CallFails);
    GapAndStep(labels, g1, t, k, Some(e), Polling, CallFails);
    PollCallFails(Run(labels), Run(labels + g1), Run(l1), t, k, e);
    GapAndStep(l1, g2, t, k, Some(e), WritingPollError, WriteOk);
    WritesPollError(Run(l1), Run(l1 + g2), Run(Go(l1, g2, t, WriteOk)), t, k, e);
  }

  lemma SeesContext(a: State, s: State, b: State, t: Tid, k: nat, e: Enqueue)
    requires Goes(a, s, b, t, k, Some(e), Polling, ContextDone)
    ensures Stands(b, t, k, Some(e), if s.sessions[k].open then Polling else Stopped) && b.sent == s.sent
  {}

  /** A poller ends silently when, and only when, the handler of its session has ended. */
  lemma PollEndsWithSession(labels: seq<Label>, t: Tid, k: nat, e: Enqueue, gap: seq<Label>)
    requires Stands(Run(labels), t, k, Some(e), Polling) && Others(gap, t)
    ensures var s, s' := Run(labels + gap), Run(Go(labels, gap, t, ContextDone));
            && k in s.sessions && s'.sent == s.sent
            && Stands(s', t, k, Some(e), if s.sessions[k].open then Polling else Stopped)
  {
    GapAndStep(labels, gap, t, k, Some(e), Polling, ContextDone);
    SeesContext(Run(labels), Run(labels + gap), Run(Go(labels, gap, t, ContextDone)), t, k, e);
  }

  // ---------------------------------------------------------------- the handler's steps

  /** The request is received now. */
  function Hear(labels: seq<Label>, k: nat, r: Request): seq<Label> {
    labels + [Act(HandlerOf(k), Receive(r))]
  }

  /** The handler of session `k` waits for a request. */
  predicate Listens(s: State, k: nat) {
    Stands(s, HandlerOf(k), k, None, Reading)
  }

  /** What the request finds, and where the handler goes with it. */
  ghost predicate Hears(s: State, b: State, k: nat, r: Request) {
    && Listens(s, k)
    && b.core == s.core && b.sent == s.sent
    && Stands(b, HandlerOf(k), k, None, Received(s.sessions[k], r).1)
    && b.sessions[k] == Received(s.sessions[k], r).0.(
         heard := s.sessions[k].heard + [Receipt(r, s.sessions[k].playerID, s.sessions[k].pending)])
  }

  lemma HearsRequest(labels: seq<Label>, k: nat, r: Request)
    requires Listens(Run(labels), k)
    ensures Hears(Run(labels), Run(Hear(labels, k, r)), k, r)
  {
    var s, t := Run(labels), HandlerOf(k);
    RunKeeps(labels);
    assert ThreadInv(s, t);
    PollerIsNew(s);
    StepTakes(s, t, k, None, Reading, Receive(r));
    RunNext(labels, Act(t, Receive(r)));
  }

  lemma WritesReply(a: State, s: State, b: State, k: nat, r: Response)
    requires Goes(a, s, b, HandlerOf(k), k, None, Writing(r), WriteOk)
    ensures Listens(b, k) && b.core == s.core
    ensures Says(b, HandlerOf(k), k, ForRequest(|a.sessions[k].heard|, r.requestID), r)
  {}

  /** A call that fails leads to an error. */
  lemma CallFailing(a: State, s: State, b: State, k: nat, pc: PC)
    requires pc.Creating? || pc.Cancelling? || pc.GettingStatus?
    requires Goes(a, s, b, HandlerOf(k), k, None, pc, CallFails)
    ensures Stands(b, HandlerOf(k), k, None, Writing(Error(pc.requestID)))
    ensures b.core == s.core && b.sessions[k] == s.sessions[k] && b.sent == s.sent
  {}

  lemma CancelCall(a: State, s: State, b: State, k: nat, id: string, ticket: nat)
    requires Goes(a, s, b, HandlerOf(k), k, None, Cancelling(id, ticket), CallOk) && ticket in s.core.tickets
    ensures Stands(b, HandlerOf(k), k, None, CancelReply(id, ticket))
    ensures b.core == M.Dropped(s.core, ticket)
  {}

  lemma CancelRead(a: State, s: State, b: State, k: nat, id: string, ticket: nat)
    requires Goes(a, s, b, HandlerOf(k), k, None, CancelReply(id, ticket), Proceed)
    ensures ticket in s.core.tickets
    ensures Stands(b, HandlerOf(k), k, None, ClearingCancelled(id, s.core.tickets[ticket]))
    ensures s.core.tickets[ticket].ticketID == ticket && s.core.tickets[ticket].status == M.Cancelled
  {
    ReadTicket(s.core, ticket);
  }

  lemma CancelClears(a: State, s: State, b: State, k: nat, id: string, t: M.Ticket)
    requires Goes(a, s, b, HandlerOf(k), k, None, ClearingCancelled(id, t), Proceed) && t.status == M.Cancelled
    ensures Stands(b, HandlerOf(k), k, None, Writing(Cancelled(id, t.ticketID, CalledOff)))
    ensures b.sessions[k].pending == None
  {}

  lemma StatusCall(a: State, s: State, b: State, k: nat, id: string, ticket: nat)
    requires Goes(a, s, b, HandlerOf(k), k, None, GettingStatus(id, ticket), CallOk) && ticket in s.core.tickets
    ensures var t, n := s.core.tickets[ticket], |a.sessions[k].heard|;
            && t.ticketID == ticket
            && Stands(b, HandlerOf(k), k, None,
                      if t.matchID.Some? then GettingResult(ForRequest(n, id), t)
                      else Writing(Status(id, ticket, if t.status == M.Queued then InQueue else CalledOff, None, None)))
  {
    ReadTicket(s.core, ticket);
    assert M.TicketOk(s.core, ticket);
  }

  lemma CreateCall(a: State, s: State, b: State, k: nat, id: string, player: string, payload: M.Payload)
    requires Goes(a, s, b, HandlerOf(k), k, None, Creating(id, player, payload), CallOk)
    ensures var n := s.core.nextTicket;
            && M.Acceptable(payload) && n !in s.core.tickets
            && b.core == M.Created(s.core, payload).0
            && Stands(b, HandlerOf(k), k, None, CreateReply(Enqueue(|a.sessions[k].heard|, id, player, n)))
  {
    L.CreatedKeys(s.core, payload);
  }

  lemma CreateRead(a: State, s: State, b: State, k: nat, e: Enqueue)
    requires Goes(a, s, b, HandlerOf(k), k, None, CreateReply(e), Proceed)
    ensures e.ticketID in s.core.tickets && s.core.tickets[e.ticketID].ticketID == e.ticketID
    ensures Stands(b, HandlerOf(k), k, None, SettingPending(e, s.core.tickets[e.ticketID]))
  {
    ReadTicket(s.core, e.ticketID);
  }

  lemma SetsPending(a: State, s: State, b: State, k: nat, e: Enqueue, t: M.Ticket)
    requires Goes(a, s, b, HandlerOf(k), k, None, SettingPending(e, t), Proceed)
    ensures b.sessions[k].pending == Some(e.ticketID)
    ensures t.matchID.Some? ==> Stands(b, HandlerOf(k), k, None, GettingResult(ForEnqueue(e), t))
    ensures t.matchID == None ==> Stands(b, HandlerOf(k), k, None, WritingQueued(e, t))
  {}

  lemma WritesQueued(a: State, s: State, b: State, k: nat, e: Enqueue, t: M.Ticket)
    requires Goes(a, s, b, HandlerOf(k), k, None, WritingQueued(e, t), WriteOk)
    ensures Stands(b, HandlerOf(k), k, None, Spawning(e))
    ensures Says(b, HandlerOf(k), k, ForEnqueue(e), Queued(e.requestID, e.playerID, e.ticketID, StandingOf(t.status)))
  {}

  lemma Spawns(a: State, s: State, b: State, k: nat, e: Enqueue)
    requires Goes(a, s, b, HandlerOf(k), k, None, Spawning(e), Proceed)
    ensures Listens(b, k) && b.sent == s.sent
    ensures exists p :: p !in s.threads && p in b.threads && b.threads[p] == Thread(k, Some(e), Polling)
  {}

  lemma FailedReply(a: State, s: State, b: State, k: nat, e: Enqueue)
    requires Goes(a, s, b, HandlerOf(k), k, None, Failing(e), WriteOk)
    ensures Listens(b, k) && Says(b, HandlerOf(k), k, ForEnqueue(e), Error(e.requestID))
  {}

  lemma HearsOnlyReading(core: M.State, s: Session, th: Thread, choice: Choice, tally: Tally)
    requires !th.pc.Reading?
    ensures ThreadStep(core, s, th, choice, tally).session.heard == s.heard
  {}

  /** While a handler works on a request it hears no other. */
  lemma HeardStays(a: State, s: State, b: State, k: nat, pc: PC, choice: Choice)
    requires Goes(a, s, b, HandlerOf(k), k, None, pc, choice) && !pc.Reading?
    ensures k in a.sessions && b.sessions[k].heard == a.sessions[k].heard
  {
    HearsOnlyReading(s.core, s.sessions[k], Thread(k, None, pc), choice, s.tally);
  }

  /** A gap and a step of the handler of session `k`, at work on request number `n`. */
  lemma Works(labels: seq<Label>, gap: seq<Label>, k: nat, n: nat, pc: PC, choice: Choice)
    requires Stands(Run(labels), HandlerOf(k), k, None, pc) && !pc.Reading? && Others(gap, HandlerOf(k))
    requires |Run(labels).sessions[k].heard| == n
    ensures var b := Run(Go(labels, gap, HandlerOf(k), choice));
            && Goes(Run(labels), Run(labels + gap), b, HandlerOf(k), k, None, pc, choice)
            && k in b.sessions && |b.sessions[k].heard| == n
  {
    GapAndStep(labels, gap, HandlerOf(k), k, None, pc, choice);
    HeardStays(Run(labels), Run(labels + gap), Run(Go(labels, gap, HandlerOf(k), choice)), k, pc, choice);
  }

  // ---------------------------------------------------------------- the handler

  /** Which request of the session the next one is. */
  function Number(s: State, k: nat): nat
    requires k in s.sessions
  {
    |s.sessions[k].heard| + 1
  }

  /** The requests that are refused at once. */
  predicate RefusedAtOnce(s: Session, r: Request) {
    match r
    case Auth(_, player) => player == ""
    case EnqueueMatch(_, gate, _, _, _) => s.playerID == None || gate.Banned?
    case CancelMatch(_, ticket) => s.playerID == None || (ticket == None && s.pending == None)
    case MatchStatus(_, ticket) => s.playerID == None || (ticket == None && s.pending == None)
    case Ping(_) => false
    case Refused(_) => true
  }

  /** The requests that are answered at once with a notice. */
  predicate NoticedAtOnce(s: Session, r: Request) {
    match r
    case Auth(_, player) => player != ""
    case EnqueueMatch(_, gate, _, _, _) => s.playerID.Some? && gate.Maintenance?
    case Ping(_) => true
    case _ => false
  }

  lemma AtOnce(s: Session, r: Request)
    requires RefusedAtOnce(s, r) || NoticedAtOnce(s, r)
    ensures Received(s, r)
         == (s.(playerID := if r.Auth? && r.playerID != "" then Some(r.playerID) else s.playerID),
             Writing(if RefusedAtOnce(s, r) then Error(r.requestID) else Notice(r.requestID)))
  {}

  /** A request without the player, ticket or permission it needs is answered with one error, and
      authentication, pings and enqueues during maintenance with one notice. Only authentication changes
      the session, and only its player. */
  lemma AnsweredAtOnce(labels: seq<Label>, k: nat, r: Request, gap: seq<Label>)
    requires Listens(Run(labels), k) && Others(gap, HandlerOf(k))
    requires RefusedAtOnce(Run(labels).sessions[k], r) || NoticedAtOnce(Run(labels).sessions[k], r)
    ensures var s, l1 := Run(labels), Hear(labels, k, r);
            var s1, s2 := Run(l1), Run(Go(l1, gap, HandlerOf(k), WriteOk));
            && k in s1.sessions && s1.core == s.core
            && s1.sessions[k].pending == s.sessions[k].pending
            && s1.sessions[k].playerID == (if r.Auth? && r.playerID != "" then Some(r.playerID)
                                           else s.sessions[k].playerID)
            && s2.core == Run(l1 + gap).core
            && Listens(s2, k)
            && Says(s2, HandlerOf(k), k, ForRequest(Number(s, k), r.requestID),
                    if RefusedAtOnce(s.sessions[k], r) then Error(r.requestID) else Notice(r.requestID))
  {
    var s, l1 := Run(labels), Hear(labels, k, r);
    var reply := if RefusedAtOnce(s.sessions[k], r) then Error(r.requestID) else Notice(r.requestID);
    HearsRequest(labels, k, r);
    AtOnce(s.sessions[k], r);
    Works(l1, gap, k, Number(s, k), Writing(reply), WriteOk);
    WritesReply(Run(l1), Run(l1 + gap), Run(Go(l1, gap, HandlerOf(k), WriteOk)), k, reply);
  }

  /** The ticket that a cancellation or status request is about, when it is received. */
  function Meant(s: Session, named: Option<nat>): Option<nat> {
    if named.Some? then named else s.pending
  }

  /** The requests that need a call to the matchmaker. */
  predicate NeedsCall(s: Session, r: Request) {
    match r
    case EnqueueMatch(_, gate, _, _, _) => s.playerID.Some? && gate.Admitted?
    case CancelMatch(_, named) => s.playerID.Some? && Meant(s, named).Some?
    case MatchStatus(_, named) => s.playerID.Some? && Meant(s, named).Some?
    case _ => false
  }

  lemma Calling(s: Session, r: Request)
    requires NeedsCall(s, r)
    ensures Received(s, r).0 == s
    ensures match r
            case EnqueueMatch(id, _, score, mode, wait) =>
              Received(s, r).1 == Creating(id, s.playerID.value,
                M.Body(Some(M.Text(s.playerID.value)), Some(M.Number(score as real)),
                       Some(M.Text(mode)), Some(M.Number(wait as real))))
            case CancelMatch(id, named) => Received(s, r).1 == Cancelling(id, Meant(s, named).value)
            case MatchStatus(id, named) => Received(s, r).1 == GettingStatus(id, Meant(s, named).value)
            case _ => false
  {}

  /** A call that fails is answered with one error, and changes nothing. */
  lemma CallFailed(labels: seq<Label>, k: nat, r: Request, g1: seq<Label>, g2: seq<Label>)
    requires Listens(Run(labels), k) && NeedsCall(Run(labels).sessions[k], r)
    requires Others(g1, HandlerOf(k)) && Others(g2, HandlerOf(k))
    ensures var t, l1 := HandlerOf(k), Hear(labels, k, r);
            var l2 := Go(l1, g1, t, CallFails);
            var l3 := Go(l2, g2, t, WriteOk);
            && Run(l2).core == Run(l1 + g1).core && Run(l3).core == Run(l2 + g2).core
            && k in Run(l1 + g1).sessions && k in Run(l2).sessions
            && Run(l2).sessions[k] == Run(l1 + g1).sessions[k]
            && Listens(Run(l3), k)
            && Says(Run(l3), t, k, ForRequest(Number(Run(labels), k), r.requestID), Error(r.requestID))
  {
    var t, l1 := HandlerOf(k), Hear(labels, k, r);
    var l2, n := Go(l1, g1, t, CallFails), Number(Run(labels), k);
    var pc := Received(Run(labels).sessions[k], r).1;
    HearsRequest(labels, k, r);
    Calling(Run(labels).sessions[k], r);
    Works(l1, g1, k, n, pc, CallFails);
    CallFailing(Run(l1), Run(l1 + g1), Run(l2), k, pc);
    Works(l2, g2, k, n, Writing(Error(r.requestID)), WriteOk);
    WritesReply(Run(l2), Run(l2 + g2), Run(Go(l2, g2, t, WriteOk)), k, Error(r.requestID));
  }

  /** A cancellation that goes through cancels the named ticket, or the pending one if none is named,
      clears the pending ticket, and is confirmed for that ticket. */
  lemma CancelGoesThrough(labels: seq<Label>, k: nat, id: string, named: Option<nat>, ticket: nat,
                          g1: seq<Label>, g2: seq<Label>, g3: seq<Label>, g4: seq<Label>)
    requires Listens(Run(labels), k) && Run(labels).sessions[k].playerID.Some?
    requires if named.Some? then ticket == named.value else Run(labels).sessions[k].pending == Some(ticket)
    requires var t := HandlerOf(k); Others(g1, t) && Others(g2, t) && Others(g3, t) && Others(g4, t)
    requires ticket in Run(Hear(labels, k, CancelMatch(id, named)) + g1).core.tickets
    ensures var t, l1 := HandlerOf(k), Hear(labels, k, CancelMatch(id, named));
            var l2 := Go(l1, g1, t, CallOk);
            var l4 := Go(Go(l2, g2, t, Proceed), g3, t, Proceed);
            var l5 := Go(l4, g4, t, WriteOk);
            && Run(l2).core == M.Dropped(Run(l1 + g1).core, ticket)
            && k in Run(l4).sessions && Run(l4).sessions[k].pending == None
            && Listens(Run(l5), k)
            && Says(Run(l5), t, k, ForRequest(Number(Run(labels), k), id), Cancelled(id, ticket, CalledOff))
  {
    var t, l1, n := HandlerOf(k), Hear(labels, k, CancelMatch(id, named)), Number(Run(labels), k);
    var l2 := Go(l1, g1, t, CallOk);
    var l3 := Go(l2, g2, t, Proceed);
    var l4 := Go(l3, g3, t, Proceed);
    HearsRequest(labels, k, CancelMatch(id, named));
    Calling(Run(labels).sessions[k], CancelMatch(id, named));
    Works(l1, g1, k, n, Cancelling(id, ticket), CallOk);
    CancelCall(Run(l1), Run(l1 + g1), Run(l2), k, id, ticket);
    Works(l2, g2, k, n, CancelReply(id, ticket), Proceed);
    CancelRead(Run(l2), Run(l2 + g2), Run(l3), k, id, ticket);
    var read := Run(l2 + g2).core.tickets[ticket];
    Works(l3, g3, k, n, ClearingCancelled(id, read), Proceed);
    CancelClears(Run(l3), Run(l3 + g3), Run(l4), k, id, read);
    Works(l4, g4, k, n, Writing(Cancelled(id, ticket, CalledOff)), WriteOk);
    WritesReply(Run(l4), Run(l4 + g4), Run(Go(l4, g4, t, WriteOk)), k, Cancelled(id, ticket, CalledOff));
  }

  /** A status request reads the named ticket, or the pending one if none is named. With a match, the
      match is pushed; otherwise the reply says whether the ticket is queued or cancelled. */
  lemma StatusGoesThrough(labels: seq<Label>, k: nat, id: string, named: Option<nat>, ticket: nat,
                          g1: seq<Label>, g2: seq<Label>, g3: seq<Label>, g4: seq<Label>)
    requires Listens(Run(labels), k) && Run(labels).sessions[k].playerID.Some?
    requires if named.Some? then ticket == named.value else Run(labels).sessions[k].pending == Some(ticket)
    requires var t := HandlerOf(k); Others(g1, t) && Others(g2, t) && Others(g3, t) && Others(g4, t)
    requires ticket in Run(Hear(labels, k, MatchStatus(id, named)) + g1).core.tickets
    ensures var t, l1 := HandlerOf(k), Hear(labels, k, MatchStatus(id, named));
            var read := Run(l1 + g1).core.tickets[ticket];
            var l2 := Go(l1, g1, t, CallOk);
            if read.matchID.Some?
            then
              var l4 := Go(Go(l2, g2, t, CallOk), g3, t, Proceed);
              var l5 := Go(l4, g4, t, WriteOk);
              && k in Run(l4).sessions && Run(l4).sessions[k].pending == None
              && Listens(Run(l5), k)
              && PushedMatch(Run(l5), t, k, ForRequest(Number(Run(labels), k), id), ticket)
            else
              var l3 := Go(l2, g2, t, WriteOk);
              && Listens(Run(l3), k)
              && Says(Run(l3), t, k, ForRequest(Number(Run(labels), k), id),
                      Status(id, ticket, if read.status == M.Queued then InQueue else CalledOff, None, None))
  {
    var t, l1, n := HandlerOf(k), Hear(labels, k, MatchStatus(id, named)), Number(Run(labels), k);
    var l2 := Go(l1, g1, t, CallOk);
    var read := Run(l1 + g1).core.tickets[ticket];
    HearsRequest(labels, k, MatchStatus(id, named));
    Calling(Run(labels).sessions[k], MatchStatus(id, named));
    Works(l1, g1, k, n, GettingStatus(id, ticket), CallOk);
    StatusCall(Run(l1), Run(l1 + g1), Run(l2), k, id, ticket);
    if read.matchID.Some? {
      PushEnds(l2, t, k, None, ForRequest(n, id), read, g2, g3, g4);
    } else {
      var r := Status(id, ticket, if read.status == M.Queued then InQueue else CalledOff, None, None);
      Works(l2, g2, k, n, Writing(r), WriteOk);
      WritesReply(Run(l2), Run(l2 + g2), Run(Go(l2, g2, t, WriteOk)), k, r);
    }
  }

  /** An enqueue up to the update of the pending ticket. */
  function Enqueued(
      labels: seq<Label>, k: nat, r: Request, g1: seq<Label>, g2: seq<Label>, g3: seq<Label>): seq<Label>
  {
    var t := HandlerOf(k);
    Go(Go(Go(Hear(labels, k, r), g1, t, CallOk), g2, t, Proceed), g3, t, Proceed)
  }

  /** The run just before the handler reads the reply to its creation. */
  function BeforeRead(labels: seq<Label>, k: nat, r: Request, g1: seq<Label>, g2: seq<Label>): seq<Label> {
    Go(Hear(labels, k, r), g1, HandlerOf(k), CallOk) + g2
  }

  lemma MadeAsAsked(labels: seq<Label>, k: nat, e: Enqueue, pc: PC)
    requires Stands(Run(labels), HandlerOf(k), k, None, pc)
    requires (pc.WritingQueued? && pc.enqueue == e) || (pc.GettingResult? && pc.cause == ForEnqueue(e))
    ensures EnqueueOf(Run(labels).core, HeardBy(Run(labels), k), e)
  {
    RunOnTasks(labels);
    assert TaskOk(Run(labels), HandlerOf(k));
  }

  /** An admitted enqueue creates a new ticket for the session's player, with the score and mode of the
      request, and makes it the pending one. */
  lemma EnqueueCreates(labels: seq<Label>, k: nat, r: Request, e: Enqueue,
                       g1: seq<Label>, g2: seq<Label>, g3: seq<Label>)
    requires Listens(Run(labels), k) && r.EnqueueMatch? && r.gate.Admitted?
    requires var s, core := Run(labels), Run(Hear(labels, k, r) + g1).core;
             s.sessions[k].playerID == Some(e.playerID)
             && e == Enqueue(Number(s, k), r.requestID, e.playerID, core.nextTicket)
    requires Others(g1, HandlerOf(k)) && Others(g2, HandlerOf(k)) && Others(g3, HandlerOf(k))
    ensures var core, core' := Run(Hear(labels, k, r) + g1).core, Run(BeforeRead(labels, k, r, g1, g2)).core;
            var s := Run(Enqueued(labels, k, r, g1, g2, g3));
            && e.ticketID !in core.tickets && e.ticketID in core'.tickets
            && EnqueueOf(s.core, HeardBy(s, k), e)
            && k in s.sessions && s.sessions[k].pending == Some(e.ticketID) && |s.sessions[k].heard| == e.receipt
            && core'.tickets[e.ticketID].ticketID == e.ticketID
            && Stands(s, HandlerOf(k), k, None,
                      if core'.tickets[e.ticketID].matchID.Some?
                      then GettingResult(ForEnqueue(e), core'.tickets[e.ticketID])
                      else WritingQueued(e, core'.tickets[e.ticketID]))
  {
    var t, l1, n, p := HandlerOf(k), Hear(labels, k, r), Number(Run(labels), k), e.playerID;
    var l2 := Go(l1, g1, t, CallOk);
    var l3 := Go(l2, g2, t, Proceed);
    var l4 := Go(l3, g3, t, Proceed);
    var payload := M.Body(Some(M.Text(p)), Some(M.Number(r.mmrScore as real)),
                          Some(M.Text(r.matchMode)), Some(M.Number(r.maxWaitMS as real)));
    HearsRequest(labels, k, r);
    Calling(Run(labels).sessions[k], r);
    Works(l1, g1, k, n, Creating(r.requestID, p, payload), CallOk);
    CreateCall(Run(l1), Run(l1 + g1), Run(l2), k, r.requestID, p, payload);
    Works(l2, g2, k, n, CreateReply(e), Proceed);
    CreateRead(Run(l2), Run(l2 + g2), Run(l3), k, e);
    var ticket := Run(l2 + g2).core.tickets[e.ticketID];
    Works(l3, g3, k, n, SettingPending(e, ticket), Proceed);
    SetsPending(Run(l3), Run(l3 + g3), Run(l4), k, e, ticket);
    MadeAsAsked(l4, k, e, Run(l4).threads[t].pc);
  }

  /** Without a match by then, the enqueue is confirmed as queued and a poller starts for it. */
  lemma EnqueueQueues(labels: seq<Label>, k: nat, r: Request, e: Enqueue, g1: seq<Label>, g2: seq<Label>,
                      g3: seq<Label>, g4: seq<Label>, g5: seq<Label>)
    requires Listens(Run(labels), k) && r.EnqueueMatch? && r.gate.Admitted?
    requires var s, core := Run(labels), Run(Hear(labels, k, r) + g1).core;
             s.sessions[k].playerID == Some(e.playerID)
             && e == Enqueue(Number(s, k), r.requestID, e.playerID, core.nextTicket)
    requires Others(g1, HandlerOf(k)) && Others(g2, HandlerOf(k)) && Others(g3, HandlerOf(k))
    requires Others(g4, HandlerOf(k)) && Others(g5, HandlerOf(k))
    requires var core' := Run(BeforeRead(labels, k, r, g1, g2)).core;
             e.ticketID in core'.tickets && core'.tickets[e.ticketID].matchID == None
    ensures var t, l4 := HandlerOf(k), Enqueued(labels, k, r, g1, g2, g3);
            var l5 := Go(l4, g4, t, WriteOk);
            var l6 := Go(l5, g5, t, Proceed);
            var read := Run(BeforeRead(labels, k, r, g1, g2)).core.tickets[e.ticketID];
            && Says(Run(l5), t, k, ForEnqueue(e),
                    Queued(e.requestID, e.playerID, e.ticketID,
                           if read.status == M.Queued then InQueue else CalledOff))
            && Listens(Run(l6), k)
            && exists p :: p !in Run(l5 + g5).threads && p in Run(l6).threads
                           && Run(l6).threads[p] == Thread(k, Some(e), Polling)
  {
    var t, l4 := HandlerOf(k), Enqueued(labels, k, r, g1, g2, g3);
    var l5 := Go(l4, g4, t, WriteOk);
    var core' := Run(BeforeRead(labels, k, r, g1, g2)).core;
    var read := core'.tickets[e.ticketID];
    EnqueueCreates(labels, k, r, e, g1, g2, g3);
    RunKeeps(BeforeRead(labels, k, r, g1, g2));
    assert M.TicketOk(core', e.ticketID);
    Works(l4, g4, k, e.receipt, WritingQueued(e, read), WriteOk);
    WritesQueued(Run(l4), Run(l4 + g4), Run(l5), k, e, read);
    Works(l5, g5, k, e.receipt, Spawning(e), Proceed);
    Spawns(Run(l5), Run(l5 + g5), Run(Go(l5, g5, t, Proceed)), k, e);
  }

  /** With a match by then, the match is pushed at once and the pending ticket cleared. */
  lemma EnqueuePushes(labels: seq<Label>, k: nat, r: Request, e: Enqueue, g1: seq<Label>, g2: seq<Label>,
                      g3: seq<Label>, g4: seq<Label>, g5: seq<Label>, g6: seq<Label>)
    requires Listens(Run(labels), k) && r.EnqueueMatch? && r.gate.Admitted?
    requires var s, core := Run(labels), Run(Hear(labels, k, r) + g1).core;
             s.sessions[k].playerID == Some(e.playerID)
             && e == Enqueue(Number(s, k), r.requestID, e.playerID, core.nextTicket)
    requires Others(g1, HandlerOf(k)) && Others(g2, HandlerOf(k)) && Others(g3, HandlerOf(k))
    requires Others(g4, HandlerOf(k)) && Others(g5, HandlerOf(k)) && Others(g6, HandlerOf(k))
    requires var core' := Run(BeforeRead(labels, k, r, g1, g2)).core;
             e.ticketID in core'.tickets && core'.tickets[e.ticketID].matchID.Some?
    ensures var t, l4 := HandlerOf(k), Enqueued(labels, k, r, g1, g2, g3);
            var l6 := Go(Go(l4, g4, t, CallOk), g5, t, Proceed);
            var l7 := Go(l6, g6, t, WriteOk);
            && k in Run(l6).sessions && Run(l6).sessions[k].pending == None
            && Listens(Run(l7), k)
            && PushedMatch(Run(l7), t, k, ForEnqueue(e), e.ticketID)
  {
    EnqueueCreates(labels, k, r, e, g1, g2, g3);
    var read := Run(BeforeRead(labels, k, r, g1, g2)).core.tickets[e.ticketID];
    PushEnds(Enqueued(labels, k, r, g1, g2, g3), HandlerOf(k), k, None, ForEnqueue(e), read, g4, g5, g6);
  }

  // ---------------------------------------------------------------- what can go wrong

  /** A call that has its effect while its reply is lost, or that names an unknown ticket. */
  lemma CallUnanswered(a: State, s: State, b: State, k: nat, pc: PC, choice: Choice)
    requires Goes(a, s, b, HandlerOf(k), k, None, pc, choice)
    requires ((pc.Creating? || pc.Cancelling?) && choice.ReplyLost?)
             || ((pc.Cancelling? || pc.GettingStatus?) && pc.ticketID !in s.core.tickets && choice.CallOk?)
    ensures Stands(b, HandlerOf(k), k, None, Writing(Error(pc.requestID))) && b.sessions[k] == s.sessions[k]
    ensures pc.Creating? ==> b.core == M.Created(s.core, pc.payload).0
    ensures pc.Cancelling? ==>
              b.core == if pc.ticketID in s.core.tickets then M.Dropped(s.core, pc.ticketID) else s.core
    ensures pc.GettingStatus? ==> b.core == s.core
  {}

  /** A request whose call has its effect while the reply is lost, or whose ticket does not exist, is
      answered with one error, and the pending ticket stays. */
  lemma CallGoesUnanswered(labels: seq<Label>, k: nat, r: Request, choice: Choice, g1: seq<Label>, g2: seq<Label>)
    requires Listens(Run(labels), k) && NeedsCall(Run(labels).sessions[k], r)
    requires Others(g1, HandlerOf(k)) && Others(g2, HandlerOf(k))
    requires (choice.ReplyLost? && !r.MatchStatus?)
             || (choice.CallOk? && !r.EnqueueMatch?
                 && Meant(Run(labels).sessions[k], r.ticketID).value !in Run(Hear(labels, k, r) + g1).core.tickets)
    ensures var t, l1 := HandlerOf(k), Hear(labels, k, r);
            var l2 := Go(l1, g1, t, choice);
            var l3 := Go(l2, g2, t, WriteOk);
            && k in Run(l1 + g1).sessions && k in Run(l2).sessions
            && Run(l2).sessions[k] == Run(l1 + g1).sessions[k]
            && Listens(Run(l3), k)
            && Says(Run(l3), t, k, ForRequest(Number(Run(labels), k), r.requestID), Error(r.requestID))
  {
    var t, l1 := HandlerOf(k), Hear(labels, k, r);
    var l2, n := Go(l1, g1, t, choice), Number(Run(labels), k);
    var pc := Received(Run(labels).sessions[k], r).1;
    HearsRequest(labels, k, r);
    Calling(Run(labels).sessions[k], r);
    Works(l1, g1, k, n, pc, choice);
    CallUnanswered(Run(l1), Run(l1 + g1), Run(l2), k, pc, choice);
    Works(l2, g2, k, n, Writing(Error(r.requestID)), WriteOk);
    WritesReply(Run(l2), Run(l2 + g2), Run(Go(l2, g2, t, WriteOk)), k, Error(r.requestID));
  }

  lemma FetchFails(a: State, s: State, b: State, t: Tid, k: nat, polls: Option<Enqueue>, c: Cause, ticket: M.Ticket)
    requires Goes(a, s, b, t, k, polls, GettingResult(c, ticket), CallFails)
    ensures b.sent == s.sent && b.sessions[k] == s.sessions[k]
    ensures polls.Some? ==> Stands(b, t, k, polls, Stopped)
    ensures polls == None && c.ForEnqueue? ==> Stands(b, t, k, polls, Failing(c.enqueue))
    ensures polls == None && !c.ForEnqueue? ==> Stands(b, t, k, polls, Writing(Error(RequestOf(c))))
  {}

  /** A push whose fetch fails keeps the pending ticket. A poller then ends silently; a handler answers
      its request with one error. */
  lemma PushFails(labels: seq<Label>, t: Tid, k: nat, polls: Option<Enqueue>, c: Cause, ticket: M.Ticket,
                  g1: seq<Label>, g2: seq<Label>)
    requires Stands(Run(labels), t, k, polls, GettingResult(c, ticket))
    requires Others(g1, t) && Others(g2, t)
    ensures var l1 := Go(labels, g1, t, CallFails);
            var l2 := Go(l1, g2, t, WriteOk);
            && k in Run(labels + g1).sessions && k in Run(l1).sessions
            && Run(l1).sent == Run(labels + g1).sent
            && Run(l1).sessions[k] == Run(labels + g1).sessions[k]
            && if polls.Some? then Stands(Run(l1), t, k, polls, Stopped)
               else
                 && Stands(Run(l2), t, k, polls, Reading)
                 && exists cause :: Says(Run(l2), t, k, cause, Error(RequestOf(c)))
                                    && (c.ForEnqueue? ==> cause == c) && cause.ForEnqueue? == c.ForEnqueue?
  {
    var l1 := Go(labels, g1, t, CallFails);
    GapAndStep(labels, g1, t, k, polls, GettingResult(c, ticket), CallFails);
    FetchFails(Run(labels), Run(labels + g1), Run(l1), t, k, polls, c, ticket);
    if polls == None {
      RunKeeps(labels);
      assert ThreadInv(Run(labels), t);
      if c.ForEnqueue? {
        GapAndStep(l1, g2, t, k, None, Failing(c.enqueue), WriteOk);
        FailedReply(Run(l1), Run(l1 + g2), Run(Go(l1, g2, t, WriteOk)), k, c.enqueue);
      } else {
        GapAndStep(l1, g2, t, k, None, Writing(Error(RequestOf(c))), WriteOk);
        WritesReply(Run(l1), Run(l1 + g2), Run(Go(l1, g2, t, WriteOk)), k, Error(RequestOf(c)));
      }
    }
  }

  lemma QueuedFails(a: State, s: State, b: State, k: nat, e: Enqueue, ticket: M.Ticket)
    requires Goes(a, s, b, HandlerOf(k), k, None, WritingQueued(e, ticket), WriteFails)
    ensures Stands(b, HandlerOf(k), k, None, Failing(e)) && b.sent == s.sent
  {}

  /** An enqueue whose queued reply cannot be written gets an error instead, and no poller. */
  lemma QueuedReplyFails(labels: seq<Label>, k: nat, e: Enqueue, ticket: M.Ticket, g1: seq<Label>, g2: seq<Label>)
    requires Stands(Run(labels), HandlerOf(k), k, None, WritingQueued(e, ticket))
    requires Others(g1, HandlerOf(k)) && Others(g2, HandlerOf(k))
    ensures var l1 := Go(labels, g1, HandlerOf(k), WriteFails);
            var s := Run(Go(l1, g2, HandlerOf(k), WriteOk));
            && Run(l1).sent == Run(labels + g1).sent
            && Listens(s, k) && Says(s, HandlerOf(k), k, ForEnqueue(e), Error(e.requestID))
  {
    var l1 := Go(labels, g1, HandlerOf(k), WriteFails);
    GapAndStep(labels, g1, HandlerOf(k), k, None, WritingQueued(e, ticket), WriteFails);
    QueuedFails(Run(labels), Run(labels + g1), Run(l1), k, e, ticket);
    GapAndStep(l1, g2, HandlerOf(k), k, None, Failing(e), WriteOk);
    FailedReply(Run(l1), Run(l1 + g2), Run(Go(l1, g2, HandlerOf(k), WriteOk)), k, e);
  }

  lemma Quits(a: State, s: State, b: State, k: nat)
    requires Goes(a, s, b, HandlerOf(k), k, None, Reading, HangUp)
    ensures Stands(b, HandlerOf(k), k, None, Stopped) && !b.sessions[k].open && b.sent == s.sent
  {}

  lemma ReadingFails(a: State, s: State, b: State, k: nat)
    requires Goes(a, s, b, HandlerOf(k), k, None, Reading, ReadFails)
    ensures Stands(b, HandlerOf(k), k, None, Leaving) && b.sent == s.sent
  {}

  lemma SaysGoodbye(a: State, s: State, b: State, k: nat)
    requires Goes(a, s, b, HandlerOf(k), k, None, Leaving, WriteOk)
    ensures Stands(b, HandlerOf(k), k, None, Stopped) && !b.sessions[k].open
    ensures Says(b, HandlerOf(k), k, Unasked, Error(""))
  {}

  /** A handler ends silently when its client hangs up, and with one error without a request when
      reading fails otherwise; either way its session is closed, which ends its pollers. */
  lemma HandlerEnds(labels: seq<Label>, k: nat, g1: seq<Label>, g2: seq<Label>)
    requires Listens(Run(labels), k) && Others(g1, HandlerOf(k)) && Others(g2, HandlerOf(k))
    ensures var s := Run(Go(labels, g1, HandlerOf(k), HangUp));
            && Stands(s, HandlerOf(k), k, None, Stopped) && !s.sessions[k].open
            && s.sent == Run(labels + g1).sent
    ensures var s := Run(Go(Go(labels, g1, HandlerOf(k), ReadFails), g2, HandlerOf(k), WriteOk));
            && Stands(s, HandlerOf(k), k, None, Stopped) && !s.sessions[k].open
            && Says(s, HandlerOf(k), k, Unasked, Error(""))
  {
    var t, l1 := HandlerOf(k), Go(labels, g1, HandlerOf(k), ReadFails);
    GapAndStep(labels, g1, t, k, None, Reading, HangUp);
    Quits(Run(labels), Run(labels + g1), Run(Go(labels, g1, t, HangUp)), k);
    GapAndStep(labels, g1, t, k, None, Reading, ReadFails);
    ReadingFails(Run(labels), Run(labels + g1), Run(l1), k);
    GapAndStep(l1, g2, t, k, None, Leaving, WriteOk);
    SaysGoodbye(Run(l1), Run(l1 + g2), Run(Go(l1, g2, t, WriteOk)), k);
  }
}
