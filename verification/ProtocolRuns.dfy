// What every interleaving of handlers, pollers and other users of the matchmaker keeps.

module ProtocolRuns {
  import opened Wrappers
  import opened Protocol
  import opened ProtocolLaws
  import M = Matchmaker
  import L = MatchmakerLaws

  // ---------------------------------------------------------------- the invariant

  predicate ThreadInv(s: State, t: Tid) {
    && t in s.threads
    && s.threads[t].session in s.sessions
    && (t.HandlerOf? ==> t.session == s.threads[t].session && s.threads[t].polls == None)
    && (t.PollerNo? ==> t.n < s.nextPoller && s.threads[t].polls.Some?)
    && ThreadOk(s.core, s.threads[t].polls, s.threads[t].pc)
  }

  predicate SessionInv(s: State, k: nat) {
    k in s.sessions && HandlerOf(k) in s.threads && PendingOk(s.sessions[k], s.threads[HandlerOf(k)].pc)
  }

  /** A message stays correct, and a poller that said a last word is stopped. */
  predicate SentInv(s: State, m: Sent) {
    && m.thread in s.threads && m.session == s.threads[m.thread].session
    && SayOk(s.core, s.threads[m.thread].polls, m.message, s.threads[m.thread].pc)
  }

  /** A poller's last word is the last of its messages. */
  predicate LastWords(sent: seq<Sent>) {
    forall i, j :: 0 <= i < j < |sent| && sent[i].thread == sent[j].thread && sent[i].thread.PollerNo? ==>
      sent[i].message.response.Error?
  }

  function Flying(threads: map<Tid, Thread>): set<Tid> {
    set t | t in threads && InFlight(threads[t].pc)
  }

  function Pollers(threads: map<Tid, Thread>): set<Tid> {
    set t: Tid | t in threads && t.PollerNo?
  }

  predicate Accounted(s: State) {
    |s.core.tickets| == Total(s.tally) + |Pollers(s.threads)| + |Flying(s.threads)| + s.foreign
  }

  ghost predicate Inv(s: State) {
    && M.Inv(s.core)
    && (forall t | t in s.threads :: ThreadInv(s, t))
    && (forall k | k in s.sessions :: SessionInv(s, k))
    && (forall i | 0 <= i < |s.sent| :: SentInv(s, s.sent[i]))
    && LastWords(s.sent)
    && Accounted(s)
  }

  // ---------------------------------------------------------------- preservation by a thread's step

  /** What the local lemmas give about one step of thread `t`. */
  ghost predicate GoodStep(s: State, t: Tid, e: Effect) {
    && t in s.threads && s.threads[t].session in s.sessions
    && var th := s.threads[t];
    && EffectOk(e.core, th.polls, e) && L.Later(s.core, e.core) && M.Inv(e.core)
    && Balanced(s.core, th.pc, s.tally, e)
    && (th.polls.Some? ==> e.spawn == None)
    && SessionStep(s.sessions[th.session], th, e)
  }

  lemma ThreadStepIsGood(s: State, t: Tid, choice: Choice)
    requires Inv(s) && t in s.threads
    ensures s.threads[t].session in s.sessions
    ensures GoodStep(s, t, ThreadStep(s.core, s.sessions[s.threads[t].session], s.threads[t], choice, s.tally))
  {
    assert ThreadInv(s, t);
    var th := s.threads[t];
    var session := s.sessions[th.session];
    assert SessionInv(s, th.session);
    ThreadStepOk(s.core, session, th, choice, s.tally);
    ThreadStepBalanced(s.core, session, th, choice, s.tally);
    ThreadStepPending(s.core, session, th, choice, s.tally);
  }

  lemma AppliedOtherThread(s: State, t: Tid, e: Effect, u: Tid)
    requires GoodStep(s, t, e) && ThreadInv(s, u) && u != t && u != PollerNo(s.nextPoller)
    ensures ThreadInv(Applied(s, t, e), u)
  {
    ThreadLater(s.core, e.core, s.threads[u].polls, s.threads[u].pc);
  }

  lemma AppliedThread(s: State, t: Tid, e: Effect)
    requires GoodStep(s, t, e) && ThreadInv(s, t)
    ensures ThreadInv(Applied(s, t, e), t)
  {}

  lemma AppliedPoller(s: State, t: Tid, e: Effect)
    requires GoodStep(s, t, e) && e.spawn.Some? && t != PollerNo(s.nextPoller)
    ensures ThreadInv(Applied(s, t, e), PollerNo(s.nextPoller))
  {}

  lemma AppliedThreads(s: State, t: Tid, e: Effect)
    requires Inv(s) && GoodStep(s, t, e)
    ensures forall u | u in Applied(s, t, e).threads :: ThreadInv(Applied(s, t, e), u)
    ensures PollerNo(s.nextPoller) !in s.threads
  {
    assert PollerNo(s.nextPoller) in s.threads ==> ThreadInv(s, PollerNo(s.nextPoller));
    AppliedThread(s, t, e);
    if e.spawn.Some? {
      AppliedPoller(s, t, e);
    }
    forall u | u in s.threads && u != t ensures ThreadInv(Applied(s, t, e), u) {
      AppliedOtherThread(s, t, e, u);
    }
  }

  lemma AppliedOtherSession(s: State, t: Tid, e: Effect, k: nat)
    requires GoodStep(s, t, e) && ThreadInv(s, t) && SessionInv(s, k) && s.threads[t].session != k
    ensures SessionInv(Applied(s, t, e), k)
  {}

  lemma AppliedSession(s: State, t: Tid, e: Effect, k: nat)
    requires GoodStep(s, t, e) && ThreadInv(s, t) && SessionInv(s, k) && s.threads[t].session == k
    requires ThreadInv(s, HandlerOf(k))
    ensures SessionInv(Applied(s, t, e), k)
  {}

  lemma AppliedSessions(s: State, t: Tid, e: Effect)
    requires Inv(s) && GoodStep(s, t, e)
    ensures forall k | k in Applied(s, t, e).sessions :: SessionInv(Applied(s, t, e), k)
  {
    assert ThreadInv(s, t);
    forall k | k in s.sessions ensures SessionInv(Applied(s, t, e), k) {
      assert SessionInv(s, k);
      if s.threads[t].session == k {
        assert ThreadInv(s, HandlerOf(k));
        AppliedSession(s, t, e, k);
      } else {
        AppliedOtherSession(s, t, e, k);
      }
    }
  }

  lemma SentLater(s: State, s': State, m: Sent)
    requires SentInv(s, m) && L.Later(s.core, s'.core)
    requires m.thread in s'.threads
    requires s'.threads[m.thread].session == s.threads[m.thread].session
    requires s'.threads[m.thread].polls == s.threads[m.thread].polls
    requires s.threads[m.thread].pc.Stopped? ==> s'.threads[m.thread].pc.Stopped?
    ensures SentInv(s', m)
  {
    SayLater(s.core, s'.core, s.threads[m.thread].polls, m.message, s.threads[m.thread].pc);
  }

  /** What thread `t` says, once it is sent. */
  lemma AppliedSays(s: State, t: Tid, e: Effect)
    requires GoodStep(s, t, e) && e.say.Some?
    requires e.spawn.Some? ==> t != PollerNo(s.nextPoller)
    ensures SentInv(Applied(s, t, e), Sent(t, s.threads[t].session, e.say.value))
  {}

  lemma AppliedOldSent(s: State, t: Tid, e: Effect, m: Sent)
    requires GoodStep(s, t, e) && SentInv(s, m) && PollerNo(s.nextPoller) !in s.threads
    ensures SentInv(Applied(s, t, e), m)
  {
    SentLater(s, Applied(s, t, e), m);
  }

  lemma AppliedSent(s: State, t: Tid, e: Effect)
    requires Inv(s) && GoodStep(s, t, e)
    ensures var s' := Applied(s, t, e);
            forall i | 0 <= i < |s'.sent| :: SentInv(s', s'.sent[i])
  {
    var s' := Applied(s, t, e);
    AppliedThreads(s, t, e);
    if e.say.Some? {
      AppliedSays(s, t, e);
    }
    forall i | 0 <= i < |s.sent| ensures SentInv(s', s.sent[i]) {
      AppliedOldSent(s, t, e, s.sent[i]);
    }
  }

  lemma LastWordsAppend(sent: seq<Sent>, m: Sent)
    requires LastWords(sent)
    requires forall i :: 0 <= i < |sent| && sent[i].thread == m.thread && m.thread.PollerNo? ==>
               sent[i].message.response.Error?
    ensures LastWords(sent + [m])
  {}

  lemma AppliedLastWords(s: State, t: Tid, e: Effect)
    requires Inv(s) && GoodStep(s, t, e)
    ensures LastWords(Applied(s, t, e).sent)
  {
    if e.say.Some? {
      assert ThreadInv(s, t);
      forall i | 0 <= i < |s.sent| && s.sent[i].thread == t && t.PollerNo?
        ensures s.sent[i].message.response.Error?
      {
        assert SentInv(s, s.sent[i]);
      }
      LastWordsAppend(s.sent, Sent(t, s.threads[t].session, e.say.value));
    }
  }

  lemma FlyingMoves(threads: map<Tid, Thread>, t: Tid, pc: PC)
    requires t in threads
    ensures |Flying(threads[t := threads[t].(pc := pc)])| + One(InFlight(threads[t].pc))
         == |Flying(threads)| + One(InFlight(pc))
  {
    var others := Flying(threads) - {t};
    assert Flying(threads[t := threads[t].(pc := pc)]) == if InFlight(pc) then others + {t} else others;
    assert Flying(threads) == if InFlight(threads[t].pc) then others + {t} else others;
  }

  lemma PollersStay(threads: map<Tid, Thread>, t: Tid, pc: PC)
    requires t in threads
    ensures Pollers(threads[t := threads[t].(pc := pc)]) == Pollers(threads)
  {}

  lemma SpawnCounted(s: State, session: nat, spawn: Option<Enqueue>)
    requires PollerNo(s.nextPoller) !in s.threads
    ensures |Pollers(Spawned(s, session, spawn))| == |Pollers(s.threads)| + One(spawn.Some?)
    ensures Flying(Spawned(s, session, spawn)) == Flying(s.threads)
  {
    if spawn.Some? {
      assert Pollers(Spawned(s, session, spawn)) == Pollers(s.threads) + {PollerNo(s.nextPoller)};
    }
  }

  lemma AppliedAccounted(s: State, t: Tid, e: Effect)
    requires Inv(s) && GoodStep(s, t, e)
    ensures Accounted(Applied(s, t, e))
  {
    var th := s.threads[t];
    AppliedThreads(s, t, e);
    SpawnCounted(s, th.session, e.spawn);
    FlyingMoves(Spawned(s, th.session, e.spawn), t, e.pc);
    PollersStay(Spawned(s, th.session, e.spawn), t, e.pc);
  }

  // ---------------------------------------------------------------- preservation by other steps

  /** The matchmaker moves on by itself. */
  lemma ForeignKeeps(s: State, op: M.Op)
    requires Inv(s)
    ensures Inv(Step(s, Foreign(op)))
  {
    var s' := Step(s, Foreign(op));
    M.StepInv(s.core, op);
    L.StepLater(s.core, op);
    forall t | t in s'.threads ensures ThreadInv(s', t) {
      assert ThreadInv(s, t);
      ThreadLater(s.core, s'.core, s.threads[t].polls, s.threads[t].pc);
    }
    forall k | k in s'.sessions ensures SessionInv(s', k) {
      assert SessionInv(s, k);
    }
    forall i | 0 <= i < |s'.sent| ensures SentInv(s', s'.sent[i]) {
      assert SentInv(s, s.sent[i]);
      SentLater(s, s', s.sent[i]);
    }
    ForeignGrows(s.core, op);
  }

  lemma ForeignGrows(core: M.State, op: M.Op)
    requires M.Inv(core)
    ensures |M.Next(core, op).tickets| >= |core.tickets|
  {
    L.StepCount(core, op);
  }

  lemma ConnectedThreads(s: State, k: nat)
    requires Inv(s) && k !in s.sessions
    ensures HandlerOf(k) !in s.threads
    ensures forall t | t in Connected(s, k).threads :: ThreadInv(Connected(s, k), t)
    ensures forall j | j in Connected(s, k).sessions :: SessionInv(Connected(s, k), j)
  {
    var s' := Connected(s, k);
    assert HandlerOf(k) in s.threads ==> ThreadInv(s, HandlerOf(k));
    forall t | t in s'.threads ensures ThreadInv(s', t) {
      assert t in s.threads ==> ThreadInv(s, t);
    }
    forall j | j in s'.sessions ensures SessionInv(s', j) {
      assert j in s.sessions ==> SessionInv(s, j);
    }
  }

  lemma ConnectedSent(s: State, k: nat)
    requires Inv(s) && HandlerOf(k) !in s.threads
    ensures forall i | 0 <= i < |s.sent| :: SentInv(Connected(s, k), s.sent[i])
  {
    forall i | 0 <= i < |s.sent| ensures SentInv(Connected(s, k), s.sent[i]) {
      assert SentInv(s, s.sent[i]);
    }
  }

  lemma ConnectedAccounted(s: State, k: nat)
    requires Accounted(s) && HandlerOf(k) !in s.threads
    ensures Accounted(Connected(s, k))
  {
    assert Flying(Connected(s, k).threads) == Flying(s.threads);
    assert Pollers(Connected(s, k).threads) == Pollers(s.threads);
  }

  lemma ConnectKeeps(s: State, k: nat)
    requires Inv(s) && k !in s.sessions
    ensures Inv(Connected(s, k))
  {
    ConnectedThreads(s, k);
    ConnectedSent(s, k);
    ConnectedAccounted(s, k);
  }

  lemma StepKeeps(s: State, step: Label)
    requires Inv(s)
    ensures Inv(Step(s, step))
  {
    match step {
      case Connect(k) =>
        if k !in s.sessions {
          ConnectKeeps(s, k);
        }
      case Foreign(op) => ForeignKeeps(s, op);
      case Act(t, choice) =>
        if t in s.threads {
          ThreadStepIsGood(s, t, choice);
          var e := ThreadStep(s.core, s.sessions[s.threads[t].session], s.threads[t], choice, s.tally);
          AppliedThreads(s, t, e);
          AppliedSessions(s, t, e);
          AppliedSent(s, t, e);
          AppliedLastWords(s, t, e);
          AppliedAccounted(s, t, e);
        }
    }
  }

  lemma InitialInv()
    ensures Inv(Initial)
  {
    assert Flying(map[]) == {} && Pollers(map[]) == {};
  }

  lemma {:induction false} RunKeeps(labels: seq<Label>)
    ensures Inv(Run(labels))
  {
    if labels == [] {
      InitialInv();
    } else {
      RunKeeps(labels[..|labels| - 1]);
      StepKeeps(Run(labels[..|labels| - 1]), labels[|labels| - 1]);
    }
  }

  // ---------------------------------------------------------------- main results

  /** Every match pushed on behalf of an enqueue, by its handler or its poller, carries that enqueue's
      own ticket and request identifier and exactly the one result the ticket belongs to, which lists
      the enqueuing player. This holds although ticket and result are read in separate steps. */
  lemma MatchIntegrity(labels: seq<Label>, i: nat)
    requires i < |Run(labels).sent|
    requires Run(labels).sent[i].message.response.Found? && Run(labels).sent[i].message.cause.ForEnqueue?
    ensures var core := Run(labels).core;
            var r, e := Run(labels).sent[i].message.response, Run(labels).sent[i].message.cause.enqueue;
            && r.ticketID == e.ticketID && r.requestID == e.requestID
            && e.ticketID in core.tickets && core.tickets[e.ticketID].playerID == M.Text(e.playerID)
            && core.tickets[e.ticketID].matchID == r.matchID && r.matchID.Some?
            && r.matchID.value in core.results
            && var result := core.results[r.matchID.value];
            && r.roomID == Some(result.roomID) && r.serverID == result.serverID
            && r.serverAddr == result.serverAddr && r.players == result.playerIDs
            && r.status == StandingOf(result.status)
            && M.Text(e.playerID) in r.players
  {
    RunKeeps(labels);
    assert SentInv(Run(labels), Run(labels).sent[i]);
  }

  /** Two pushes, to any sessions, for tickets of the same match give the same room, server and
      players. */
  lemma SameMatchSameRoom(labels: seq<Label>, i: nat, j: nat)
    requires i < |Run(labels).sent| && j < |Run(labels).sent|
    requires Run(labels).sent[i].message.response.Found? && Run(labels).sent[j].message.response.Found?
    ensures var core := Run(labels).core;
            var a, b := Run(labels).sent[i].message.response, Run(labels).sent[j].message.response;
            && a.ticketID in core.tickets && b.ticketID in core.tickets
            && (core.tickets[a.ticketID].matchID == core.tickets[b.ticketID].matchID ==>
                  && a.matchID == b.matchID && a.roomID == b.roomID && a.serverID == b.serverID
                  && a.serverAddr == b.serverAddr && a.players == b.players)
  {
    RunKeeps(labels);
    assert SentInv(Run(labels), Run(labels).sent[i]) && SentInv(Run(labels), Run(labels).sent[j]);
  }

  /** A queued reply names the enqueue's own ticket and player. A cancelled reply is true of its ticket
      from then on, so by the matchmaker's permanence a ticket that had no match never gets one. */
  lemma RepliesAreTrue(labels: seq<Label>, i: nat)
    requires i < |Run(labels).sent|
    ensures var core, m := Run(labels).core, Run(labels).sent[i].message;
            && (m.response.Queued? ==>
                  && m.cause.ForEnqueue? && m.response.ticketID == m.cause.enqueue.ticketID
                  && m.response.ticketID in core.tickets
                  && core.tickets[m.response.ticketID].playerID == M.Text(m.response.playerID))
            && (m.response.Cancelled? ==>
                  && m.response.ticketID in core.tickets
                  && core.tickets[m.response.ticketID].status == M.Cancelled && m.response.status == CalledOff)
  {
    RunKeeps(labels);
    assert SentInv(Run(labels), Run(labels).sent[i]);
  }

  /** A poller writes errors and then at most one last message, always under its enqueue's request
      identifier; once it has written that message it is stopped. The last message is the match, or a
      status that names no match: the wait is over, or the ticket was cancelled before it had a match. */
  lemma PollerLifecycle(labels: seq<Label>, p: nat, i: nat)
    requires i < |Run(labels).sent| && Run(labels).sent[i].thread == PollerNo(p)
    ensures PollerNo(p) in Run(labels).threads && Run(labels).threads[PollerNo(p)].polls.Some?
    ensures var s, r := Run(labels), Run(labels).sent[i].message.response;
            var e := s.threads[PollerNo(p)].polls.value;
            && r.requestID == e.requestID
            && (r.Error? || r.Found? || r.Status?)
            && (r.Status? ==>
                  && r.ticketID == e.ticketID && r.matchID == None && r.roomID == None
                  && (r.status == StillWaiting
                      || (r.status == CalledOff && e.ticketID in s.core.tickets
                          && s.core.tickets[e.ticketID].status == M.Cancelled
                          && s.core.tickets[e.ticketID].matchID == None)))
            && (!r.Error? ==>
                  && s.threads[PollerNo(p)].pc.Stopped?
                  && forall j :: i < j < |s.sent| ==> s.sent[j].thread != PollerNo(p))
  {
    RunKeeps(labels);
    assert SentInv(Run(labels), Run(labels).sent[i]) && ThreadInv(Run(labels), PollerNo(p));
  }

  /** Every ticket the gateway caused is accounted for once: its reply was lost, its enqueue was
      answered with a match at once, its queued reply failed, its poller was started, or it is still
      being handled. The rest were made by other users of the matchmaker. */
  lemma TicketAccounts(labels: seq<Label>)
    ensures var s := Run(labels);
            |s.core.tickets|
            == s.tally.lost + s.tally.immediate + s.tally.failedQueued
               + |Pollers(s.threads)| + |Flying(s.threads)| + s.foreign
  {
    RunKeeps(labels);
  }

  /** Requests of other users that the matchmaker could not accept. */
  function ForeignMalformed(labels: seq<Label>): nat {
    if labels == [] then 0
    else
      var last := labels[|labels| - 1];
      ForeignMalformed(labels[..|labels| - 1]) + One(last.Foreign? && !L.WellFormed(last.op))
  }

  lemma StepCounts(s: State, step: Label)
    requires Inv(s)
    ensures Ahead(Step(s, step).core) == Ahead(s.core) + One(step.Foreign? && !L.WellFormed(step.op))
  {
    match step {
      case Connect(_) =>
      case Foreign(op) => L.StepCount(s.core, op);
      case Act(t, choice) =>
        if t in s.threads {
          assert ThreadInv(s, t);
          ThreadStepCounts(s.core, s.sessions[s.threads[t].session], s.threads[t], choice, s.tally);
        }
    }
  }

  /** In every interleaving the matchmaker's ticket counter runs ahead of its tickets by exactly the
      malformed requests of other users; the gateway never sends one. */
  lemma {:induction false} CounterAhead(labels: seq<Label>)
    ensures Run(labels).core.nextTicket - 1 == |Run(labels).core.tickets| + ForeignMalformed(labels)
  {
    if labels != [] {
      CounterAhead(labels[..|labels| - 1]);
      RunKeeps(labels[..|labels| - 1]);
      StepCounts(Run(labels[..|labels| - 1]), labels[|labels| - 1]);
    }
  }

  /** A session's pending ticket is empty or the last one whose creation it learned of, except that
      between creating a ticket and recording it the one before is still there. */
  lemma PendingTicket(labels: seq<Label>, k: nat)
    requires k in Run(labels).sessions
    ensures HandlerOf(k) in Run(labels).threads
    ensures PendingOk(Run(labels).sessions[k], Run(labels).threads[HandlerOf(k)].pc)
  {
    RunKeeps(labels);
    assert SessionInv(Run(labels), k);
  }
}
