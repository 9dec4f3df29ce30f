// Matches reach the session they belong to: no ticket is created twice, and whatever is written for
// an enqueue is written on the connection of the one session that created its ticket.

module ProtocolOwnership {
  import opened Wrappers
  import opened Protocol
  import opened ProtocolLaws
  import opened ProtocolRuns
  import M = Matchmaker
  import L = MatchmakerLaws

  predicate Mine(created: seq<nat>, c: Cause) {
    c.ForEnqueue? ==> c.enqueue.ticketID in created
  }

  /** A thread works for tickets that its session created. */
  predicate WorksFor(created: seq<nat>, polls: Option<Enqueue>, pc: PC) {
    && (polls.Some? ==> polls.value.ticketID in created)
    && match pc
       case CreateReply(e) => e.ticketID in created
       case SettingPending(e, _) => e.ticketID in created
       case WritingQueued(e, _) => e.ticketID in created
       case Spawning(e) => e.ticketID in created
       case Failing(e) => e.ticketID in created
       case GettingResult(c, _) => Mine(created, c)
       case ClearingFound(c, _) => Mine(created, c)
       case WritingFound(c, _) => Mine(created, c)
       case _ => true
  }

  /** A step creates at most one ticket, which gets the next number. */
  predicate CreatesNext(core: M.State, s: Session, e: Effect) {
    && e.core.nextTicket >= core.nextTicket
    && (e.session.created == s.created
        || (e.session.created == s.created + [core.nextTicket] && e.core.nextTicket > core.nextTicket))
  }

  predicate OwnStep(core: M.State, s: Session, polls: Option<Enqueue>, e: Effect) {
    && CreatesNext(core, s, e)
    && WorksFor(e.session.created, polls, e.pc)
    && (e.say.Some? ==> Mine(e.session.created, e.say.value.cause))
    && (e.spawn.Some? ==> e.spawn.value.ticketID in e.session.created)
  }

  lemma CreatingOwns(core: M.State, s: Session, pc: PC, choice: Choice, tally: Tally)
    requires M.Inv(core) && pc.Creating?
    ensures OwnStep(core, s, None, HandlerStep(core, s, pc, choice, tally))
  {
    if M.Acceptable(pc.payload) {
      L.CreatedKeys(core, pc.payload);
    }
  }

  lemma HandlerOwns(core: M.State, s: Session, pc: PC, choice: Choice, tally: Tally)
    requires WorksFor(s.created, None, pc) && !pc.Creating? && !Pushing(pc)
    ensures OwnStep(core, s, None, HandlerStep(core, s, pc, choice, tally))
  {}

  lemma PushOwns(core: M.State, s: Session, polls: Option<Enqueue>, pc: PC, choice: Choice, tally: Tally)
    requires WorksFor(s.created, polls, pc) && Pushing(pc)
    ensures OwnStep(core, s, polls, PushStep(core, s, pc, choice, tally, polls.Some?))
  {}

  lemma PollerOwns(core: M.State, s: Session, e: Enqueue, pc: PC, choice: Choice, tally: Tally)
    requires WorksFor(s.created, Some(e), pc) && !Pushing(pc)
    ensures OwnStep(core, s, Some(e), PollerStep(core, s, e, pc, choice, tally))
  {}

  lemma ThreadStepOwns(core: M.State, s: Session, th: Thread, choice: Choice, tally: Tally)
    requires M.Inv(core) && WorksFor(s.created, th.polls, th.pc)
    ensures OwnStep(core, s, th.polls, ThreadStep(core, s, th, choice, tally))
  {
    if Pushing(th.pc) {
      PushOwns(core, s, th.polls, th.pc, choice, tally);
    } else {
      match th.polls {
        case None =>
          if th.pc.Creating? {
            CreatingOwns(core, s, th.pc, choice, tally);
          } else {
            HandlerOwns(core, s, th.pc, choice, tally);
          }
        case Some(e) => PollerOwns(core, s, e, th.pc, choice, tally);
      }
    }
  }

  // ---------------------------------------------------------------- the invariant

  function CreatedBy(s: State, k: nat): seq<nat> {
    if k in s.sessions then s.sessions[k].created else []
  }

  /** Tickets are created in increasing order, below the matchmaker's counter. */
  predicate Increasing(created: seq<nat>, bound: nat) {
    && (forall i, j :: 0 <= i < j < |created| ==> created[i] < created[j])
    && (forall i :: 0 <= i < |created| ==> created[i] < bound)
  }

  predicate Apart(a: seq<nat>, b: seq<nat>) {
    forall i, j :: 0 <= i < |a| && 0 <= j < |b| ==> a[i] != b[j]
  }

  predicate TicketsApart(s: State) {
    && (forall k | k in s.sessions :: Increasing(s.sessions[k].created, s.core.nextTicket))
    && (forall k, l | k in s.sessions && l in s.sessions && k != l ::
          Apart(s.sessions[k].created, s.sessions[l].created))
  }

  predicate ThreadOwns(s: State, t: Tid) {
    t in s.threads && WorksFor(CreatedBy(s, s.threads[t].session), s.threads[t].polls, s.threads[t].pc)
  }

  predicate Owned(s: State) {
    && TicketsApart(s)
    && (forall t | t in s.threads :: ThreadOwns(s, t))
    && (forall i :: 0 <= i < |s.sent| ==> Mine(CreatedBy(s, s.sent[i].session), s.sent[i].message.cause))
  }

  // ---------------------------------------------------------------- preservation

  lemma WorksForMore(created: seq<nat>, n: nat, polls: Option<Enqueue>, pc: PC)
    requires WorksFor(created, polls, pc)
    ensures WorksFor(created + [n], polls, pc)
  {}

  lemma ApartFromNew(a: seq<nat>, b: seq<nat>, n: nat)
    requires Apart(a, b) && Apart(b, a) && Increasing(b, n)
    ensures Apart(a + [n], b) && Apart(b, a + [n])
  {}

  lemma IncreasingMore(created: seq<nat>, n: nat, bound: nat)
    requires Increasing(created, n) && n <= bound
    ensures Increasing(created, bound)
    ensures n < bound ==> Increasing(created + [n], bound)
  {}

  lemma AppliedApart(s: State, t: Tid, e: Effect)
    requires TicketsApart(s) && t in s.threads && s.threads[t].session in s.sessions
    requires CreatesNext(s.core, s.sessions[s.threads[t].session], e)
    ensures TicketsApart(Applied(s, t, e))
  {
    var s', me, n := Applied(s, t, e), s.threads[t].session, s.core.nextTicket;
    forall k | k in s.sessions ensures Increasing(s'.sessions[k].created, s'.core.nextTicket) {
      IncreasingMore(s.sessions[k].created, n, s'.core.nextTicket);
    }
    forall k, l | k in s.sessions && l in s.sessions && k != l
      ensures Apart(s'.sessions[k].created, s'.sessions[l].created)
    {
      assert Apart(s.sessions[k].created, s.sessions[l].created) && Apart(s.sessions[l].created, s.sessions[k].created);
      if k == me {
        ApartFromNew(s.sessions[k].created, s.sessions[l].created, n);
      } else if l == me {
        ApartFromNew(s.sessions[l].created, s.sessions[k].created, n);
      }
    }
  }

  lemma AppliedThreadOwns(s: State, t: Tid, e: Effect, u: Tid)
    requires t in s.threads && s.threads[t].session in s.sessions
    requires CreatesNext(s.core, s.sessions[s.threads[t].session], e)
    requires u in s.threads && u != t && u != PollerNo(s.nextPoller) && ThreadOwns(s, u)
    ensures ThreadOwns(Applied(s, t, e), u)
  {
    WorksForMore(CreatedBy(s, s.threads[u].session), s.core.nextTicket, s.threads[u].polls, s.threads[u].pc);
  }

  lemma AppliedThreadsOwn(s: State, t: Tid, e: Effect)
    requires Owned(s) && t in s.threads && s.threads[t].session in s.sessions
    requires PollerNo(s.nextPoller) !in s.threads
    requires OwnStep(s.core, s.sessions[s.threads[t].session], s.threads[t].polls, e)
    ensures forall u | u in Applied(s, t, e).threads :: ThreadOwns(Applied(s, t, e), u)
  {
    forall u | u in Applied(s, t, e).threads ensures ThreadOwns(Applied(s, t, e), u) {
      if u in s.threads && u != t {
        AppliedThreadOwns(s, t, e, u);
      }
    }
  }

  lemma AppliedSentOwned(s: State, t: Tid, e: Effect)
    requires Owned(s) && t in s.threads && s.threads[t].session in s.sessions
    requires OwnStep(s.core, s.sessions[s.threads[t].session], s.threads[t].polls, e)
    ensures var s' := Applied(s, t, e);
            forall i :: 0 <= i < |s'.sent| ==> Mine(CreatedBy(s', s'.sent[i].session), s'.sent[i].message.cause)
  {
    var s' := Applied(s, t, e);
    forall i | 0 <= i < |s.sent| ensures Mine(CreatedBy(s', s.sent[i].session), s.sent[i].message.cause) {
      assert Mine(CreatedBy(s, s.sent[i].session), s.sent[i].message.cause);
    }
  }

  lemma PollerIsNew(s: State)
    requires Inv(s)
    ensures PollerNo(s.nextPoller) !in s.threads
  {
    assert PollerNo(s.nextPoller) in s.threads ==> ThreadInv(s, PollerNo(s.nextPoller));
  }

  lemma AppliedOwned(s: State, t: Tid, e: Effect)
    requires Owned(s) && t in s.threads && s.threads[t].session in s.sessions
    requires PollerNo(s.nextPoller) !in s.threads
    requires OwnStep(s.core, s.sessions[s.threads[t].session], s.threads[t].polls, e)
    ensures Owned(Applied(s, t, e))
  {
    AppliedApart(s, t, e);
    AppliedThreadsOwn(s, t, e);
    AppliedSentOwned(s, t, e);
  }

  lemma ActOwned(s: State, t: Tid, choice: Choice)
    requires Inv(s) && Owned(s) && t in s.threads
    ensures Owned(Step(s, Act(t, choice)))
  {
    assert ThreadInv(s, t) && ThreadOwns(s, t);
    var session := s.sessions[s.threads[t].session];
    ThreadStepOwns(s.core, session, s.threads[t], choice, s.tally);
    PollerIsNew(s);
    AppliedOwned(s, t, ThreadStep(s.core, session, s.threads[t], choice, s.tally));
  }

  lemma SameThreadOwns(s: State, s': State, t: Tid)
    requires ThreadOwns(s, t) && t in s'.threads && s'.threads[t] == s.threads[t]
    requires CreatedBy(s', s.threads[t].session) == CreatedBy(s, s.threads[t].session)
    ensures ThreadOwns(s', t)
  {}

  lemma ForeignOwned(s: State, op: M.Op)
    requires Owned(s)
    ensures Owned(Step(s, Foreign(op)))
  {
    var s' := Step(s, Foreign(op));
    assert forall k :: CreatedBy(s', k) == CreatedBy(s, k);
    forall t | t in s'.threads ensures ThreadOwns(s', t) {
      SameThreadOwns(s, s', t);
    }
    forall k | k in s.sessions ensures Increasing(s'.sessions[k].created, s'.core.nextTicket) {
      IncreasingMore(s.sessions[k].created, s.core.nextTicket, s'.core.nextTicket);
    }
  }

  lemma ConnectedThreadsOwn(s: State, k: nat)
    requires Inv(s) && Owned(s) && k !in s.sessions
    ensures forall t | t in Connected(s, k).threads :: ThreadOwns(Connected(s, k), t)
  {
    var s' := Connected(s, k);
    ConnectedThreads(s, k);
    forall t | t in s.threads ensures ThreadOwns(s', t) {
      assert ThreadInv(s, t);
      SameThreadOwns(s, s', t);
    }
    assert ThreadOwns(s', HandlerOf(k));
  }

  lemma ConnectedSentOwned(s: State, k: nat)
    requires Inv(s) && Owned(s) && k !in s.sessions
    ensures var s' := Connected(s, k);
            forall i :: 0 <= i < |s'.sent| ==> Mine(CreatedBy(s', s'.sent[i].session), s'.sent[i].message.cause)
  {
    forall i | 0 <= i < |s.sent|
      ensures CreatedBy(Connected(s, k), s.sent[i].session) == CreatedBy(s, s.sent[i].session)
    {
      assert SentInv(s, s.sent[i]) && ThreadInv(s, s.sent[i].thread);
    }
  }

  lemma ConnectOwned(s: State, k: nat)
    requires Inv(s) && Owned(s) && k !in s.sessions
    ensures Owned(Connected(s, k))
  {
    ConnectedThreadsOwn(s, k);
    ConnectedSentOwned(s, k);
  }

  lemma {:induction false} RunOwned(labels: seq<Label>)
    ensures Owned(Run(labels))
  {
    if labels != [] {
      var s, step := Run(labels[..|labels| - 1]), labels[|labels| - 1];
      RunOwned(labels[..|labels| - 1]);
      RunKeeps(labels[..|labels| - 1]);
      match step {
        case Connect(k) =>
          if k !in s.sessions {
            ConnectOwned(s, k);
          }
        case Foreign(op) => ForeignOwned(s, op);
        case Act(t, choice) =>
          if t in s.threads {
            ActOwned(s, t, choice);
          }
      }
    }
  }

  // ---------------------------------------------------------------- main results

  /** No ticket is created twice, by the same session or by two. */
  lemma TicketsCreatedOnce(labels: seq<Label>, k: nat, i: nat, l: nat, j: nat)
    requires k in Run(labels).sessions && i < |Run(labels).sessions[k].created|
    requires l in Run(labels).sessions && j < |Run(labels).sessions[l].created|
    requires k != l || i != j
    ensures Run(labels).sessions[k].created[i] != Run(labels).sessions[l].created[j]
  {
    RunOwned(labels);
    var s := Run(labels);
    if k != l {
      assert Apart(s.sessions[k].created, s.sessions[l].created);
    } else {
      assert Increasing(s.sessions[k].created, s.core.nextTicket);
    }
  }

  /** A message written for an enqueue goes to the session that created the enqueue's ticket, and no
      other session created that ticket. */
  lemma MatchRouting(labels: seq<Label>, i: nat, l: nat)
    requires i < |Run(labels).sent| && Run(labels).sent[i].message.cause.ForEnqueue?
    ensures var s, m := Run(labels), Run(labels).sent[i];
            var ticket := m.message.cause.enqueue.ticketID;
            && m.session in s.sessions && ticket in s.sessions[m.session].created
            && (l in s.sessions && ticket in s.sessions[l].created ==> l == m.session)
  {
    RunOwned(labels);
    var s, m := Run(labels), Run(labels).sent[i];
    var ticket := m.message.cause.enqueue.ticketID;
    assert Mine(CreatedBy(s, m.session), m.message.cause);
    var a :| 0 <= a < |s.sessions[m.session].created| && s.sessions[m.session].created[a] == ticket;
    if l in s.sessions && ticket in s.sessions[l].created {
      var b :| 0 <= b < |s.sessions[l].created| && s.sessions[l].created[b] == ticket;
      if l != m.session {
        TicketsCreatedOnce(labels, m.session, a, l, b);
      }
    }
  }
}
