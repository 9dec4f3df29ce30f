// What one step of a handler or a poller keeps: the facts its thread holds about the matchmaker, the
// session's pending ticket, and the balance of tickets.

module ProtocolLaws {
  import opened Wrappers
  import opened Protocol
  import M = Matchmaker
  import L = MatchmakerLaws

  // ---------------------------------------------------------------- what a thread knows

  /** The enqueue's ticket exists and is its player's. */
  predicate EnqueueOk(core: M.State, e: Enqueue) {
    e.ticketID in core.tickets && core.tickets[e.ticketID].playerID == M.Text(e.playerID)
  }

  /** A ticket read at some earlier moment. */
  predicate Snapshot(core: M.State, t: M.Ticket) {
    && t.ticketID in core.tickets
    && (t.matchID.Some? ==> core.tickets[t.ticketID].matchID == t.matchID)
    && (t.status == M.Matched ==> t.matchID.Some?)
  }

  predicate CauseOk(core: M.State, c: Cause, ticketID: nat) {
    c.ForEnqueue? ==> EnqueueOk(core, c.enqueue) && c.enqueue.ticketID == ticketID
  }

  /** The message names its cause's ticket and carries exactly the result that ticket belongs to;
      that result lists the enqueuing player. */
  predicate FoundOk(core: M.State, c: Cause, r: Response) {
    && r.Found?
    && r.requestID == RequestOf(c)
    && CauseOk(core, c, r.ticketID)
    && r.ticketID in core.tickets
    && r.matchID.Some?
    && core.tickets[r.ticketID].matchID == r.matchID
    && core.tickets[r.ticketID].roomID == r.roomID
    && r.matchID.value in core.results
    && var result := core.results[r.matchID.value];
    && r.roomID == Some(result.roomID)
    && r.serverID == result.serverID && r.serverAddr == result.serverAddr
    && r.players == result.playerIDs && r.status == StandingOf(result.status)
    && (c.ForEnqueue? ==> M.Text(c.enqueue.playerID) in r.players)
  }

  predicate IsCancelled(core: M.State, id: nat) {
    id in core.tickets && core.tickets[id].status == M.Cancelled
  }

  /** Cancelled before it had a match, which is final. */
  predicate CalledOffFor(core: M.State, id: nat) {
    id in core.tickets && core.tickets[id].status == M.Cancelled && core.tickets[id].matchID == None
  }

  /** The status with which a poller ends names its ticket and no match: the wait is over, or the ticket
      was cancelled before it had one. */
  predicate LastStatusOk(core: M.State, e: Enqueue, r: Response) {
    && r.Status? && r.ticketID == e.ticketID && r.matchID == None && r.roomID == None
    && (r.status == StillWaiting || (r.status == CalledOff && CalledOffFor(core, e.ticketID)))
  }

  /** What a thread holds at each point, `e` being the enqueue of a poller. */
  predicate Holds(core: M.State, polls: Option<Enqueue>, pc: PC) {
    match pc
    case Creating(_, player, payload) => M.Acceptable(payload) && payload.playerID == Some(M.Text(player))
    case CreateReply(e) => EnqueueOk(core, e)
    case SettingPending(e, t) => EnqueueOk(core, e) && Snapshot(core, t) && t.ticketID == e.ticketID
    case WritingQueued(e, t) => EnqueueOk(core, e) && t.ticketID == e.ticketID
    case Spawning(e) => EnqueueOk(core, e)
    case Failing(e) => EnqueueOk(core, e)
    case CancelReply(_, id) => IsCancelled(core, id)
    case ClearingCancelled(_, t) => IsCancelled(core, t.ticketID) && t.status == M.Cancelled
    case Writing(r) =>
      && !r.Found? && !r.Queued?
      && (r.Cancelled? ==> IsCancelled(core, r.ticketID) && r.status == CalledOff)
    case GettingResult(c, t) =>
      OwnCause(polls, c) && CauseOk(core, c, t.ticketID) && Snapshot(core, t) && t.matchID.Some?
    case ClearingFound(c, r) => OwnCause(polls, c) && FoundOk(core, c, r)
    case WritingFound(c, r) => OwnCause(polls, c) && FoundOk(core, c, r)
    case ClearingPolled(t) =>
      && polls.Some? && t.ticketID == polls.value.ticketID
      && t.status == M.Cancelled && CalledOffFor(core, t.ticketID)
    case WritingLast(r) =>
      polls.Some? && r.requestID == polls.value.requestID && LastStatusOk(core, polls.value, r)
    case _ => true
  }

  /** A poller pushes only for its own enqueue. */
  predicate OwnCause(polls: Option<Enqueue>, c: Cause) {
    polls.Some? ==> c == ForEnqueue(polls.value)
  }

  predicate ThreadOk(core: M.State, polls: Option<Enqueue>, pc: PC) {
    && (polls.Some? ==> EnqueueOk(core, polls.value))
    && Holds(core, polls, pc)
  }

  /** A message fits the thread that says it, which stands at `after` once it is said. */
  predicate SayOk(core: M.State, polls: Option<Enqueue>, m: Message, after: PC) {
    && (m.response.Found? ==> FoundOk(core, m.cause, m.response))
    && (m.response.Queued? ==>
          && m.cause.ForEnqueue? && EnqueueOk(core, m.cause.enqueue)
          && m.response.ticketID == m.cause.enqueue.ticketID
          && m.response.playerID == m.cause.enqueue.playerID)
    && (m.response.Cancelled? ==> IsCancelled(core, m.response.ticketID) && m.response.status == CalledOff)
    && m.response.requestID == RequestOf(m.cause)
    && (polls.Some? ==>
          && m.cause == ForEnqueue(polls.value)
          && (m.response.Error? || after.Stopped?)
          && (m.response.Error? || m.response.Found? || m.response.Status?)
          && (m.response.Status? ==> LastStatusOk(core, polls.value, m.response)))
  }

  // ---------------------------------------------------------------- knowledge outlives steps

  lemma EnqueueLater(core: M.State, core': M.State, e: Enqueue)
    requires L.Later(core, core') && EnqueueOk(core, e)
    ensures EnqueueOk(core', e)
  {
    assert L.TicketLater(core, core', e.ticketID);
  }

  lemma SnapshotLater(core: M.State, core': M.State, t: M.Ticket)
    requires L.Later(core, core') && Snapshot(core, t)
    ensures Snapshot(core', t)
  {
    assert L.TicketLater(core, core', t.ticketID);
  }

  lemma CauseLater(core: M.State, core': M.State, c: Cause, ticketID: nat)
    requires L.Later(core, core') && CauseOk(core, c, ticketID)
    ensures CauseOk(core', c, ticketID)
  {
    if c.ForEnqueue? {
      EnqueueLater(core, core', c.enqueue);
    }
  }

  lemma FoundLater(core: M.State, core': M.State, c: Cause, r: Response)
    requires L.Later(core, core') && FoundOk(core, c, r)
    ensures FoundOk(core', c, r)
  {
    CauseLater(core, core', c, r.ticketID);
    assert L.TicketLater(core, core', r.ticketID);
  }

  lemma CancelledLater(core: M.State, core': M.State, id: nat)
    requires L.Later(core, core') && IsCancelled(core, id)
    ensures IsCancelled(core', id)
  {
    assert L.TicketLater(core, core', id);
  }

  lemma CalledOffLater(core: M.State, core': M.State, id: nat)
    requires L.Later(core, core') && CalledOffFor(core, id)
    ensures CalledOffFor(core', id)
  {
    assert L.TicketLater(core, core', id);
  }

  lemma SayLater(core: M.State, core': M.State, polls: Option<Enqueue>, m: Message, after: PC)
    requires L.Later(core, core') && SayOk(core, polls, m, after)
    ensures SayOk(core', polls, m, after)
  {
    match m.response {
      case Found(_, _, _, _, _, _, _, _) => FoundLater(core, core', m.cause, m.response);
      case Queued(_, _, _, _) => EnqueueLater(core, core', m.cause.enqueue);
      case Cancelled(_, id, _) => CancelledLater(core, core', id);
      case Status(_, id, status, _, _) =>
        if polls.Some? && status == CalledOff {
          CalledOffLater(core, core', id);
        }
      case _ =>
    }
  }

  lemma HoldsLater(core: M.State, core': M.State, polls: Option<Enqueue>, pc: PC)
    requires L.Later(core, core') && Holds(core, polls, pc)
    ensures Holds(core', polls, pc)
  {
    match pc {
      case CreateReply(e) => EnqueueLater(core, core', e);
      case SettingPending(e, t) =>
        EnqueueLater(core, core', e);
        SnapshotLater(core, core', t);
      case WritingQueued(e, t) => EnqueueLater(core, core', e);
      case Spawning(e) => EnqueueLater(core, core', e);
      case Failing(e) => EnqueueLater(core, core', e);
      case CancelReply(_, id) => CancelledLater(core, core', id);
      case ClearingCancelled(_, t) => CancelledLater(core, core', t.ticketID);
      case Writing(r) =>
        if r.Cancelled? {
          CancelledLater(core, core', r.ticketID);
        }
      case GettingResult(c, t) =>
        CauseLater(core, core', c, t.ticketID);
        SnapshotLater(core, core', t);
      case ClearingFound(c, r) => FoundLater(core, core', c, r);
      case WritingFound(c, r) => FoundLater(core, core', c, r);
      case ClearingPolled(t) => CalledOffLater(core, core', t.ticketID);
      case WritingLast(r) =>
        if r.status == CalledOff {
          CalledOffLater(core, core', r.ticketID);
        }
      case _ =>
    }
  }

  lemma ThreadLater(core: M.State, core': M.State, polls: Option<Enqueue>, pc: PC)
    requires L.Later(core, core') && ThreadOk(core, polls, pc)
    ensures ThreadOk(core', polls, pc)
  {
    HoldsLater(core, core', polls, pc);
    if polls.Some? {
      EnqueueLater(core, core', polls.value);
    }
  }

  // ---------------------------------------------------------------- one step is sound

  /** A stored ticket, read now. */
  lemma ReadTicket(core: M.State, id: nat)
    requires M.Inv(core) && id in core.tickets
    ensures Snapshot(core, core.tickets[id]) && core.tickets[id].ticketID == id
  {
    assert M.TicketOk(core, id);
  }

  /** A result read after the ticket that names it makes a correct message. */
  lemma ReadResult(core: M.State, c: Cause, t: M.Ticket)
    requires M.Inv(core) && Snapshot(core, t) && t.matchID.Some? && CauseOk(core, c, t.ticketID)
    ensures t.matchID.value in core.results
    ensures FoundOk(core, c, FromResult(RequestOf(c), t, core.results[t.matchID.value]))
  {
    L.MatchedTicket(core, t.ticketID);
  }

  lemma PushHolds(core: M.State, polls: Option<Enqueue>, c: Cause, t: M.Ticket)
    requires Snapshot(core, t) && IsMatched(t) && CauseOk(core, c, t.ticketID) && OwnCause(polls, c)
    ensures Holds(core, polls, Push(c, t))
  {}

  predicate EffectOk(core: M.State, polls: Option<Enqueue>, e: Effect) {
    && ThreadOk(e.core, polls, e.pc)
    && (e.say.Some? ==> SayOk(e.core, polls, e.say.value, e.pc))
    && (e.spawn.Some? ==> EnqueueOk(e.core, e.spawn.value))
  }

  lemma CreatedEnqueue(core: M.State, receipt: nat, requestID: string, player: string, payload: M.Payload)
    requires M.Inv(core) && M.Acceptable(payload) && payload.playerID == Some(M.Text(player))
    ensures var (core', r) := M.Created(core, payload);
            && M.Inv(core') && L.Later(core, core')
            && r.Ok? && EnqueueOk(core', Enqueue(receipt, requestID, player, r.value))
  {
    M.StepInv(core, M.Create(payload));
    L.StepLater(core, M.Create(payload));
    L.CreatedKeys(core, payload);
  }

  lemma CreatingOk(core: M.State, s: Session, pc: PC, choice: Choice, tally: Tally)
    requires M.Inv(core) && pc.Creating? && Holds(core, None, pc)
    ensures EffectOk(core, None, HandlerStep(core, s, pc, choice, tally))
    ensures L.Later(core, HandlerStep(core, s, pc, choice, tally).core)
    ensures M.Inv(HandlerStep(core, s, pc, choice, tally).core)
  {
    CreatedEnqueue(core, |s.heard|, pc.requestID, pc.player, pc.payload);
    L.RunLater(core, []);
  }

  lemma CancellingOk(core: M.State, s: Session, pc: PC, choice: Choice, tally: Tally)
    requires M.Inv(core) && pc.Cancelling?
    ensures EffectOk(core, None, HandlerStep(core, s, pc, choice, tally))
    ensures L.Later(core, HandlerStep(core, s, pc, choice, tally).core)
    ensures M.Inv(HandlerStep(core, s, pc, choice, tally).core)
  {
    var op := M.Cancel(pc.ticketID);
    M.StepInv(core, op);
    L.StepLater(core, op);
    L.RunLater(core, []);
  }

  lemma CreateReplyOk(core: M.State, s: Session, pc: PC, choice: Choice, tally: Tally)
    requires M.Inv(core) && Holds(core, None, pc) && pc.CreateReply?
    ensures EffectOk(core, None, HandlerStep(core, s, pc, choice, tally))
  {
    ReadTicket(core, pc.enqueue.ticketID);
  }

  lemma CancelReplyOk(core: M.State, s: Session, pc: PC, choice: Choice, tally: Tally)
    requires M.Inv(core) && Holds(core, None, pc) && pc.CancelReply?
    ensures EffectOk(core, None, HandlerStep(core, s, pc, choice, tally))
  {
    ReadTicket(core, pc.ticketID);
  }

  lemma SettingPendingOk(core: M.State, s: Session, pc: PC, choice: Choice, tally: Tally)
    requires Holds(core, None, pc) && pc.SettingPending?
    ensures EffectOk(core, None, HandlerStep(core, s, pc, choice, tally))
  {
    if IsMatched(pc.ticket) {
      PushHolds(core, None, ForEnqueue(pc.enqueue), pc.ticket);
    }
  }

  lemma GettingStatusOk(core: M.State, s: Session, pc: PC, choice: Choice, tally: Tally)
    requires M.Inv(core) && pc.GettingStatus?
    ensures EffectOk(core, None, HandlerStep(core, s, pc, choice, tally))
  {
    if pc.ticketID in core.tickets {
      var t := core.tickets[pc.ticketID];
      ReadTicket(core, pc.ticketID);
      if IsMatched(t) {
        PushHolds(core, None, ForRequest(|s.heard|, pc.requestID), t);
      }
    }
  }

  /** The points at which a handler neither reads the matchmaker nor changes it. */
  predicate Offline(pc: PC) {
    && !pc.Creating? && !pc.Cancelling? && !pc.CreateReply? && !pc.CancelReply?
    && !pc.SettingPending? && !pc.GettingStatus? && !Pushing(pc)
  }

  lemma OfflineOk(core: M.State, s: Session, pc: PC, choice: Choice, tally: Tally)
    requires Holds(core, None, pc) && Offline(pc)
    ensures EffectOk(core, None, HandlerStep(core, s, pc, choice, tally))
  {}

  lemma HandlerReads(core: M.State, s: Session, pc: PC, choice: Choice, tally: Tally)
    requires !pc.Creating? && !pc.Cancelling?
    ensures HandlerStep(core, s, pc, choice, tally).core == core
  {}

  lemma HandlerOk(core: M.State, s: Session, pc: PC, choice: Choice, tally: Tally)
    requires M.Inv(core) && Holds(core, None, pc) && !Pushing(pc)
    ensures var e := HandlerStep(core, s, pc, choice, tally);
            EffectOk(core, None, e) && L.Later(core, e.core) && M.Inv(e.core)
  {
    if pc.Creating? {
      CreatingOk(core, s, pc, choice, tally);
    } else if pc.Cancelling? {
      CancellingOk(core, s, pc, choice, tally);
    } else {
      HandlerReads(core, s, pc, choice, tally);
      L.RunLater(core, []);
      if pc.CreateReply? {
        CreateReplyOk(core, s, pc, choice, tally);
      } else if pc.CancelReply? {
        CancelReplyOk(core, s, pc, choice, tally);
      } else if pc.SettingPending? {
        SettingPendingOk(core, s, pc, choice, tally);
      } else if pc.GettingStatus? {
        GettingStatusOk(core, s, pc, choice, tally);
      } else {
        OfflineOk(core, s, pc, choice, tally);
      }
    }
  }

  lemma PushFailedHolds(core: M.State, polls: Option<Enqueue>, c: Cause, ticketID: nat)
    requires CauseOk(core, c, ticketID)
    ensures Holds(core, polls, PushFailed(c, polls.Some?))
  {}

  lemma GettingResultOk(core: M.State, s: Session, polls: Option<Enqueue>, pc: PC, choice: Choice, tally: Tally)
    requires M.Inv(core) && ThreadOk(core, polls, pc) && pc.GettingResult?
    ensures EffectOk(core, polls, PushStep(core, s, pc, choice, tally, polls.Some?))
  {
    ReadResult(core, pc.cause, pc.ticket);
    PushFailedHolds(core, polls, pc.cause, pc.ticket.ticketID);
  }

  lemma SayingFoundOk(core: M.State, s: Session, polls: Option<Enqueue>, pc: PC, choice: Choice, tally: Tally)
    requires ThreadOk(core, polls, pc) && (pc.ClearingFound? || pc.WritingFound?)
    ensures EffectOk(core, polls, PushStep(core, s, pc, choice, tally, polls.Some?))
  {}

  lemma PushOk(core: M.State, s: Session, polls: Option<Enqueue>, pc: PC, choice: Choice, tally: Tally)
    requires M.Inv(core) && ThreadOk(core, polls, pc) && Pushing(pc)
    ensures EffectOk(core, polls, PushStep(core, s, pc, choice, tally, polls.Some?))
  {
    if pc.GettingResult? {
      GettingResultOk(core, s, polls, pc, choice, tally);
    } else {
      SayingFoundOk(core, s, polls, pc, choice, tally);
    }
  }

  lemma PushReads(core: M.State, s: Session, pc: PC, choice: Choice, tally: Tally, poller: bool)
    ensures PushStep(core, s, pc, choice, tally, poller).core == core
  {}

  lemma PolledOk(core: M.State, e: Enqueue)
    requires M.Inv(core) && EnqueueOk(core, e)
    ensures ThreadOk(core, Some(e), Polled(e, core.tickets[e.ticketID]))
  {
    var t := core.tickets[e.ticketID];
    ReadTicket(core, e.ticketID);
    if IsMatched(t) {
      PushHolds(core, Some(e), ForEnqueue(e), t);
    }
  }

  lemma PollingOk(core: M.State, s: Session, e: Enqueue, pc: PC, choice: Choice, tally: Tally)
    requires M.Inv(core) && EnqueueOk(core, e) && pc.Polling?
    ensures EffectOk(core, Some(e), PollerStep(core, s, e, pc, choice, tally))
  {
    PolledOk(core, e);
  }

  lemma PollerOk(core: M.State, s: Session, e: Enqueue, pc: PC, choice: Choice, tally: Tally)
    requires M.Inv(core) && ThreadOk(core, Some(e), pc) && !Pushing(pc)
    ensures EffectOk(core, Some(e), PollerStep(core, s, e, pc, choice, tally))
  {
    if pc.Polling? {
      PollingOk(core, s, e, pc, choice, tally);
    }
  }

  lemma PollerReads(core: M.State, s: Session, e: Enqueue, pc: PC, choice: Choice, tally: Tally)
    ensures PollerStep(core, s, e, pc, choice, tally).core == core
  {}

  /** Every step of a thread leaves it, the matchmaker and what it says in order. */
  lemma ThreadStepOk(core: M.State, s: Session, th: Thread, choice: Choice, tally: Tally)
    requires M.Inv(core) && ThreadOk(core, th.polls, th.pc)
    ensures var e := ThreadStep(core, s, th, choice, tally);
            EffectOk(core, th.polls, e) && L.Later(core, e.core) && M.Inv(e.core)
  {
    L.RunLater(core, []);
    if Pushing(th.pc) {
      PushOk(core, s, th.polls, th.pc, choice, tally);
      PushReads(core, s, th.pc, choice, tally, th.polls.Some?);
    } else {
      match th.polls {
        case None => HandlerOk(core, s, th.pc, choice, tally);
        case Some(e) =>
          PollerOk(core, s, e, th.pc, choice, tally);
          PollerReads(core, s, e, th.pc, choice, tally);
      }
    }
  }

  // ---------------------------------------------------------------- pending tickets

  /** The pending ticket is empty or the last one whose creation the session learned of; between that
      moment and the update that follows it, the pending ticket is still the one before. */
  predicate PendingOk(s: Session, pc: PC) {
    if pc.CreateReply? || pc.SettingPending? then
      && s.created != []
      && s.created[|s.created| - 1] == pc.enqueue.ticketID
      && (s.pending == None || (|s.created| >= 2 && s.pending == Some(s.created[|s.created| - 2])))
    else
      s.pending == None || (s.created != [] && s.pending == Some(s.created[|s.created| - 1]))
  }

  lemma HandlerPending(core: M.State, s: Session, pc: PC, choice: Choice, tally: Tally)
    requires PendingOk(s, pc) && Holds(core, None, pc)
    ensures var e := HandlerStep(core, s, pc, choice, tally);
            PendingOk(e.session, e.pc)
  {}

  lemma PushPending(core: M.State, s: Session, pc: PC, choice: Choice, tally: Tally, poller: bool)
    ensures var e := PushStep(core, s, pc, choice, tally, poller);
            && (e.session == s || e.session == s.(pending := None))
            && (Pushing(pc) ==> !e.pc.CreateReply? && !e.pc.SettingPending?)
  {}

  lemma PollerPending(core: M.State, s: Session, e: Enqueue, pc: PC, choice: Choice, tally: Tally)
    ensures var f := PollerStep(core, s, e, pc, choice, tally);
            f.session == s || f.session == s.(pending := None)
  {}

  /** A handler keeps the pending ticket in order; a poller can only clear it. */
  predicate SessionStep(s: Session, th: Thread, e: Effect) {
    && (th.polls == None ==> PendingOk(e.session, e.pc))
    && (th.polls.Some? ==> e.session == s || e.session == s.(pending := None))
    && (th.pc.Stopped? ==> e.pc.Stopped? && e.say == None)
  }

  lemma ThreadStepPending(core: M.State, s: Session, th: Thread, choice: Choice, tally: Tally)
    requires Holds(core, th.polls, th.pc)
    requires th.polls == None ==> PendingOk(s, th.pc)
    ensures SessionStep(s, th, ThreadStep(core, s, th, choice, tally))
  {
    if Pushing(th.pc) {
      PushPending(core, s, th.pc, choice, tally, th.polls.Some?);
    } else {
      match th.polls {
        case None => HandlerPending(core, s, th.pc, choice, tally);
        case Some(e) => PollerPending(core, s, e, th.pc, choice, tally);
      }
    }
  }

  // ---------------------------------------------------------------- accounting

  /** The gateway has created a ticket and not yet decided what becomes of it. */
  predicate InFlight(pc: PC) {
    pc.CreateReply? || pc.SettingPending? || pc.WritingQueued? || pc.Spawning?
  }

  function One(b: bool): nat {
    if b then 1 else 0
  }

  function Total(t: Tally): nat {
    t.lost + t.immediate + t.failedQueued
  }

  /** Tickets made by a step end up in exactly one account. */
  predicate Balanced(core: M.State, pc: PC, tally: Tally, e: Effect) {
    |e.core.tickets| + Total(tally) + One(InFlight(pc))
    == |core.tickets| + Total(e.tally) + One(e.spawn.Some?) + One(InFlight(e.pc))
  }

  lemma CreatedCounted(core: M.State, p: M.Payload)
    requires M.Inv(core)
    ensures |M.Created(core, p).0.tickets| == |core.tickets| + One(M.Created(core, p).1.Ok?)
  {
    if M.Acceptable(p) {
      L.CreatedKeys(core, p);
      assert |core.tickets.Keys + {core.nextTicket}| == |core.tickets| + 1;
    }
  }

  lemma CreatingBalanced(core: M.State, s: Session, pc: PC, choice: Choice, tally: Tally)
    requires M.Inv(core) && pc.Creating?
    ensures Balanced(core, pc, tally, HandlerStep(core, s, pc, choice, tally))
  {
    CreatedCounted(core, pc.payload);
  }

  lemma CancellingBalanced(core: M.State, s: Session, pc: PC, choice: Choice, tally: Tally)
    requires pc.Cancelling?
    ensures Balanced(core, pc, tally, HandlerStep(core, s, pc, choice, tally))
  {
    assert M.Next(core, M.Cancel(pc.ticketID)).tickets.Keys == core.tickets.Keys;
  }

  lemma OtherBalanced(core: M.State, s: Session, pc: PC, choice: Choice, tally: Tally)
    requires !pc.Creating? && !pc.Cancelling? && !Pushing(pc)
    ensures Balanced(core, pc, tally, HandlerStep(core, s, pc, choice, tally))
  {}

  lemma HandlerBalanced(core: M.State, s: Session, pc: PC, choice: Choice, tally: Tally)
    requires M.Inv(core) && !Pushing(pc)
    ensures Balanced(core, pc, tally, HandlerStep(core, s, pc, choice, tally))
  {
    if pc.Creating? {
      CreatingBalanced(core, s, pc, choice, tally);
    } else if pc.Cancelling? {
      CancellingBalanced(core, s, pc, choice, tally);
    } else {
      OtherBalanced(core, s, pc, choice, tally);
    }
  }

  lemma PushBalanced(core: M.State, s: Session, pc: PC, choice: Choice, tally: Tally, poller: bool)
    ensures Balanced(core, pc, tally, PushStep(core, s, pc, choice, tally, poller))
    ensures PushStep(core, s, pc, choice, tally, poller).spawn == None
  {}

  lemma PollerBalanced(core: M.State, s: Session, e: Enqueue, pc: PC, choice: Choice, tally: Tally)
    ensures Balanced(core, pc, tally, PollerStep(core, s, e, pc, choice, tally))
    ensures PollerStep(core, s, e, pc, choice, tally).spawn == None
  {}

  lemma ThreadStepBalanced(core: M.State, s: Session, th: Thread, choice: Choice, tally: Tally)
    requires M.Inv(core)
    ensures Balanced(core, th.pc, tally, ThreadStep(core, s, th, choice, tally))
    ensures th.polls.Some? ==> ThreadStep(core, s, th, choice, tally).spawn == None
  {
    if Pushing(th.pc) {
      PushBalanced(core, s, th.pc, choice, tally, th.polls.Some?);
    } else {
      match th.polls {
        case None => HandlerBalanced(core, s, th.pc, choice, tally);
        case Some(e) => PollerBalanced(core, s, e, th.pc, choice, tally);
      }
    }
  }

  // ---------------------------------------------------------------- the ticket counter

  /** How far the ticket counter is ahead of the tickets. */
  function Ahead(core: M.State): int {
    core.nextTicket - 1 - |core.tickets|
  }

  lemma HandlerCounts(core: M.State, s: Session, pc: PC, choice: Choice, tally: Tally)
    requires M.Inv(core) && Holds(core, None, pc)
    ensures Ahead(HandlerStep(core, s, pc, choice, tally).core) == Ahead(core)
  {
    if pc.Creating? {
      L.StepCount(core, M.Create(pc.payload));
    } else if pc.Cancelling? {
      L.StepCount(core, M.Cancel(pc.ticketID));
    } else {
      HandlerReads(core, s, pc, choice, tally);
    }
  }

  /** No request of the gateway uses up a ticket number without making a ticket. */
  lemma ThreadStepCounts(core: M.State, s: Session, th: Thread, choice: Choice, tally: Tally)
    requires M.Inv(core) && Holds(core, th.polls, th.pc)
    ensures Ahead(ThreadStep(core, s, th, choice, tally).core) == Ahead(core)
  {
    if Pushing(th.pc) {
      PushReads(core, s, th.pc, choice, tally, th.polls.Some?);
    } else {
      match th.polls {
        case None => HandlerCounts(core, s, th.pc, choice, tally);
        case Some(e) => PollerReads(core, s, e, th.pc, choice, tally);
      }
    }
  }

  // ---------------------------------------------------------------- the accounts

  /** Each account counts its event and nothing else: a creation that stored a ticket and lost its reply,
      an enqueue whose ticket was matched when its reply was read, and a queued reply that failed. */
  lemma TallyCounts(core: M.State, s: Session, th: Thread, choice: Choice, tally: Tally)
    ensures var after, pc := ThreadStep(core, s, th, choice, tally).tally, th.pc;
            && after.lost == tally.lost
               + One(th.polls == None && pc.Creating? && choice == ReplyLost && M.Created(core, pc.payload).1.Ok?)
            && after.immediate == tally.immediate
               + One(th.polls == None && pc.SettingPending? && choice == Proceed
                     && (pc.ticket.status == M.Matched || pc.ticket.matchID.Some?))
            && after.failedQueued == tally.failedQueued
               + One(th.polls == None && pc.WritingQueued? && choice == WriteFails)
  {}
}
