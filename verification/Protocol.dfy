// The gateway's match protocol as a step system: one handler per session and one poller per queued
// enqueue, interleaved with each other and with other users of the matchmaker. Every call to the
// matchmaker, every update of a session's pending ticket and every write is a step of its own.

module Protocol {
  import opened Wrappers
  import M = Matchmaker

  // ---------------------------------------------------------------- messages

  datatype Request =
    | Auth(requestID: string, playerID: string)
    | EnqueueMatch(requestID: string, gate: Gate, mmrScore: int, matchMode: string, maxWaitMS: int)
    | CancelMatch(requestID: string, ticketID: Option<nat>)
    | MatchStatus(requestID: string, ticketID: Option<nat>)
    | Ping(requestID: string)
    | Refused(requestID: string)  // over the rate limit, bad token, banned, or unknown type

  /** What ban lookup and maintenance state answer for an enqueue. */
  datatype Gate = Admitted | Banned | Maintenance

  /** The statuses that the gateway knows or writes. The matchmaker of this model never gives
      `TimedOut`; `StillWaiting` is the poller's own. */
  datatype Standing = InQueue | InMatch | CalledOff | TimedOut | StillWaiting

  function StandingOf(s: M.Status): Standing {
    match s
    case Queued => InQueue
    case Matched => InMatch
    case Cancelled => CalledOff
  }

  datatype Response =
    | Found(requestID: string, ticketID: nat, status: Standing, matchID: Option<nat>, roomID: Option<nat>,
            serverID: string, serverAddr: string, players: seq<M.Json>)
    | Queued(requestID: string, playerID: string, ticketID: nat, status: Standing)
    | Cancelled(requestID: string, ticketID: nat, status: Standing)
    | Status(requestID: string, ticketID: nat, status: Standing, matchID: Option<nat>, roomID: Option<nat>)
    | Error(requestID: string)
    | Notice(requestID: string)  // authed, pong or maintenance state

  /** A request, with the player and the pending ticket of its session when it was received. */
  datatype Receipt = Receipt(request: Request, playerID: Option<string>, pending: Option<nat>)

  /** An enqueue for which the matchmaker created a ticket; `receipt` says which request of its session
      it was, counted from one. */
  datatype Enqueue = Enqueue(receipt: nat, requestID: string, playerID: string, ticketID: nat)

  /** On whose behalf a message is written: an enqueue with a ticket, another request of the session
      counted from one, or none. */
  datatype Cause = ForEnqueue(enqueue: Enqueue) | ForRequest(receipt: nat, requestID: string) | Unasked

  function RequestOf(c: Cause): string {
    match c
    case ForEnqueue(e) => e.requestID
    case ForRequest(_, r) => r
    case Unasked => ""
  }

  // ---------------------------------------------------------------- threads and sessions

  datatype Tid = HandlerOf(session: nat) | PollerNo(n: nat)

  datatype PC =
    | Reading
    | Creating(requestID: string, player: string, payload: M.Payload)
    | CreateReply(enqueue: Enqueue)  // the ticket is stored, the reply is not yet read
    | SettingPending(enqueue: Enqueue, ticket: M.Ticket)
    | WritingQueued(enqueue: Enqueue, ticket: M.Ticket)
    | Spawning(enqueue: Enqueue)
    | Failing(enqueue: Enqueue)  // the ticket exists, and its request is answered with an error
    | Cancelling(requestID: string, ticketID: nat)
    | CancelReply(requestID: string, ticketID: nat)
    | ClearingCancelled(requestID: string, ticket: M.Ticket)
    | GettingStatus(requestID: string, ticketID: nat)
    | Writing(response: Response)
    | GettingResult(cause: Cause, ticket: M.Ticket)
    | ClearingFound(cause: Cause, response: Response)
    | WritingFound(cause: Cause, response: Response)
    | Polling
    | WritingPollError
    | ClearingPolled(ticket: M.Ticket)
    | WritingLast(response: Response)
    | Leaving  // one error is still written after a read failed
    | Stopped

  /** A poller carries the enqueue it polls for. */
  datatype Thread = Thread(session: nat, polls: Option<Enqueue>, pc: PC)

  /** `created` lists the tickets of which the session learned, in order: a ticket whose creation
      reply was lost is stored in the matchmaker, but not in this list. `heard` lists the requests. */
  datatype Session = Session(
    playerID: Option<string>, pending: Option<nat>, created: seq<nat>, heard: seq<Receipt>, open: bool)

  // ---------------------------------------------------------------- one thread's step

  /** What the environment contributes to a step. */
  datatype Choice =
    | Receive(request: Request)
    | HangUp     // end of file or a closed connection
    | ReadFails  // any other error of the reader
    | CallOk
    | CallFails  // the call has no effect, or it reads and its reply cannot be decoded
    | ReplyLost  // the call has its effect, but its reply does not arrive or cannot be decoded
    | WriteOk
    | WriteFails
    | Proceed
    | TimerFires
    | ContextDone

  /** Tickets whose reply was lost, enqueues answered with a match at once, and queued replies that
      could not be written. */
  datatype Tally = Tally(lost: nat, immediate: nat, failedQueued: nat)

  datatype Message = Message(cause: Cause, response: Response)

  /** The local outcome of a step. */
  datatype Effect = Effect(
    core: M.State, session: Session, pc: PC, tally: Tally, say: Option<Message>, spawn: Option<Enqueue>)

  predicate IsMatched(t: M.Ticket) {
    StandingOf(t.status) == InMatch || t.matchID.Some?
  }

  function FromTicket(requestID: string, t: M.Ticket): Response {
    Found(requestID, t.ticketID, StandingOf(t.status), t.matchID, t.roomID, "", "", [])
  }

  function FromResult(requestID: string, t: M.Ticket, r: M.MatchResult): Response {
    Found(requestID, t.ticketID, StandingOf(r.status), Some(r.matchID), Some(r.roomID),
          r.serverID, r.serverAddr, r.playerIDs)
  }

  /** Pushing a match starts with its result, if the ticket names one. */
  function Push(c: Cause, t: M.Ticket): PC {
    if t.matchID.Some? then GettingResult(c, t) else ClearingFound(c, FromTicket(RequestOf(c), t))
  }

  /** A push that returns an error: the handler reports it, the poller drops it. */
  function PushFailed(c: Cause, poller: bool): PC {
    if poller then Stopped
    else
      match c
      case ForEnqueue(e) => Failing(e)
      case _ => Writing(Error(RequestOf(c)))
  }

  /** The body of a ticket request; every member is always sent. */
  function TicketRequest(player: string, score: int, mode: string, wait: int): M.Payload {
    M.Body(Some(M.Text(player)), Some(M.Number(score as real)), Some(M.Text(mode)), Some(M.Number(wait as real)))
  }

  function Received(s: Session, r: Request): (Session, PC) {
    match r
    case Auth(id, player) =>
      if player == "" then (s, Writing(Error(id))) else (s.(playerID := Some(player)), Writing(Notice(id)))
    case EnqueueMatch(id, gate, score, mode, wait) =>
      if s.playerID == None || gate == Banned then (s, Writing(Error(id)))
      else if gate == Maintenance then (s, Writing(Notice(id)))
      else (s, Creating(id, s.playerID.value, TicketRequest(s.playerID.value, score, mode, wait)))
    case CancelMatch(id, ticket) =>
      var target := if ticket.Some? then ticket else s.pending;
      if s.playerID == None || target == None then (s, Writing(Error(id))) else (s, Cancelling(id, target.value))
    case MatchStatus(id, ticket) =>
      var target := if ticket.Some? then ticket else s.pending;
      if s.playerID == None || target == None then (s, Writing(Error(id))) else (s, GettingStatus(id, target.value))
    case Ping(id) => (s, Writing(Notice(id)))
    case Refused(id) => (s, Writing(Error(id)))
  }

  /** A poll that got the ticket. */
  function Polled(e: Enqueue, t: M.Ticket): PC {
    if IsMatched(t) then Push(ForEnqueue(e), t)
    else if StandingOf(t.status) == CalledOff || StandingOf(t.status) == TimedOut then ClearingPolled(t)
    else Polling
  }

  function StatusOf(requestID: string, t: M.Ticket): Response {
    Status(requestID, t.ticketID, StandingOf(t.status), t.matchID, t.roomID)
  }

  /** One step of a handler outside the match push. A choice that does not fit changes nothing. */
  function HandlerStep(core: M.State, s: Session, pc: PC, choice: Choice, tally: Tally): Effect {
    var stay := Effect(core, s, pc, tally, None, None);
    match pc
    case Reading =>
      (match choice
       case Receive(r) =>
         var (s', pc') := Received(s, r);
         stay.(session := s'.(heard := s.heard + [Receipt(r, s.playerID, s.pending)]), pc := pc')
       case HangUp => stay.(session := s.(open := false), pc := Stopped)
       case ReadFails => stay.(pc := Leaving)
       case _ => stay)
    case Leaving =>
      var closed := stay.(session := s.(open := false), pc := Stopped);
      (match choice
       case WriteOk => closed.(say := Some(Message(Unasked, Error(""))))
       case WriteFails => closed
       case _ => stay)
    case Creating(id, player, payload) =>
      var (core', r) := M.Created(core, payload);
      (match choice
       case CallOk =>
         if r.Err? then stay.(core := core', pc := Writing(Error(id)))
         else stay.(core := core', session := s.(created := s.created + [r.value]),
                    pc := CreateReply(Enqueue(|s.heard|, id, player, r.value)))
       case CallFails => stay.(pc := Writing(Error(id)))
       case ReplyLost =>
         stay.(core := core', pc := Writing(Error(id)),
               tally := if r.Ok? then tally.(lost := tally.lost + 1) else tally)
       case _ => stay)
    case CreateReply(e) =>
      if choice == Proceed && e.ticketID in core.tickets
      then stay.(pc := SettingPending(e, core.tickets[e.ticketID])) else stay
    case SettingPending(e, t) =>
      if choice != Proceed then stay
      else if IsMatched(t)
      then stay.(session := s.(pending := Some(t.ticketID)), pc := Push(ForEnqueue(e), t),
                 tally := tally.(immediate := tally.immediate + 1))
      else stay.(session := s.(pending := Some(t.ticketID)), pc := WritingQueued(e, t))
    case WritingQueued(e, t) =>
      (match choice
       case WriteOk =>
         stay.(pc := Spawning(e),
               say := Some(Message(ForEnqueue(e), Queued(e.requestID, e.playerID, t.ticketID, StandingOf(t.status)))))
       case WriteFails =>
         stay.(pc := Failing(e), tally := tally.(failedQueued := tally.failedQueued + 1))
       case _ => stay)
    case Failing(e) =>
      (match choice
       case WriteOk => stay.(pc := Reading, say := Some(Message(ForEnqueue(e), Error(e.requestID))))
       case WriteFails => stay.(pc := Reading)
       case _ => stay)
    case Spawning(e) => if choice == Proceed then stay.(pc := Reading, spawn := Some(e)) else stay
    case Cancelling(id, ticket) =>
      var known := ticket in core.tickets;
      var core' := M.Next(core, M.Cancel(ticket));
      (match choice
       case CallOk => stay.(core := core', pc := if known then CancelReply(id, ticket) else Writing(Error(id)))
       case CallFails => stay.(pc := Writing(Error(id)))
       case ReplyLost => stay.(core := core', pc := Writing(Error(id)))
       case _ => stay)
    case CancelReply(id, ticket) =>
      if choice == Proceed && ticket in core.tickets
      then stay.(pc := ClearingCancelled(id, core.tickets[ticket])) else stay
    case ClearingCancelled(id, t) =>
      if choice == Proceed
      then stay.(session := s.(pending := None), pc := Writing(Cancelled(id, t.ticketID, StandingOf(t.status))))
      else stay
    case GettingStatus(id, ticket) =>
      (match choice
       case CallOk =>
         if ticket !in core.tickets then stay.(pc := Writing(Error(id)))
         else
           var t := core.tickets[ticket];
           stay.(pc := if IsMatched(t) then Push(ForRequest(|s.heard|, id), t) else Writing(StatusOf(id, t)))
       case CallFails => stay.(pc := Writing(Error(id)))
       case _ => stay)
    case Writing(r) =>
      (match choice
       case WriteOk => stay.(pc := Reading, say := Some(Message(ForRequest(|s.heard|, r.requestID), r)))
       case WriteFails => stay.(pc := if r.Error? then Reading else Writing(Error(r.requestID)))
       case _ => stay)
    case _ => stay
  }

  /** One step of a match push, by a handler or a poller. */
  function PushStep(core: M.State, s: Session, pc: PC, choice: Choice, tally: Tally, poller: bool): Effect {
    var stay := Effect(core, s, pc, tally, None, None);
    match pc
    case GettingResult(c, t) =>
      (match choice
       case CallOk =>
         if t.matchID.Some? && t.matchID.value in core.results
         then stay.(pc := ClearingFound(c, FromResult(RequestOf(c), t, core.results[t.matchID.value])))
         else stay.(pc := PushFailed(c, poller))
       case CallFails => stay.(pc := PushFailed(c, poller))
       case _ => stay)
    case ClearingFound(c, r) =>
      if choice == Proceed then stay.(session := s.(pending := None), pc := WritingFound(c, r)) else stay
    case WritingFound(c, r) =>
      (match choice
       case WriteOk => stay.(pc := if poller then Stopped else Reading, say := Some(Message(c, r)))
       case WriteFails => stay.(pc := PushFailed(c, poller))
       case _ => stay)
    case _ => stay
  }

  /** One step of a poller outside the match push. */
  function PollerStep(core: M.State, s: Session, e: Enqueue, pc: PC, choice: Choice, tally: Tally): Effect {
    var stay := Effect(core, s, pc, tally, None, None);
    match pc
    case Polling =>
      (match choice
       case ContextDone => if s.open then stay else stay.(pc := Stopped)
       case TimerFires => stay.(pc := WritingLast(Status(e.requestID, e.ticketID, StillWaiting, None, None)))
       case CallOk =>
         stay.(pc := if e.ticketID in core.tickets then Polled(e, core.tickets[e.ticketID]) else WritingPollError)
       case CallFails => stay.(pc := WritingPollError)
       case _ => stay)
    case WritingPollError =>
      (match choice
       case WriteOk => stay.(pc := Polling, say := Some(Message(ForEnqueue(e), Error(e.requestID))))
       case WriteFails => stay.(pc := Polling)
       case _ => stay)
    case ClearingPolled(t) =>
      if choice == Proceed
      then stay.(session := s.(pending := None),
                 pc := WritingLast(Status(e.requestID, t.ticketID, StandingOf(t.status), None, None)))
      else stay
    case WritingLast(r) =>
      (match choice
       case WriteOk => stay.(pc := Stopped, say := Some(Message(ForEnqueue(e), r)))
       case WriteFails => stay.(pc := Stopped)
       case _ => stay)
    case _ => stay
  }

  predicate Pushing(pc: PC) {
    pc.GettingResult? || pc.ClearingFound? || pc.WritingFound?
  }

  function ThreadStep(core: M.State, s: Session, th: Thread, choice: Choice, tally: Tally): Effect {
    if Pushing(th.pc) then PushStep(core, s, th.pc, choice, tally, th.polls.Some?)
    else
      match th.polls
      case None => HandlerStep(core, s, th.pc, choice, tally)
      case Some(e) => PollerStep(core, s, e, th.pc, choice, tally)
  }

  // ---------------------------------------------------------------- the whole system

  datatype Sent = Sent(thread: Tid, session: nat, message: Message)

  /** `foreign` counts the tickets that other users of the matchmaker created. */
  datatype State = State(
    core: M.State, sessions: map<nat, Session>, threads: map<Tid, Thread>, nextPoller: nat,
    sent: seq<Sent>, tally: Tally, foreign: nat)

  const Initial := State(M.Empty, map[], map[], 0, [], Tally(0, 0, 0), 0)

  datatype Label = Connect(session: nat) | Foreign(op: M.Op) | Act(thread: Tid, choice: Choice)

  function Spawned(s: State, session: nat, spawn: Option<Enqueue>): map<Tid, Thread> {
    match spawn
    case None => s.threads
    case Some(e) => s.threads[PollerNo(s.nextPoller) := Thread(session, Some(e), Polling)]
  }

  function Applied(s: State, t: Tid, e: Effect): State
    requires t in s.threads
  {
    var th := s.threads[t];
    State(e.core,
          s.sessions[th.session := e.session],
          Spawned(s, th.session, e.spawn)[t := th.(pc := e.pc)],
          if e.spawn.Some? then s.nextPoller + 1 else s.nextPoller,
          match e.say case None => s.sent case Some(m) => s.sent + [Sent(t, th.session, m)],
          e.tally,
          s.foreign)
  }

  function Connected(s: State, session: nat): State {
    s.(sessions := s.sessions[session := Session(None, None, [], [], true)],
       threads := s.threads[HandlerOf(session) := Thread(session, None, Reading)])
  }

  function Made(before: M.State, after: M.State): nat {
    if |after.tickets| > |before.tickets| then |after.tickets| - |before.tickets| else 0
  }

  function Step(s: State, step: Label): State {
    match step
    case Connect(k) => if k in s.sessions then s else Connected(s, k)
    case Foreign(op) =>
      var core' := M.Next(s.core, op);
      s.(core := core', foreign := s.foreign + Made(s.core, core'))
    case Act(t, choice) =>
      if t in s.threads && s.threads[t].session in s.sessions
      then Applied(s, t, ThreadStep(s.core, s.sessions[s.threads[t].session], s.threads[t], choice, s.tally))
      else s
  }

  function Run(labels: seq<Label>): State {
    if labels == [] then Initial else Step(Run(labels[..|labels| - 1]), labels[|labels| - 1])
  }
}
