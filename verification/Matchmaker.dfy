// The demonstration matchmaker: at most one ticket waits per mode, and the next ticket of that mode
// is paired with it. Its dictionaries are maps, and every operation runs under one lock, so it is
// one step. Tickets, matches and rooms are named by the number in their identifier, and the empty
// identifier is `None`; a string that leads to no ticket acts like a number that was never issued.

module Matchmaker {
  import opened Wrappers

  /** What a request body may hold; nothing checks it against a schema. */
  datatype Json =
    | Null
    | Bool(flag: bool)
    | Number(value: real)
    | NotFinite(name: string)  // NaN and the infinities, which Python's reader takes for numbers
    | Text(text: string)
    | List(items: seq<Json>)
    | Object(members: map<string, Json>)

  datatype Status = Queued | Matched | Cancelled

  datatype Ticket = Ticket(
    ticketID: nat, playerID: Json, mmrScore: Json, matchMode: Json,
    status: Status, matchID: Option<nat>, roomID: Option<nat>)

  datatype MatchResult = MatchResult(
    matchID: nat, roomID: nat, serverID: string, serverAddr: string,
    matchMode: Json, playerIDs: seq<Json>, status: Status)

  /** The request body of a new ticket; absent members are `None`. */
  datatype Payload =
    | NoObject
    | Body(playerID: Option<Json>, mmrScore: Option<Json>, matchMode: Option<Json>, maxWaitMs: Option<Json>)

  datatype Failure = AttributeError | KeyError | TypeError

  const SERVER_ID := "demo-room-1"
  const SERVER_ADDR := "127.0.0.1:7001"
  const DEFAULT_MODE := Text("duel")
  const DEFAULT_SCORE := Number(1000.0)

  predicate Falsy(v: Json) {
    v in {Null, Bool(false), Number(0.0), Text(""), List([]), Object(map[])}
  }

  /** Can be added to a number; truth values can. */
  predicate Numeric(v: Json) {
    v.Number? || v.NotFinite? || v.Bool?
  }

  predicate Hashable(v: Json) {
    !v.List? && !v.Object?
  }

  /** What a mode is as a dictionary key: true is the number one. Tickets and results keep the mode
      as it was sent. */
  function Key(v: Json): Json {
    if v == Bool(true) then Number(1.0) else v
  }

  function Mode(p: Payload): Json
    requires p.Body?
  {
    if p.matchMode == None || Falsy(p.matchMode.value) then DEFAULT_MODE else p.matchMode.value
  }

  function Score(p: Payload): Json
    requires p.Body?
  {
    if p.mmrScore == None then DEFAULT_SCORE else p.mmrScore.value
  }

  /** An object that names a player, whose waiting time is a number and whose mode can be a
      dictionary key, where they are given. */
  predicate Acceptable(p: Payload) {
    && p.Body?
    && p.playerID.Some?
    && (p.maxWaitMs == None || Numeric(p.maxWaitMs.value))
    && (p.matchMode == None || Falsy(p.matchMode.value) || Hashable(p.matchMode.value))
  }

  /** The first operation that fails on a request, in the order of the code. */
  function Refusal(p: Payload): (r: Option<Failure>)
    ensures r == None <==> Acceptable(p)
  {
    if p.NoObject? then Some(AttributeError)
    else if p.playerID == None then Some(KeyError)
    else if p.maxWaitMs.Some? && !Numeric(p.maxWaitMs.value) then Some(TypeError)
    else if !Hashable(Mode(p)) then Some(TypeError)
    else None
  }

  // ---------------------------------------------------------------- specification

  datatype State = State(
    nextTicket: nat, nextMatch: nat, waiting: map<Json, nat>,
    tickets: map<nat, Ticket>, results: map<nat, MatchResult>)

  const Empty := State(1, 1, map[], map[], map[])

  function NewTicket(n: nat, player: Json, score: Json, mode: Json): Ticket {
    Ticket(n, player, score, mode, Queued, None, None)
  }

  function Paired(t: Ticket, n: nat): Ticket {
    t.(status := Matched, matchID := Some(n), roomID := Some(n))
  }

  function Pairing(n: nat, mode: Json, first: Json, second: Json): MatchResult {
    MatchResult(n, n, SERVER_ID, SERVER_ADDR, mode, [first, second], Matched)
  }

  /** The ticket waits; nothing was waiting in its mode. */
  function Parked(s: State, t: Ticket): State {
    s.(nextTicket := s.nextTicket + 1,
       waiting := s.waiting[Key(t.matchMode) := t.ticketID],
       tickets := s.tickets[t.ticketID := t])
  }

  /** The ticket is paired with the waiting one. */
  function Joined(s: State, t: Ticket, other: nat): State
    requires other in s.tickets
  {
    var n := s.nextMatch;
    State(s.nextTicket + 1, n + 1, s.waiting - {Key(t.matchMode)},
          s.tickets[other := Paired(s.tickets[other], n)][t.ticketID := Paired(t, n)],
          s.results[n := Pairing(n, t.matchMode, s.tickets[other].playerID, t.playerID)])
  }

  /** The ticket counter moved and nothing else happened. */
  function Skipped(s: State): State {
    s.(nextTicket := s.nextTicket + 1)
  }

  /** The ticket that an acceptable request asks for. */
  function Asked(s: State, p: Payload): Ticket
    requires Acceptable(p)
  {
    NewTicket(s.nextTicket, p.playerID.value, Score(p), Mode(p))
  }

  /** Everything that can fail does so after the ticket counter has moved, and before any dictionary
      has changed. */
  function Created(s: State, p: Payload): (State, Result<nat, Failure>) {
    match Refusal(p)
    case Some(failure) => (Skipped(s), Err(failure))
    case None =>
      var t := Asked(s, p);
      if Key(t.matchMode) !in s.waiting then (Parked(s, t), Ok(t.ticketID))
      else if s.waiting[Key(t.matchMode)] !in s.tickets then (Skipped(s), Err(KeyError))
      else (Joined(s, t, s.waiting[Key(t.matchMode)]), Ok(t.ticketID))
  }

  /** A matched ticket can be cancelled too: it changes its status but keeps its match. */
  function Dropped(s: State, id: nat): State
    requires id in s.tickets
  {
    s.(tickets := s.tickets[id := s.tickets[id].(status := Cancelled)],
       waiting := map mode | mode in s.waiting && s.waiting[mode] != id :: s.waiting[mode])
  }

  datatype Op = Create(payload: Payload) | Cancel(ticketID: nat)

  function Next(s: State, op: Op): State {
    match op
    case Create(p) => Created(s, p).0
    case Cancel(id) => if id in s.tickets then Dropped(s, id) else s
  }

  function RunFrom(s: State, ops: seq<Op>): State {
    if ops == [] then s else Next(RunFrom(s, ops[..|ops| - 1]), ops[|ops| - 1])
  }

  function Run(ops: seq<Op>): State {
    RunFrom(Empty, ops)
  }

  // ---------------------------------------------------------------- invariant

  /** Tickets `i` and `j` are the two tickets of match `m`, in creation order. */
  ghost predicate PairOf(s: State, m: nat, i: nat, j: nat) {
    && m in s.results && i < j
    && i in s.tickets && j in s.tickets
    && s.tickets[i].matchID == Some(m) && s.tickets[j].matchID == Some(m)
    && (forall id | id in s.tickets && s.tickets[id].matchID == Some(m) :: id == i || id == j)
    && s.results[m].playerIDs == [s.tickets[i].playerID, s.tickets[j].playerID]
    && s.results[m].matchMode == s.tickets[j].matchMode
  }

  ghost predicate HasPair(s: State, m: nat) {
    exists i: nat, j: nat :: PairOf(s, m, i, j)
  }

  predicate TicketOk(s: State, id: nat) {
    && id in s.tickets
    && 1 <= id < s.nextTicket
    && var t := s.tickets[id];
    && t.ticketID == id
    && (t.matchID == None ==> t.roomID == None && (t.status == Queued || t.status == Cancelled))
    && (t.matchID.Some? ==>
          && (t.status == Matched || t.status == Cancelled)
          && t.matchID.value in s.results
          && t.roomID == Some(s.results[t.matchID.value].roomID)
          && Key(t.matchMode) == Key(s.results[t.matchID.value].matchMode))
    && (t.status == Queued <==> Key(t.matchMode) in s.waiting && s.waiting[Key(t.matchMode)] == id)
  }

  predicate WaitingOk(s: State, mode: Json) {
    && mode in s.waiting
    && s.waiting[mode] in s.tickets
    && Key(s.tickets[s.waiting[mode]].matchMode) == mode
    && s.tickets[s.waiting[mode]].status == Queued
  }

  ghost predicate ResultOk(s: State, m: nat) {
    && m in s.results
    && 1 <= m < s.nextMatch
    && s.results[m].matchID == m && s.results[m].roomID == m && s.results[m].status == Matched
    && s.results[m].serverID == SERVER_ID && s.results[m].serverAddr == SERVER_ADDR
    && HasPair(s, m)
  }

  ghost predicate Inv(s: State) {
    && s.nextTicket >= 1 && s.nextMatch >= 1
    && (forall id | id in s.tickets :: TicketOk(s, id))
    && (forall mode | mode in s.waiting :: WaitingOk(s, mode))
    && (forall m | m in s.results :: ResultOk(s, m))
  }

  lemma SkippedInv(s: State)
    requires Inv(s)
    ensures Inv(Skipped(s))
  {
    var s' := Skipped(s);
    forall id | id in s'.tickets ensures TicketOk(s', id) {
      assert TicketOk(s, id);
    }
    forall mode | mode in s'.waiting ensures WaitingOk(s', mode) {
      assert WaitingOk(s, mode);
    }
    forall m | m in s'.results ensures ResultOk(s', m) {
      assert ResultOk(s, m);
      var i: nat, j: nat :| PairOf(s, m, i, j);
      assert PairOf(s', m, i, j);
    }
  }

  lemma ParkedTickets(s: State, t: Ticket)
    requires Inv(s) && t == NewTicket(s.nextTicket, t.playerID, t.mmrScore, t.matchMode)
    requires Key(t.matchMode) !in s.waiting
    ensures t.ticketID !in s.tickets
    ensures forall id | id in Parked(s, t).tickets :: TicketOk(Parked(s, t), id)
    ensures forall mode | mode in Parked(s, t).waiting :: WaitingOk(Parked(s, t), mode)
  {
    var s' := Parked(s, t);
    assert t.ticketID in s.tickets ==> TicketOk(s, t.ticketID);
    forall id | id in s'.tickets ensures TicketOk(s', id) {
      assert id in s.tickets ==> TicketOk(s, id);
    }
    forall mode | mode in s'.waiting ensures WaitingOk(s', mode) {
      assert mode in s.waiting ==> WaitingOk(s, mode);
    }
  }

  lemma ParkedKeepsPair(s: State, t: Ticket, m: nat)
    requires t.ticketID !in s.tickets && t.matchID == None && HasPair(s, m)
    ensures HasPair(Parked(s, t), m)
  {
    var i: nat, j: nat :| PairOf(s, m, i, j);
    assert PairOf(Parked(s, t), m, i, j);
  }

  lemma ParkedKeepsResult(s: State, t: Ticket, m: nat)
    requires Inv(s) && t == NewTicket(s.nextTicket, t.playerID, t.mmrScore, t.matchMode)
    requires t.ticketID !in s.tickets && m in s.results
    ensures ResultOk(Parked(s, t), m)
  {
    assert ResultOk(s, m);
    ParkedKeepsPair(s, t, m);
  }

  lemma ParkedInv(s: State, t: Ticket)
    requires Inv(s) && t == NewTicket(s.nextTicket, t.playerID, t.mmrScore, t.matchMode)
    requires Key(t.matchMode) !in s.waiting
    ensures Inv(Parked(s, t))
  {
    ParkedTickets(s, t);
    forall m | m in s.results ensures ResultOk(Parked(s, t), m) {
      ParkedKeepsResult(s, t, m);
    }
  }

  lemma JoinedTickets(s: State, t: Ticket, other: nat)
    requires Inv(s) && t == NewTicket(s.nextTicket, t.playerID, t.mmrScore, t.matchMode)
    requires Key(t.matchMode) in s.waiting && s.waiting[Key(t.matchMode)] == other && other in s.tickets
    ensures t.ticketID !in s.tickets && s.nextMatch !in s.results
    ensures forall id | id in Joined(s, t, other).tickets :: TicketOk(Joined(s, t, other), id)
    ensures forall mode | mode in Joined(s, t, other).waiting :: WaitingOk(Joined(s, t, other), mode)
  {
    var s' := Joined(s, t, other);
    assert t.ticketID in s.tickets ==> TicketOk(s, t.ticketID);
    assert s.nextMatch in s.results ==> ResultOk(s, s.nextMatch);
    assert TicketOk(s, other) && WaitingOk(s, Key(t.matchMode));
    forall id | id in s'.tickets ensures TicketOk(s', id) {
      assert id in s.tickets ==> TicketOk(s, id);
    }
    forall mode | mode in s'.waiting ensures WaitingOk(s', mode) {
      assert WaitingOk(s, mode);
      assert TicketOk(s, s.waiting[mode]);
    }
  }

  lemma JoinedPair(s: State, t: Ticket, other: nat)
    requires Inv(s) && t == NewTicket(s.nextTicket, t.playerID, t.mmrScore, t.matchMode)
    requires other in s.tickets && t.ticketID !in s.tickets && s.nextMatch !in s.results
    ensures PairOf(Joined(s, t, other), s.nextMatch, other, t.ticketID)
  {
    assert TicketOk(s, other);
    forall id | id in s.tickets ensures s.tickets[id].matchID != Some(s.nextMatch) {
      assert TicketOk(s, id);
    }
  }

  lemma JoinedKeepsPair(s: State, t: Ticket, other: nat, m: nat)
    requires other in s.tickets && s.tickets[other].matchID == None && other != t.ticketID
    requires t.ticketID !in s.tickets && m in s.results && m != s.nextMatch
    requires HasPair(s, m)
    ensures HasPair(Joined(s, t, other), m)
  {
    var i: nat, j: nat :| PairOf(s, m, i, j);
    assert PairOf(Joined(s, t, other), m, i, j);
  }

  lemma JoinedKeepsResult(s: State, t: Ticket, other: nat, m: nat)
    requires Inv(s) && t == NewTicket(s.nextTicket, t.playerID, t.mmrScore, t.matchMode)
    requires other in s.tickets && s.tickets[other].matchID == None
    requires t.ticketID !in s.tickets && s.nextMatch !in s.results
    requires m in s.results
    ensures ResultOk(Joined(s, t, other), m)
  {
    assert ResultOk(s, m);
    JoinedKeepsPair(s, t, other, m);
  }

  lemma JoinedInv(s: State, t: Ticket, other: nat)
    requires Inv(s) && t == NewTicket(s.nextTicket, t.playerID, t.mmrScore, t.matchMode)
    requires Key(t.matchMode) in s.waiting && s.waiting[Key(t.matchMode)] == other && other in s.tickets
    ensures Inv(Joined(s, t, other))
  {
    JoinedTickets(s, t, other);
    JoinedPair(s, t, other);
    assert TicketOk(s, other) && WaitingOk(s, Key(t.matchMode));
    forall m | m in s.results ensures ResultOk(Joined(s, t, other), m) {
      JoinedKeepsResult(s, t, other, m);
    }
    assert ResultOk(Joined(s, t, other), s.nextMatch);
  }

  lemma DroppedKeepsPair(s: State, id: nat, m: nat)
    requires id in s.tickets && HasPair(s, m)
    ensures HasPair(Dropped(s, id), m)
  {
    var i: nat, j: nat :| PairOf(s, m, i, j);
    assert PairOf(Dropped(s, id), m, i, j);
  }

  lemma DroppedKeepsResult(s: State, id: nat, m: nat)
    requires Inv(s) && id in s.tickets && m in s.results
    ensures ResultOk(Dropped(s, id), m)
  {
    assert ResultOk(s, m);
    DroppedKeepsPair(s, id, m);
  }

  lemma DroppedInv(s: State, id: nat)
    requires Inv(s) && id in s.tickets
    ensures Inv(Dropped(s, id))
  {
    var s' := Dropped(s, id);
    assert TicketOk(s, id);
    forall k | k in s'.tickets ensures TicketOk(s', k) {
      assert TicketOk(s, k);
    }
    forall mode | mode in s'.waiting ensures WaitingOk(s', mode) {
      assert WaitingOk(s, mode);
    }
    forall m | m in s'.results ensures ResultOk(s', m) {
      DroppedKeepsResult(s, id, m);
    }
  }

  lemma StepInv(s: State, op: Op)
    requires Inv(s)
    ensures Inv(Next(s, op))
  {
    match op {
      case Create(p) =>
        if !Acceptable(p) {
          SkippedInv(s);
        } else {
          var t := Asked(s, p);
          if Key(t.matchMode) in s.waiting {
            assert WaitingOk(s, Key(t.matchMode));
            JoinedInv(s, t, s.waiting[Key(t.matchMode)]);
          } else {
            ParkedInv(s, t);
          }
        }
      case Cancel(id) =>
        if id in s.tickets {
          DroppedInv(s, id);
        }
    }
  }

  lemma {:induction false} RunInv(s: State, ops: seq<Op>)
    requires Inv(s)
    ensures Inv(RunFrom(s, ops))
  {
    if ops != [] {
      RunInv(s, ops[..|ops| - 1]);
      StepInv(RunFrom(s, ops[..|ops| - 1]), ops[|ops| - 1]);
    }
  }

  // ---------------------------------------------------------------- implementation

  class FakeCoreRankState {
    var nextTicket: nat
    var nextMatch: nat
    var waitingByMode: map<Json, nat>
    var tickets: map<nat, Ticket>
    var results: map<nat, MatchResult>

    constructor ()
      ensures View() == Empty
    {
      nextTicket, nextMatch := 1, 1;
      waitingByMode, tickets, results := map[], map[], map[];
    }

    function View(): State
      reads this
    {
      State(nextTicket, nextMatch, waitingByMode, tickets, results)
    }

    method CreateTicket(payload: Payload) returns (r: Result<Ticket, Failure>)
      modifies this
      ensures View() == Created(old(View()), payload).0
      ensures match Created(old(View()), payload).1
              case Ok(id) => id in tickets && r == Ok(tickets[id])
              case Err(e) => r == Err(e)
    {
      var ticketID := nextTicket;
      nextTicket := nextTicket + 1;
      if payload.NoObject? {
        return Err(AttributeError);
      }
      var mode := if payload.matchMode == None || Falsy(payload.matchMode.value) then DEFAULT_MODE
                  else payload.matchMode.value;
      if payload.playerID == None {
        return Err(KeyError);
      }
      var playerID := payload.playerID.value;
      var score := if payload.mmrScore == None then DEFAULT_SCORE else payload.mmrScore.value;
      if payload.maxWaitMs.Some? && !Numeric(payload.maxWaitMs.value) {
        return Err(TypeError);
      }
      var ticket := Ticket(ticketID, playerID, score, mode, Queued, None, None);
      if !Hashable(mode) {
        return Err(TypeError);
      }
      if Key(mode) in waitingByMode {
        var waiting := waitingByMode[Key(mode)];
        if waiting !in tickets {
          return Err(KeyError);
        }
        var first := tickets[waiting];
        var matchID, roomID := nextMatch, nextMatch;
        nextMatch := nextMatch + 1;
        var players := [first.playerID, playerID];
        var result := MatchResult(matchID, roomID, SERVER_ID, SERVER_ADDR, mode, players, Matched);
        tickets := tickets[waiting := first.(status := Matched, matchID := Some(matchID), roomID := Some(roomID))];
        ticket := ticket.(status := Matched, matchID := Some(matchID), roomID := Some(roomID));
        results := results[matchID := result];
        waitingByMode := waitingByMode - {Key(mode)};
      } else {
        waitingByMode := waitingByMode[Key(mode) := ticketID];
      }
      tickets := tickets[ticketID := ticket];
      return Ok(ticket);
    }

    method GetTicket(ticketID: nat) returns (r: Result<Ticket, Failure>)
      ensures r == if ticketID in tickets then Ok(tickets[ticketID]) else Err(KeyError)
    {
      if ticketID !in tickets {
        return Err(KeyError);
      }
      return Ok(tickets[ticketID]);
    }

    method CancelTicket(ticketID: nat) returns (r: Result<Ticket, Failure>)
      modifies this`tickets, this`waitingByMode
      ensures View() == Next(old(View()), Cancel(ticketID))
      ensures r == if ticketID in tickets then Ok(tickets[ticketID]) else Err(KeyError)
    {
      if ticketID !in tickets {
        return Err(KeyError);
      }
      tickets := tickets[ticketID := tickets[ticketID].(status := Cancelled)];
      var items := waitingByMode.Keys;
      ghost var before := waitingByMode;
      while items != {}
        invariant items <= waitingByMode.Keys <= before.Keys
        invariant forall m | m in waitingByMode :: waitingByMode[m] == before[m]
        invariant forall m | m in before && m !in items :: m in waitingByMode <==> before[m] != ticketID
        invariant tickets == old(tickets)[ticketID := old(tickets)[ticketID].(status := Cancelled)]
        decreases |items|
      {
        var mode :| mode in items;
        if waitingByMode[mode] == ticketID {
          waitingByMode := waitingByMode - {mode};
        }
        items := items - {mode};
      }
      assert waitingByMode == map m | m in before && before[m] != ticketID :: before[m];
      return Ok(tickets[ticketID]);
    }

    method GetResult(matchID: nat) returns (r: Result<MatchResult, Failure>)
      ensures r == if matchID in results then Ok(results[matchID]) else Err(KeyError)
    {
      if matchID !in results {
        return Err(KeyError);
      }
      return Ok(results[matchID]);
    }
  }
}
