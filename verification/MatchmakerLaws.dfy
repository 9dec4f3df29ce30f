// What every run of the matchmaker keeps: assignments are exact and permanent, tickets are
// conserved, and each mode pairs as many tickets as it can.

module MatchmakerLaws {
  import opened Wrappers
  import opened Matchmaker

  lemma ReachableInv(ops: seq<Op>)
    ensures Inv(Run(ops))
  {
    RunInv(Empty, ops);
  }

  // ---------------------------------------------------------------- exact assignment

  /** Every result belongs to exactly two distinct tickets of its mode, which carry its match and
      room; it lists their players in creation order. */
  lemma MatchIsExact(ops: seq<Op>, m: nat)
    requires m in Run(ops).results
    ensures var s := Run(ops);
            exists i: nat, j: nat ::
              && PairOf(s, m, i, j)
              && Key(s.tickets[i].matchMode) == Key(s.tickets[j].matchMode) == Key(s.results[m].matchMode)
              && s.tickets[i].roomID == s.tickets[j].roomID == Some(s.results[m].roomID)
  {
    var s := Run(ops);
    ReachableInv(ops);
    assert ResultOk(s, m);
    var i: nat, j: nat :| PairOf(s, m, i, j);
    assert TicketOk(s, i) && TicketOk(s, j);
  }

  /** A ticket that has a match was counted in it: the result exists and lists its player. */
  lemma MatchedTicket(s: State, id: nat)
    requires Inv(s) && id in s.tickets && s.tickets[id].matchID.Some?
    ensures var m := s.tickets[id].matchID.value;
            && m in s.results
            && s.results[m].matchID == m
            && s.tickets[id].playerID in s.results[m].playerIDs
            && s.tickets[id].roomID == Some(s.results[m].roomID)
  {
    assert TicketOk(s, id);
    var m := s.tickets[id].matchID.value;
    assert ResultOk(s, m);
    var i: nat, j: nat :| PairOf(s, m, i, j);
    assert s.results[m].playerIDs[0] == s.tickets[i].playerID;
    assert s.results[m].playerIDs[1] == s.tickets[j].playerID;
  }

  /** The same key of a dictionary: equal, or true and one. */
  predicate SameKey(a: Json, b: Json) {
    a == b || (a == Bool(true) && b == Number(1.0)) || (a == Number(1.0) && b == Bool(true))
  }

  /** A ticket is queued exactly when it is the waiting entry of its own mode. */
  lemma NoMissedPairing(ops: seq<Op>, id: nat, other: nat)
    requires id in Run(ops).tickets && other in Run(ops).tickets
    ensures var s := Run(ops);
            var t, t' := s.tickets[id], s.tickets[other];
            && (t.status == Queued <==> Key(t.matchMode) in s.waiting && s.waiting[Key(t.matchMode)] == id)
            && (t.status == Queued && t'.status == Queued && SameKey(t.matchMode, t'.matchMode) ==> id == other)
  {
    ReachableInv(ops);
    assert TicketOk(Run(ops), id) && TicketOk(Run(ops), other);
  }

  // ---------------------------------------------------------------- permanence

  /** Nothing a later step does undoes: tickets keep their identity, a match once given stays, a
      cancelled ticket without a match never gets one, and stored results never change. */
  predicate Later(s: State, s': State) {
    && (forall id | id in s.tickets :: TicketLater(s, s', id))
    && (forall m | m in s.results :: m in s'.results && s'.results[m] == s.results[m])
  }

  predicate TicketLater(s: State, s': State, id: nat)
    requires id in s.tickets
  {
    && id in s'.tickets
    && var t, t' := s.tickets[id], s'.tickets[id];
    && t'.ticketID == t.ticketID && t'.playerID == t.playerID
    && t'.mmrScore == t.mmrScore && t'.matchMode == t.matchMode
    && (t.matchID.Some? ==> t'.matchID == t.matchID && t'.roomID == t.roomID)
    && (t.status == Cancelled ==> t'.status == Cancelled && t'.matchID == t.matchID)
  }

  lemma CreateLater(s: State, p: Payload, id: nat)
    requires Inv(s) && id in s.tickets
    ensures TicketLater(s, Created(s, p).0, id)
  {
    assert s.nextTicket in s.tickets ==> TicketOk(s, s.nextTicket);
    assert TicketOk(s, id);
    if Acceptable(p) {
      assert Key(Mode(p)) in s.waiting ==> WaitingOk(s, Key(Mode(p)));
    }
  }

  lemma CancelLater(s: State, id: nat)
    requires id in s.tickets
    ensures Later(s, Dropped(s, id))
  {}

  lemma CreateKeepsResults(s: State, p: Payload, m: nat)
    requires Inv(s) && m in s.results
    ensures m in Created(s, p).0.results && Created(s, p).0.results[m] == s.results[m]
  {
    assert ResultOk(s, m);
  }

  lemma StepLater(s: State, op: Op)
    requires Inv(s)
    ensures Later(s, Next(s, op))
  {
    match op {
      case Create(p) =>
        forall id | id in s.tickets ensures TicketLater(s, Created(s, p).0, id) {
          CreateLater(s, p, id);
        }
        forall m | m in s.results ensures m in Created(s, p).0.results && Created(s, p).0.results[m] == s.results[m] {
          CreateKeepsResults(s, p, m);
        }
      case Cancel(id) =>
        if id in s.tickets {
          CancelLater(s, id);
        }
    }
  }

  lemma LaterTransitive(s: State, s': State, s'': State)
    requires Later(s, s') && Later(s', s'')
    ensures Later(s, s'')
  {
    forall id | id in s.tickets ensures TicketLater(s, s'', id) {
      assert TicketLater(s, s', id) && TicketLater(s', s'', id);
    }
  }

  lemma {:induction false} RunLater(s: State, ops: seq<Op>)
    requires Inv(s)
    ensures Later(s, RunFrom(s, ops))
  {
    if ops != [] {
      var front := ops[..|ops| - 1];
      RunLater(s, front);
      RunInv(s, front);
      StepLater(RunFrom(s, front), ops[|ops| - 1]);
      LaterTransitive(s, RunFrom(s, front), RunFrom(s, ops));
    }
  }

  lemma {:induction false} RunSplits(s: State, ops: seq<Op>, more: seq<Op>)
    ensures RunFrom(s, ops + more) == RunFrom(RunFrom(s, ops), more)
  {
    if more == [] {
      assert ops + more == ops;
    } else {
      RunSplits(s, ops, more[..|more| - 1]);
      assert (ops + more)[..|ops + more| - 1] == ops + more[..|more| - 1];
    }
  }

  /** Whatever a run has assigned, every continuation of the run keeps. */
  lemma AssignmentIsPermanent(ops: seq<Op>, more: seq<Op>)
    ensures Later(Run(ops), Run(ops + more))
  {
    ReachableInv(ops);
    RunLater(Run(ops), more);
    RunSplits(Empty, ops, more);
  }

  lemma RunLast(s: State, ops: seq<Op>, op: Op)
    ensures RunFrom(s, ops + [op]) == Next(RunFrom(s, ops), op)
  {
    assert (ops + [op])[..|ops|] == ops;
  }

  /** A cancelled ticket stays cancelled in every continuation, and keeps the match it had, or has none
      for ever. */
  lemma CancellationIsFinal(ops: seq<Op>, id: nat, more: seq<Op>)
    requires id in Run(ops).tickets
    ensures var s := Run(ops + [Cancel(id)] + more);
            && id in s.tickets && s.tickets[id].status == Cancelled
            && s.tickets[id].matchID == Run(ops).tickets[id].matchID
  {
    RunLast(Empty, ops, Cancel(id));
    AssignmentIsPermanent(ops + [Cancel(id)], more);
    assert TicketLater(Run(ops + [Cancel(id)]), Run(ops + [Cancel(id)] + more), id);
  }

  // ---------------------------------------------------------------- conservation

  function QueuedIDs(s: State): set<nat> {
    set id | id in s.tickets && s.tickets[id].status == Queued
  }

  function MatchedIDs(s: State): set<nat> {
    set id | id in s.tickets && s.tickets[id].matchID.Some?
  }

  /** Cancelled before any match. */
  function AbandonedIDs(s: State): set<nat> {
    set id | id in s.tickets && s.tickets[id].status == Cancelled && s.tickets[id].matchID == None
  }

  predicate WellFormed(op: Op) {
    op.Create? ==> Acceptable(op.payload)
  }

  /** Requests that cannot be accepted, each of which uses up a ticket number. */
  function Malformed(ops: seq<Op>): nat {
    if ops == [] then 0 else Malformed(ops[..|ops| - 1]) + (if WellFormed(ops[|ops| - 1]) then 0 else 1)
  }

  predicate Tally(s: State) {
    && |QueuedIDs(s)| == |s.waiting|
    && |MatchedIDs(s)| == 2 * |s.results|
    && s.nextMatch == |s.results| + 1
  }

  lemma ParkedGroups(s: State, t: Ticket)
    requires t.ticketID !in s.tickets && t.status == Queued && t.matchID == None
    ensures QueuedIDs(Parked(s, t)) == QueuedIDs(s) + {t.ticketID}
    ensures MatchedIDs(Parked(s, t)) == MatchedIDs(s)
  {}

  lemma ParkedTally(s: State, t: Ticket)
    requires Tally(s) && t.ticketID !in s.tickets && t.status == Queued && t.matchID == None
    requires Key(t.matchMode) !in s.waiting
    ensures Tally(Parked(s, t))
  {
    ParkedGroups(s, t);
  }

  lemma JoinedGroups(s: State, t: Ticket, other: nat)
    requires t.ticketID !in s.tickets && other in s.tickets
    requires s.tickets[other].status == Queued && s.tickets[other].matchID == None
    ensures QueuedIDs(s) == QueuedIDs(Joined(s, t, other)) + {other}
    ensures other !in QueuedIDs(Joined(s, t, other))
    ensures MatchedIDs(Joined(s, t, other)) == MatchedIDs(s) + {other, t.ticketID}
    ensures |MatchedIDs(Joined(s, t, other))| == |MatchedIDs(s)| + 2
  {
    assert MatchedIDs(Joined(s, t, other)) == MatchedIDs(s) + {other} + {t.ticketID};
  }

  lemma JoinedTally(s: State, t: Ticket, other: nat)
    requires Tally(s) && t.ticketID !in s.tickets && other in s.tickets
    requires s.tickets[other].status == Queued && s.tickets[other].matchID == None
    requires Key(t.matchMode) in s.waiting && s.nextMatch !in s.results
    ensures Tally(Joined(s, t, other))
  {
    JoinedGroups(s, t, other);
    assert s.waiting.Keys == Joined(s, t, other).waiting.Keys + {Key(t.matchMode)};
  }

  lemma DroppedGroups(s: State, id: nat)
    requires id in s.tickets
    ensures MatchedIDs(Dropped(s, id)) == MatchedIDs(s)
    ensures QueuedIDs(Dropped(s, id)) == QueuedIDs(s) - {id}
  {}

  lemma DroppedWaiting(s: State, id: nat)
    requires Inv(s) && id in s.tickets
    ensures s.tickets[id].status == Queued ==>
              && Key(s.tickets[id].matchMode) in s.waiting
              && Dropped(s, id).waiting == s.waiting - {Key(s.tickets[id].matchMode)}
    ensures s.tickets[id].status != Queued ==> Dropped(s, id).waiting == s.waiting
  {
    assert TicketOk(s, id);
    forall k | k in s.waiting && s.waiting[k] == id
      ensures k == Key(s.tickets[id].matchMode) && s.tickets[id].status == Queued
    {
      assert WaitingOk(s, k);
    }
  }

  lemma DropOne<T, U>(m: map<T, U>, k: T)
    requires k in m
    ensures |m - {k}| == |m| - 1
  {
    assert m.Keys == (m - {k}).Keys + {k};
  }

  lemma WithoutOne<T>(a: set<T>, k: T)
    ensures |a - {k}| == if k in a then |a| - 1 else |a|
  {
    if k !in a {
      assert a - {k} == a;
    }
  }

  lemma DroppedTally(s: State, id: nat)
    requires Inv(s) && Tally(s) && id in s.tickets
    ensures Tally(Dropped(s, id))
  {
    DroppedGroups(s, id);
    DroppedWaiting(s, id);
    WithoutOne(QueuedIDs(s), id);
    if s.tickets[id].status == Queued {
      DropOne(s.waiting, Key(s.tickets[id].matchMode));
    }
  }

  lemma SkippedTally(s: State)
    requires Tally(s)
    ensures Tally(Skipped(s))
  {
    assert QueuedIDs(Skipped(s)) == QueuedIDs(s);
    assert MatchedIDs(Skipped(s)) == MatchedIDs(s);
  }

  lemma NumbersAreNew(s: State)
    requires Inv(s)
    ensures s.nextTicket !in s.tickets && s.nextMatch !in s.results
  {
    assert s.nextTicket in s.tickets ==> TicketOk(s, s.nextTicket);
    assert s.nextMatch in s.results ==> ResultOk(s, s.nextMatch);
  }

  lemma WaitingIsFree(s: State, mode: Json)
    requires Inv(s) && mode in s.waiting
    ensures s.waiting[mode] in s.tickets
    ensures s.tickets[s.waiting[mode]].status == Queued && s.tickets[s.waiting[mode]].matchID == None
  {
    assert WaitingOk(s, mode) && TicketOk(s, s.waiting[mode]);
  }

  lemma CreatedTally(s: State, t: Ticket)
    requires Inv(s) && Tally(s) && t == NewTicket(s.nextTicket, t.playerID, t.mmrScore, t.matchMode)
    ensures Key(t.matchMode) !in s.waiting ==> Tally(Parked(s, t))
    ensures Key(t.matchMode) in s.waiting ==>
              s.waiting[Key(t.matchMode)] in s.tickets && Tally(Joined(s, t, s.waiting[Key(t.matchMode)]))
  {
    NumbersAreNew(s);
    if Key(t.matchMode) in s.waiting {
      WaitingIsFree(s, Key(t.matchMode));
      JoinedTally(s, t, s.waiting[Key(t.matchMode)]);
    } else {
      ParkedTally(s, t);
    }
  }

  lemma StepTally(s: State, op: Op)
    requires Inv(s) && Tally(s)
    ensures Tally(Next(s, op))
  {
    match op {
      case Create(p) =>
        if Acceptable(p) {
          CreatedTally(s, Asked(s, p));
        } else {
          SkippedTally(s);
        }
      case Cancel(id) =>
        if id in s.tickets {
          DroppedTally(s, id);
        }
    }
  }

  lemma CreatedKeys(s: State, p: Payload)
    requires Inv(s) && Acceptable(p)
    ensures s.nextTicket !in s.tickets
    ensures Created(s, p).0.nextTicket == s.nextTicket + 1
    ensures Created(s, p).0.tickets.Keys == s.tickets.Keys + {s.nextTicket}
    ensures Created(s, p).1 == Ok(s.nextTicket)
  {
    assert s.nextTicket in s.tickets ==> TicketOk(s, s.nextTicket);
    assert Key(Mode(p)) in s.waiting ==> WaitingOk(s, Key(Mode(p)));
  }

  lemma StepCount(s: State, op: Op)
    requires Inv(s)
    ensures Next(s, op).nextTicket - |Next(s, op).tickets|
         == s.nextTicket - |s.tickets| + (if WellFormed(op) then 0 else 1)
  {
    match op {
      case Create(p) =>
        if Acceptable(p) {
          CreatedKeys(s, p);
          assert |s.tickets.Keys + {s.nextTicket}| == |s.tickets| + 1;
        }
      case Cancel(id) =>
        assert Next(s, op).tickets.Keys == s.tickets.Keys;
    }
  }

  lemma {:induction false} RunTally(ops: seq<Op>)
    ensures var s := Run(ops);
            Tally(s) && s.nextTicket - 1 == |s.tickets| + Malformed(ops)
  {
    if ops == [] {
      assert QueuedIDs(Empty) == {} && MatchedIDs(Empty) == {};
    } else {
      var front := ops[..|ops| - 1];
      RunTally(front);
      ReachableInv(front);
      StepTally(Run(front), ops[|ops| - 1]);
      StepCount(Run(front), ops[|ops| - 1]);
    }
  }

  lemma GroupsPartition(s: State)
    requires Inv(s)
    ensures QueuedIDs(s) + MatchedIDs(s) + AbandonedIDs(s) == s.tickets.Keys
    ensures QueuedIDs(s) !! MatchedIDs(s) !! AbandonedIDs(s)
  {
    forall id | id in s.tickets
      ensures id in QueuedIDs(s) + MatchedIDs(s) + AbandonedIDs(s)
      ensures !(id in QueuedIDs(s) && id in MatchedIDs(s))
    {
      assert TicketOk(s, id);
    }
  }

  /** Waiting, matched and abandoned tickets partition the tickets, and the counters count them. */
  lemma Conservation(ops: seq<Op>)
    ensures var s := Run(ops);
            && QueuedIDs(s) + MatchedIDs(s) + AbandonedIDs(s) == s.tickets.Keys
            && QueuedIDs(s) !! MatchedIDs(s) !! AbandonedIDs(s)
            && |s.tickets| == |s.waiting| + 2 * |s.results| + |AbandonedIDs(s)|
            && s.nextMatch - 1 == |s.results|
            && s.nextTicket - 1 == |s.tickets| + Malformed(ops)
  {
    var s := Run(ops);
    ReachableInv(ops);
    RunTally(ops);
    GroupsPartition(s);
    assert |QueuedIDs(s) + MatchedIDs(s)| == |QueuedIDs(s)| + |MatchedIDs(s)|;
    assert |s.tickets.Keys| == |QueuedIDs(s) + MatchedIDs(s)| + |AbandonedIDs(s)|;
  }

  lemma {:induction false} MalformedZero(ops: seq<Op>)
    ensures Malformed(ops) == 0 <==> forall op | op in ops :: WellFormed(op)
  {
    if ops != [] {
      var front, last := ops[..|ops| - 1], ops[|ops| - 1];
      MalformedZero(front);
      assert ops == front + [last];
      assert last in ops;
      assert forall op | op in front :: op in ops;
    }
  }

  /** The ticket counter counts the tickets exactly when every request was acceptable: an object
      with a player, a waiting time that is a number if given, and a mode that can be a key if given. */
  lemma CounterCountsTickets(ops: seq<Op>)
    ensures Run(ops).nextTicket - 1 == |Run(ops).tickets| <==> forall op | op in ops :: WellFormed(op)
  {
    RunTally(ops);
    MalformedZero(ops);
  }

  lemma RefusedAlone(p: Payload)
    requires !Acceptable(p)
    ensures Run([Create(p)]) == Skipped(Empty)
    ensures Created(Empty, p).1.Err?
  {
    var ops := [Create(p)];
    assert ops[..0] == [];
    assert Run(ops) == Next(RunFrom(Empty, []), ops[0]);
  }

  predicate RunsAhead(p: Payload, failure: Failure) {
    && Created(Empty, p).1 == Err(failure)
    && Run([Create(p)]).nextTicket == 2 && Run([Create(p)]).tickets == map[]
  }

  /** Four requests that leave the counter ahead of an empty table: no object, no player, a waiting
      time given as text, and a mode given as a list. */
  lemma CounterRunsAhead()
    ensures RunsAhead(NoObject, AttributeError)
    ensures RunsAhead(Body(None, None, None, None), KeyError)
    ensures RunsAhead(Body(Some(Text("p")), None, None, Some(Text("5"))), TypeError)
    ensures RunsAhead(Body(Some(Text("p")), None, Some(List([Text("x")])), None), TypeError)
  {
    RefusedAlone(NoObject);
    RefusedAlone(Body(None, None, None, None));
    RefusedAlone(Body(Some(Text("p")), None, None, Some(Text("5"))));
    RefusedAlone(Body(Some(Text("p")), None, Some(List([Text("x")])), None));
  }

  // ---------------------------------------------------------------- tickets are what was asked for

  /** The requests of a run, in the order they came; request number `n` is the `n`-th. */
  function Requests(ops: seq<Op>): seq<Payload> {
    if ops == [] then []
    else Requests(ops[..|ops| - 1]) + (if ops[|ops| - 1].Create? then [ops[|ops| - 1].payload] else [])
  }

  predicate Truthy(v: Json) {
    match v
    case Null => false
    case Bool(flag) => flag
    case Number(value) => value != 0.0
    case NotFinite(_) => true
    case Text(text) => |text| > 0
    case List(items) => |items| > 0
    case Object(members) => |members| > 0
  }

  lemma TruthyIsNotFalsy(v: Json)
    ensures Truthy(v) <==> !Falsy(v)
  {
    match v {
      case Object(members) => assert |members| == 0 ==> members == map[];
      case _ =>
    }
  }

  /** A request is accepted exactly in these cases. */
  lemma AcceptableExactly(p: Payload)
    ensures Acceptable(p) <==>
              && p.Body?
              && p.playerID.Some?
              && (p.maxWaitMs.Some? ==>
                    p.maxWaitMs.value.Number? || p.maxWaitMs.value.NotFinite? || p.maxWaitMs.value.Bool?)
              && (p.matchMode.Some? && Truthy(p.matchMode.value) ==>
                    !p.matchMode.value.List? && !p.matchMode.value.Object?)
  {
    if p.Body? && p.matchMode.Some? {
      TruthyIsNotFalsy(p.matchMode.value);
    }
  }

  /** The mode that a request asks for; an empty one counts as left out. */
  predicate AsksFor(p: Payload, mode: Json) {
    && p.Body?
    && (if p.matchMode.Some? && Truthy(p.matchMode.value) then mode == p.matchMode.value else mode == Text("duel"))
  }

  /** The ticket has the player, the score and the mode of the request, or the defaults of those that
      it left out. */
  predicate AsAsked(t: Ticket, p: Payload) {
    && p.Body?
    && p.playerID == Some(t.playerID)
    && (if p.mmrScore.Some? then t.mmrScore == p.mmrScore.value else t.mmrScore == Number(1000.0))
    && AsksFor(p, t.matchMode)
  }

  lemma AskedAsAsked(s: State, p: Payload)
    requires Acceptable(p)
    ensures AsAsked(Asked(s, p), p)
  {
    if p.matchMode.Some? {
      TruthyIsNotFalsy(p.matchMode.value);
    }
  }

  lemma AsAskedLater(s: State, s': State, id: nat, p: Payload)
    requires id in s.tickets && TicketLater(s, s', id) && AsAsked(s.tickets[id], p)
    ensures AsAsked(s'.tickets[id], p)
  {}

  predicate NumberedAt(s: State, requests: seq<Payload>, n: nat) {
    && (n in s.tickets <==> 1 <= n <= |requests| && Acceptable(requests[n - 1]))
    && (n in s.tickets ==> AsAsked(s.tickets[n], requests[n - 1]))
  }

  ghost predicate Numbered(s: State, requests: seq<Payload>) {
    s.nextTicket == |requests| + 1 && forall n: nat :: NumberedAt(s, requests, n)
  }

  lemma CreatedTicket(s: State, p: Payload)
    requires Inv(s) && Acceptable(p)
    ensures s.nextTicket in Created(s, p).0.tickets
    ensures AsAsked(Created(s, p).0.tickets[s.nextTicket], p)
  {
    CreatedKeys(s, p);
    AskedAsAsked(s, p);
  }

  lemma CreatedNumber(s: State, p: Payload)
    requires Inv(s)
    ensures Created(s, p).0.nextTicket == s.nextTicket + 1
    ensures Created(s, p).0.tickets.Keys == s.tickets.Keys + if Acceptable(p) then {s.nextTicket} else {}
  {
    if Acceptable(p) {
      CreatedKeys(s, p);
    }
  }

  lemma CreatedNumberedAt(s: State, requests: seq<Payload>, p: Payload, n: nat)
    requires Inv(s) && s.nextTicket == |requests| + 1 && NumberedAt(s, requests, n)
    ensures NumberedAt(Created(s, p).0, requests + [p], n)
  {
    CreatedNumber(s, p);
    if n in s.tickets {
      CreateLater(s, p, n);
      AsAskedLater(s, Created(s, p).0, n, requests[n - 1]);
    } else if n == s.nextTicket && Acceptable(p) {
      CreatedTicket(s, p);
    }
  }

  lemma CreatedNumbered(s: State, requests: seq<Payload>, p: Payload)
    requires Inv(s) && Numbered(s, requests)
    ensures Numbered(Created(s, p).0, requests + [p])
  {
    CreatedNumber(s, p);
    forall n: nat ensures NumberedAt(Created(s, p).0, requests + [p], n) {
      CreatedNumberedAt(s, requests, p, n);
    }
  }

  lemma CancelNumbered(s: State, requests: seq<Payload>, id: nat)
    requires Numbered(s, requests) && id in s.tickets
    ensures Numbered(Dropped(s, id), requests)
  {
    CancelLater(s, id);
    forall n: nat ensures NumberedAt(Dropped(s, id), requests, n) {
      assert NumberedAt(s, requests, n);
      if n in s.tickets {
        AsAskedLater(s, Dropped(s, id), n, requests[n - 1]);
      }
    }
  }

  /** The tickets are exactly the acceptable requests of the run, under the number of the request, and
      each is what its request asked for. */
  lemma {:induction false} TicketsAreRequests(ops: seq<Op>)
    ensures Numbered(Run(ops), Requests(ops))
  {
    if ops != [] {
      var front, last := ops[..|ops| - 1], ops[|ops| - 1];
      TicketsAreRequests(front);
      ReachableInv(front);
      match last {
        case Create(p) => CreatedNumbered(Run(front), Requests(front), p);
        case Cancel(id) =>
          assert Requests(ops) == Requests(front);
          if id in Run(front).tickets {
            CancelNumbered(Run(front), Requests(front), id);
          }
      }
    }
  }

  /** Requests `i` and `j` asked for the same mode, and the result is theirs. */
  predicate ResultOf(r: MatchResult, requests: seq<Payload>, i: nat, j: nat) {
    && 1 <= i < j <= |requests|
    && requests[i - 1].Body? && requests[j - 1].Body?
    && |r.playerIDs| == 2
    && requests[i - 1].playerID == Some(r.playerIDs[0]) && requests[j - 1].playerID == Some(r.playerIDs[1])
    && AsksFor(requests[j - 1], r.matchMode)
    && (AsksFor(requests[i - 1], r.matchMode)
        || (r.matchMode == Bool(true) && AsksFor(requests[i - 1], Number(1.0)))
        || (r.matchMode == Number(1.0) && AsksFor(requests[i - 1], Bool(true))))
  }

  /** Players are only matched when they asked for the same mode, and the result names both. */
  lemma MatchedAsAsked(ops: seq<Op>, m: nat)
    requires m in Run(ops).results
    ensures exists i: nat, j: nat :: PairOf(Run(ops), m, i, j) && ResultOf(Run(ops).results[m], Requests(ops), i, j)
  {
    var s, requests := Run(ops), Requests(ops);
    TicketsAreRequests(ops);
    MatchIsExact(ops, m);
    var i: nat, j: nat :| PairOf(s, m, i, j) && Key(s.tickets[i].matchMode) == Key(s.tickets[j].matchMode);
    assert NumberedAt(s, requests, i) && NumberedAt(s, requests, j);
    assert SameKey(s.tickets[i].matchMode, s.tickets[j].matchMode);
    assert ResultOf(s.results[m], requests, i, j);
  }

  // ---------------------------------------------------------------- pairing per mode

  function ResultsOf(s: State, mode: Json): set<nat> {
    set m | m in s.results && Key(s.results[m].matchMode) == mode
  }

  /** What one step adds to the balance of a mode: a ticket created in it, or a queued one gone. */
  function Contribution(s: State, op: Op, mode: Json): int {
    match op
    case Create(p) => if Acceptable(p) && Key(Mode(p)) == mode then 1 else 0
    case Cancel(id) =>
      if id in s.tickets && Key(s.tickets[id].matchMode) == mode && s.tickets[id].status == Queued then -1 else 0
  }

  /** Tickets created in a mode, less the cancellations that hit a queued ticket of the mode. */
  function Balance(ops: seq<Op>, mode: Json): int {
    if ops == [] then 0
    else
      var front := ops[..|ops| - 1];
      Balance(front, mode) + Contribution(Run(front), ops[|ops| - 1], mode)
  }

  function Level(s: State, mode: Json): int {
    2 * |ResultsOf(s, mode)| + if mode in s.waiting then 1 else 0
  }

  lemma JoinedLevel(s: State, t: Ticket, other: nat, mode: Json)
    requires other in s.tickets && s.nextMatch !in s.results && Key(t.matchMode) in s.waiting
    ensures Level(Joined(s, t, other), mode) == Level(s, mode) + if Key(t.matchMode) == mode then 1 else 0
  {
    if Key(t.matchMode) == mode {
      assert ResultsOf(Joined(s, t, other), mode) == ResultsOf(s, mode) + {s.nextMatch};
    } else {
      assert ResultsOf(Joined(s, t, other), mode) == ResultsOf(s, mode);
    }
  }

  lemma DroppedLevel(s: State, id: nat, mode: Json)
    requires Inv(s) && id in s.tickets
    ensures Level(Dropped(s, id), mode) == Level(s, mode) + Contribution(s, Cancel(id), mode)
  {
    assert TicketOk(s, id);
    assert mode in s.waiting ==> WaitingOk(s, mode);
    assert ResultsOf(Dropped(s, id), mode) == ResultsOf(s, mode);
  }

  lemma StepLevel(s: State, op: Op, mode: Json)
    requires Inv(s)
    ensures Level(Next(s, op), mode) == Level(s, mode) + Contribution(s, op, mode)
  {
    match op {
      case Create(p) =>
        if !Acceptable(p) {
          assert ResultsOf(Skipped(s), mode) == ResultsOf(s, mode);
        } else {
          var t := Asked(s, p);
          if Key(t.matchMode) in s.waiting {
            assert WaitingOk(s, Key(t.matchMode));
            assert s.nextMatch in s.results ==> ResultOk(s, s.nextMatch);
            JoinedLevel(s, t, s.waiting[Key(t.matchMode)], mode);
          } else {
            assert ResultsOf(Parked(s, t), mode) == ResultsOf(s, mode);
          }
        }
      case Cancel(id) =>
        if id in s.tickets {
          DroppedLevel(s, id, mode);
        }
    }
  }

  lemma {:induction false} RunLevel(ops: seq<Op>, mode: Json)
    ensures Balance(ops, mode) == Level(Run(ops), mode)
  {
    if ops == [] {
      assert ResultsOf(Empty, mode) == {};
    } else {
      var front := ops[..|ops| - 1];
      RunLevel(front, mode);
      ReachableInv(front);
      StepLevel(Run(front), ops[|ops| - 1], mode);
    }
  }

  /** A mode has paired half its balance, and a ticket waits exactly when the balance is odd. */
  lemma PairingPerMode(ops: seq<Op>, mode: Json)
    ensures var s, balance := Run(ops), Balance(ops, mode);
            && balance >= 0
            && |ResultsOf(s, mode)| == balance / 2
            && (mode in s.waiting <==> balance % 2 == 1)
  {
    RunLevel(ops, mode);
  }
}
