// The counters of the gateway and their agreement with the session registry. A counter update is
// one atomic step; a method that updates two counters is two steps, and others come in between.

module Metrics {
  import opened Registry

  // ---------------------------------------------------------------- counters

  datatype Counters = Counters(
    activeSessions: int, connectionsTotal: int, messagesTotal: int, errorsTotal: int,
    coreRequestsTotal: int, coreErrorsTotal: int, matchFoundTotal: int)

  const Zero := Counters(0, 0, 0, 0, 0, 0, 0)

  function GaugeUp(c: Counters): Counters {
    c.(activeSessions := c.activeSessions + 1)
  }

  function GaugeDown(c: Counters): Counters {
    c.(activeSessions := c.activeSessions - 1)
  }

  function ConnectionCounted(c: Counters): Counters {
    c.(connectionsTotal := c.connectionsTotal + 1)
  }

  function RequestCounted(c: Counters): Counters {
    c.(coreRequestsTotal := c.coreRequestsTotal + 1)
  }

  function FailureCounted(c: Counters): Counters {
    c.(coreErrorsTotal := c.coreErrorsTotal + 1)
  }

  function MessageCounted(c: Counters): Counters {
    c.(messagesTotal := c.messagesTotal + 1)
  }

  function ErrorCounted(c: Counters): Counters {
    c.(errorsTotal := c.errorsTotal + 1)
  }

  function MatchCounted(c: Counters): Counters {
    c.(matchFoundTotal := c.matchFoundTotal + 1)
  }

  class Gauges {
    var activeSessions: int
    var connectionsTotal: int
    var messagesTotal: int
    var errorsTotal: int
    var coreRequestsTotal: int
    var coreErrorsTotal: int
    var matchFoundTotal: int

    constructor ()
      ensures View() == Zero
    {
      activeSessions, connectionsTotal, messagesTotal, errorsTotal := 0, 0, 0, 0;
      coreRequestsTotal, coreErrorsTotal, matchFoundTotal := 0, 0, 0;
    }

    function View(): Counters
      reads this
    {
      Counters(activeSessions, connectionsTotal, messagesTotal, errorsTotal,
               coreRequestsTotal, coreErrorsTotal, matchFoundTotal)
    }

    method OpenSession()
      modifies this
      ensures View() == ConnectionCounted(GaugeUp(old(View())))
    {
      activeSessions := activeSessions + 1;
      connectionsTotal := connectionsTotal + 1;
    }

    method CloseSession()
      modifies this
      ensures View() == GaugeDown(old(View()))
    {
      activeSessions := activeSessions - 1;
    }

    method CoreRequest(failed: bool)
      modifies this
      ensures View() == if failed then FailureCounted(RequestCounted(old(View()))) else RequestCounted(old(View()))
    {
      coreRequestsTotal := coreRequestsTotal + 1;
      if failed {
        coreErrorsTotal := coreErrorsTotal + 1;
      }
    }

    method Message()
      modifies this
      ensures View() == MessageCounted(old(View()))
    {
      messagesTotal := messagesTotal + 1;
    }

    method Error()
      modifies this
      ensures View() == ErrorCounted(old(View()))
    {
      errorsTotal := errorsTotal + 1;
    }

    method MatchFound()
      modifies this
      ensures View() == MatchCounted(old(View()))
    {
      matchFoundTotal := matchFoundTotal + 1;
    }
  }

  // ---------------------------------------------------------------- interleaved steps

  /** Where a connection handler stands; it is named by the number of its session. */
  datatype Phase =
    | Registered    // session added, gauge not yet raised
    | Raised        // gauge raised, connection not yet counted
    | Serving
    | Unregistered  // session removed, gauge not yet lowered
    | Gone

  /** A call to the core whose outcome is being recorded. */
  datatype Record = Requested(failed: bool) | Recorded(failed: bool)

  datatype State = State(
    table: Table, counters: Counters, handlers: map<nat, Phase>, calls: map<nat, Record>)

  const Idle := State(NoSessions, Zero, map[], map[])

  datatype Step =
    | Accept
    | Raise(handler: nat)
    | CountConnection(handler: nat)
    | Authenticate(handler: nat, player: string)
    | Unregister(handler: nat)
    | Lower(handler: nat)
    | CountRequest(call: nat, failed: bool)
    | CountOutcome(call: nat)
    | CountMessage(handler: nat)
    | CountError
    | CountMatch

  predicate At(s: State, h: nat, p: Phase) {
    h in s.handlers && s.handlers[h] == p
  }

  predicate CanStep(s: State, step: Step) {
    match step
    case Accept => true
    case Raise(h) => At(s, h, Registered)
    case CountConnection(h) => At(s, h, Raised)
    case Authenticate(h, player) => At(s, h, Serving) && player != ""
    case Unregister(h) => At(s, h, Serving)
    case Lower(h) => At(s, h, Unregistered)
    case CountRequest(c, _) => c !in s.calls
    case CountOutcome(c) => c in s.calls && s.calls[c].Requested?
    case CountMessage(h) => At(s, h, Serving)
    case CountError => true
    case CountMatch => true
  }

  function Accepted(s: State): State {
    s.(table := Added(s.table), handlers := s.handlers[s.table.nextID + 1 := Registered])
  }

  function After(s: State, step: Step): State
    requires CanStep(s, step)
  {
    var c := s.counters;
    match step
    case Accept => Accepted(s)
    case Raise(h) => s.(counters := GaugeUp(c), handlers := s.handlers[h := Raised])
    case CountConnection(h) => s.(counters := ConnectionCounted(c), handlers := s.handlers[h := Serving])
    case Authenticate(h, player) => s.(table := Bound(s.table, h, player))
    case Unregister(h) => s.(table := Removed(s.table, h), handlers := s.handlers[h := Unregistered])
    case Lower(h) => s.(counters := GaugeDown(c), handlers := s.handlers[h := Gone])
    case CountRequest(k, failed) => s.(counters := RequestCounted(c), calls := s.calls[k := Requested(failed)])
    case CountOutcome(k) =>
      var failed := s.calls[k].failed;
      s.(counters := if failed then FailureCounted(c) else c, calls := s.calls[k := Recorded(failed)])
    case CountMessage(_) => s.(counters := MessageCounted(c))
    case CountError => s.(counters := ErrorCounted(c))
    case CountMatch => s.(counters := MatchCounted(c))
  }

  /** Uninterrupted, the steps of a method have the effect that its class promises. */
  lemma StepsOfMethods(s: State, h: nat, k: nat, failed: bool)
    ensures At(s, h, Registered) ==>
              && CanStep(After(s, Raise(h)), CountConnection(h))
              && After(After(s, Raise(h)), CountConnection(h)).counters == ConnectionCounted(GaugeUp(s.counters))
    ensures k !in s.calls ==>
              && CanStep(After(s, CountRequest(k, failed)), CountOutcome(k))
              && After(After(s, CountRequest(k, failed)), CountOutcome(k)).counters
              == if failed then FailureCounted(RequestCounted(s.counters)) else RequestCounted(s.counters)
  {}

  function Execute(steps: seq<Step>): State {
    if steps == [] then Idle
    else
      var s, step := Execute(steps[..|steps| - 1]), steps[|steps| - 1];
      if CanStep(s, step) then After(s, step) else s
  }

  // ---------------------------------------------------------------- agreement

  function In(handlers: map<nat, Phase>, p: Phase): set<nat> {
    set h | h in handlers && handlers[h] == p
  }

  function FailedCalls(calls: map<nat, Record>): set<nat> {
    set c | c in calls && calls[c] == Recorded(true)
  }

  function OtherCalls(calls: map<nat, Record>): set<nat> {
    set c | c in calls && calls[c] != Recorded(true)
  }

  predicate HasSession(p: Phase) {
    p.Registered? || p.Raised? || p.Serving?
  }

  /** The registry holds the sessions of the handlers between their two registry calls. */
  predicate SameSessions(s: State) {
    && (forall h | h in s.handlers :: h <= s.table.nextID && (h in s.table.byID <==> HasSession(s.handlers[h])))
    && (forall n | n in s.table.byID :: n in s.handlers)
  }

  predicate HandlersCounted(sessions: set<nat>, active: int, connections: int, handlers: map<nat, Phase>) {
    var registered, raised, serving := |In(handlers, Registered)|, |In(handlers, Raised)|, |In(handlers, Serving)|;
    && |sessions| == registered + raised + serving
    && active == raised + serving + |In(handlers, Unregistered)|
    && connections == |handlers| - registered - raised
  }

  predicate CallsCounted(requests: int, failures: int, calls: map<nat, Record>) {
    requests == |calls| && failures == |FailedCalls(calls)|
  }

  predicate Agree(s: State) {
    && SameSessions(s)
    && HandlersCounted(s.table.byID, s.counters.activeSessions, s.counters.connectionsTotal, s.handlers)
    && CallsCounted(s.counters.coreRequestsTotal, s.counters.coreErrorsTotal, s.calls)
  }

  lemma Joined(handlers: map<nat, Phase>, h: nat, q: Phase)
    requires h !in handlers || handlers[h] != q
    ensures |In(handlers[h := q], q)| == |In(handlers, q)| + 1
  {
    assert In(handlers[h := q], q) == In(handlers, q) + {h};
  }

  lemma Untouched(handlers: map<nat, Phase>, h: nat, q: Phase, r: Phase)
    requires r != q && (h in handlers ==> handlers[h] != r)
    ensures In(handlers[h := q], r) == In(handlers, r)
  {}

  /** A handler that changes phase leaves one group and joins another. */
  lemma Moved(handlers: map<nat, Phase>, h: nat, p: Phase, q: Phase)
    requires h in handlers && handlers[h] == p && p != q
    ensures var after := handlers[h := q];
            && |In(after, p)| == |In(handlers, p)| - 1
            && |In(after, q)| == |In(handlers, q)| + 1
            && (forall r :: r != p && r != q ==> In(after, r) == In(handlers, r))
            && |after| == |handlers|
  {
    var after := handlers[h := q];
    assert In(handlers, p) == In(after, p) + {h};
    Joined(handlers, h, q);
    forall r | r != p && r != q
      ensures In(after, r) == In(handlers, r)
    {
      Untouched(handlers, h, q, r);
    }
    assert after.Keys == handlers.Keys;
  }

  lemma Arrived(handlers: map<nat, Phase>, h: nat)
    requires h !in handlers
    ensures var after := handlers[h := Registered];
            && |In(after, Registered)| == |In(handlers, Registered)| + 1
            && In(after, Raised) == In(handlers, Raised)
            && In(after, Serving) == In(handlers, Serving)
            && In(after, Unregistered) == In(handlers, Unregistered)
            && |after| == |handlers| + 1
  {
    Joined(handlers, h, Registered);
    Untouched(handlers, h, Registered, Raised);
    Untouched(handlers, h, Registered, Serving);
    Untouched(handlers, h, Registered, Unregistered);
    assert handlers[h := Registered].Keys == handlers.Keys + {h};
  }

  lemma AcceptSessions(s: State)
    requires SameSessions(s)
    ensures SameSessions(Accepted(s))
    ensures s.table.nextID + 1 !in s.handlers && s.table.nextID + 1 !in s.table.byID
  {}

  lemma AcceptCounted(sessions: set<nat>, active: int, connections: int, handlers: map<nat, Phase>, h: nat)
    requires HandlersCounted(sessions, active, connections, handlers) && h !in handlers && h !in sessions
    ensures HandlersCounted(sessions + {h}, active, connections, handlers[h := Registered])
  {
    Arrived(handlers, h);
  }

  lemma AcceptedParts(s: State)
    ensures Accepted(s).table.byID == s.table.byID + {s.table.nextID + 1}
    ensures Accepted(s).handlers == s.handlers[s.table.nextID + 1 := Registered]
    ensures Accepted(s).counters == s.counters && Accepted(s).calls == s.calls
  {}

  lemma AcceptAgrees(s: State)
    requires Agree(s)
    ensures Agree(Accepted(s))
  {
    AcceptSessions(s);
    AcceptedParts(s);
    AcceptCounted(s.table.byID, s.counters.activeSessions, s.counters.connectionsTotal, s.handlers, s.table.nextID + 1);
  }

  lemma RaiseAgrees(s: State, h: nat)
    requires Agree(s) && CanStep(s, Raise(h))
    ensures Agree(After(s, Raise(h)))
  {
    Moved(s.handlers, h, Registered, Raised);
  }

  lemma CountConnectionAgrees(s: State, h: nat)
    requires Agree(s) && CanStep(s, CountConnection(h))
    ensures Agree(After(s, CountConnection(h)))
  {
    Moved(s.handlers, h, Raised, Serving);
  }

  lemma UnregisterAgrees(s: State, h: nat)
    requires Agree(s) && CanStep(s, Unregister(h))
    ensures Agree(After(s, Unregister(h)))
  {
    Moved(s.handlers, h, Serving, Unregistered);
    assert s.table.byID == Removed(s.table, h).byID + {h};
  }

  lemma LowerAgrees(s: State, h: nat)
    requires Agree(s) && CanStep(s, Lower(h))
    ensures Agree(After(s, Lower(h)))
  {
    Moved(s.handlers, h, Unregistered, Gone);
  }

  lemma RequestCalls(requests: int, failures: int, calls: map<nat, Record>, c: nat, failed: bool)
    requires CallsCounted(requests, failures, calls) && c !in calls
    ensures CallsCounted(requests + 1, failures, calls[c := Requested(failed)])
  {
    assert calls[c := Requested(failed)].Keys == calls.Keys + {c};
    assert FailedCalls(calls[c := Requested(failed)]) == FailedCalls(calls);
  }

  lemma CountRequestAgrees(s: State, c: nat, failed: bool)
    requires Agree(s) && CanStep(s, CountRequest(c, failed))
    ensures Agree(After(s, CountRequest(c, failed)))
  {
    RequestCalls(s.counters.coreRequestsTotal, s.counters.coreErrorsTotal, s.calls, c, failed);
  }

  lemma OutcomeCalls(requests: int, failures: int, calls: map<nat, Record>, c: nat, failed: bool)
    requires CallsCounted(requests, failures, calls) && c in calls && calls[c] == Requested(failed)
    ensures CallsCounted(requests, failures + (if failed then 1 else 0), calls[c := Recorded(failed)])
  {
    var after := calls[c := Recorded(failed)];
    assert after.Keys == calls.Keys;
    assert FailedCalls(after) == if failed then FailedCalls(calls) + {c} else FailedCalls(calls);
  }

  lemma CountOutcomeAgrees(s: State, c: nat)
    requires Agree(s) && CanStep(s, CountOutcome(c))
    ensures Agree(After(s, CountOutcome(c)))
  {
    OutcomeCalls(s.counters.coreRequestsTotal, s.counters.coreErrorsTotal, s.calls, c, s.calls[c].failed);
  }

  lemma {:induction false} ExecuteAgrees(steps: seq<Step>)
    ensures Agree(Execute(steps))
  {
    if steps == [] {
      assert forall p :: In(map[], p) == {};
      assert FailedCalls(map[]) == {};
    } else {
      var s, step := Execute(steps[..|steps| - 1]), steps[|steps| - 1];
      ExecuteAgrees(steps[..|steps| - 1]);
      if CanStep(s, step) {
        match step {
          case Accept => AcceptAgrees(s);
          case Raise(h) => RaiseAgrees(s, h);
          case CountConnection(h) => CountConnectionAgrees(s, h);
          case Authenticate(_, _) =>
          case Unregister(h) => UnregisterAgrees(s, h);
          case Lower(h) => LowerAgrees(s, h);
          case CountRequest(c, failed) => CountRequestAgrees(s, c, failed);
          case CountOutcome(c) => CountOutcomeAgrees(s, c);
          case _ =>
        }
      }
    }
  }

  /** At every step the gauge differs from the registry by exactly the handlers between the two
      updates of their opening, less those between the two updates of their closing. */
  lemma GaugeAgreement(steps: seq<Step>)
    ensures var s := Execute(steps);
            && |s.table.byID| - s.counters.activeSessions
               == |In(s.handlers, Registered)| - |In(s.handlers, Unregistered)|
            && s.counters.activeSessions >= 0
            && s.counters.connectionsTotal <= |s.handlers|
  {
    ExecuteAgrees(steps);
  }

  /** The steps of a run that were taken, each when it could be. */
  function Taken(steps: seq<Step>): seq<Step> {
    if steps == [] then []
    else
      var front, last := steps[..|steps| - 1], steps[|steps| - 1];
      Taken(front) + if CanStep(Execute(front), last) then [last] else []
  }

  function Messages(taken: seq<Step>): nat {
    if taken == [] then 0 else Messages(taken[..|taken| - 1]) + if taken[|taken| - 1].CountMessage? then 1 else 0
  }

  function Errors(taken: seq<Step>): nat {
    if taken == [] then 0 else Errors(taken[..|taken| - 1]) + if taken[|taken| - 1].CountError? then 1 else 0
  }

  function Matches(taken: seq<Step>): nat {
    if taken == [] then 0 else Matches(taken[..|taken| - 1]) + if taken[|taken| - 1].CountMatch? then 1 else 0
  }

  lemma TakenAppend(taken: seq<Step>, step: Step)
    ensures Messages(taken + [step]) == Messages(taken) + if step.CountMessage? then 1 else 0
    ensures Errors(taken + [step]) == Errors(taken) + if step.CountError? then 1 else 0
    ensures Matches(taken + [step]) == Matches(taken) + if step.CountMatch? then 1 else 0
  {
    assert (taken + [step])[..|taken|] == taken;
  }

  /** The three plain counters count: each is the number of its events in the run, and no other step
      touches it. */
  lemma {:induction false} CountersCount(steps: seq<Step>)
    ensures var c, taken := Execute(steps).counters, Taken(steps);
            c.messagesTotal == Messages(taken) && c.errorsTotal == Errors(taken) && c.matchFoundTotal == Matches(taken)
  {
    if steps != [] {
      var front, last := steps[..|steps| - 1], steps[|steps| - 1];
      CountersCount(front);
      if CanStep(Execute(front), last) {
        TakenAppend(Taken(front), last);
      } else {
        assert Taken(steps) == Taken(front);
      }
    }
  }

  /** Failures never outnumber requests, whatever comes between counting a request and counting its
      failure; the gap is the requests that succeeded or whose outcome is not recorded yet. */
  lemma FailuresWithinRequests(steps: seq<Step>)
    ensures var c := Execute(steps).counters;
            && c.coreErrorsTotal <= c.coreRequestsTotal
            && c.coreRequestsTotal - c.coreErrorsTotal == |OtherCalls(Execute(steps).calls)|
  {
    var s := Execute(steps);
    ExecuteAgrees(steps);
    assert s.calls.Keys == FailedCalls(s.calls) + OtherCalls(s.calls);
  }
}
