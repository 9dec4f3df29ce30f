// The session objects and their manager, represented by the table of module Registry.

module SessionManager {
  import opened Arithmetic
  import opened Wrappers
  import opened Decimal
  import opened Identifiers
  import opened Limiter
  import opened Registry

  const SECOND := 1_000_000_000
  const TWO_TO_64 := 2 * (MAX_INT64 + 1)

  /** Go's signed 64-bit integers. */
  type int64 = x: int | -MAX_INT64 - 1 <= x <= MAX_INT64

  /** One more, as a 64-bit counter counts. */
  function Increment(n: int64): int64 {
    if n < MAX_INT64 then n + 1 else -MAX_INT64 - 1
  }

  /** A counter that has been incremented `n` times from zero. */
  function Wrap(n: nat): (r: int64)
    ensures n <= MAX_INT64 ==> r == n
    ensures MAX_INT64 < n < TWO_TO_64 ==> r == n - TWO_TO_64
  {
    var low := n % TWO_TO_64;
    if low <= MAX_INT64 then low else low - TWO_TO_64
  }

  /** The identifier printed from a counter; a negative one prints without a number. */
  function IDText(counter: int64): string {
    if counter >= 0 then SessionText(counter) else "session_"
  }

  method SessionID(counter: int64) returns (id: string)
    ensures id == IDText(counter)
  {
    var text := FormatInt(counter);
    id := "session_" + text;
  }

  class Session {
    const id: string
    const serial: nat  // the number in the identifier, if there is one
    const limiter: RateLimiter
    var playerID: string
    var authed: bool
    var pendingTicket: Option<nat>

    constructor (serial: nat, id: string, limiter: RateLimiter)
      ensures this.serial == serial && this.id == id && this.limiter == limiter
      ensures playerID == "" && !authed && pendingTicket == None
    {
      this.serial, this.id, this.limiter := serial, id, limiter;
      playerID, authed, pendingTicket := "", false, None;
    }
  }

  /** A session as it is before anybody uses it. */
  predicate Unused(s: Session, counter: int64, rateLimit: int)
    reads s, s.limiter
  {
    && s.id == IDText(counter) && (counter >= 0 ==> s.serial == counter)
    && s.playerID == "" && !s.authed && s.pendingTicket == None
    && s.limiter.limit == (if rateLimit >= 1 then rateLimit else 1)
    && s.limiter.window == SECOND && s.limiter.View() == Fresh
  }

  method NewSession(counter: int64, rateLimit: int) returns (s: Session)
    ensures fresh(s) && fresh(s.limiter) && Unused(s, counter, rateLimit)
  {
    var id := SessionID(counter);
    var limiter := new RateLimiter(rateLimit, SECOND);
    s := new Session(if counter >= 0 then counter else 0, id, limiter);
  }

  // ---------------------------------------------------------------- representation

  /** Sessions are numbered and printed from one on. */
  predicate NumbersOk(issued: map<nat, Session>, last: nat) {
    && (forall n | n in issued :: 1 <= n <= last && issued[n].serial == n)
    && (forall n: nat {:trigger SessionText(n)} | n in issued :: issued[n].id == SessionText(n))
  }

  /** `byID` holds exactly the sessions of these numbers under their identifiers. */
  predicate ByIDOk(byID: map<string, Session>, issued: map<nat, Session>, numbers: set<nat>) {
    && (forall n | n in numbers :: n in issued && issued[n].id in byID && byID[issued[n].id] == issued[n])
    && (forall id | id in byID ::
          byID[id].id == id && byID[id].serial in numbers && issued[byID[id].serial] == byID[id])
  }

  predicate ByPlayerOk(byPlayer: map<string, Session>, issued: map<nat, Session>, entries: map<string, nat>) {
    && byPlayer.Keys == entries.Keys
    && forall p | p in byPlayer ::
         byPlayer[p].serial == entries[p] && entries[p] in issued && issued[entries[p]] == byPlayer[p]
  }

  lemma NumbersAdd(issued: map<nat, Session>, s: Session, last: nat)
    requires NumbersOk(issued, last) && s.serial == last + 1 && s.id == SessionText(s.serial)
    ensures NumbersOk(issued[s.serial := s], last + 1)
  {}

  lemma ByIDAdd(byID: map<string, Session>, issued: map<nat, Session>, numbers: set<nat>, s: Session, last: nat)
    requires ByIDOk(byID, issued, numbers) && NumbersOk(issued, last) && s.serial > last
    requires s.id == SessionText(s.serial)
    ensures ByIDOk(byID[s.id := s], issued[s.serial := s], numbers + {s.serial})
  {
    forall n | n in numbers
      ensures n != s.serial && issued[n].id != s.id
    {
      TextsNameNumbers(n, s.serial);
    }
  }

  lemma ByPlayerAdd(byPlayer: map<string, Session>, issued: map<nat, Session>, entries: map<string, nat>, s: Session)
    requires ByPlayerOk(byPlayer, issued, entries) && s.serial !in issued
    ensures ByPlayerOk(byPlayer, issued[s.serial := s], entries)
  {}

  lemma ByPlayerBind(
      byPlayer: map<string, Session>, issued: map<nat, Session>, entries: map<string, nat>, s: Session, player: string)
    requires ByPlayerOk(byPlayer, issued, entries) && s.serial in issued && issued[s.serial] == s
    ensures ByPlayerOk(byPlayer[player := s], issued, entries[player := s.serial])
  {}

  lemma ByPlayerRemove(
      byPlayer: map<string, Session>, issued: map<nat, Session>, entries: map<string, nat>, player: string)
    requires ByPlayerOk(byPlayer, issued, entries)
    ensures ByPlayerOk(byPlayer - {player}, issued, entries - {player})
  {}

  lemma ByIDRemove(byID: map<string, Session>, issued: map<nat, Session>, numbers: set<nat>, s: Session, last: nat)
    requires ByIDOk(byID, issued, numbers) && NumbersOk(issued, last)
    requires s.serial in issued && issued[s.serial] == s
    ensures ByIDOk(byID - {s.id}, issued, numbers - {s.serial})
  {
    forall n | n in numbers && n != s.serial
      ensures issued[n].id != s.id
    {
      TextsNameNumbers(n, s.serial);
    }
  }

  lemma {:induction false} ByIDCounted(
      byID: map<string, Session>, issued: map<nat, Session>, numbers: set<nat>, last: nat)
    requires ByIDOk(byID, issued, numbers) && NumbersOk(issued, last)
    ensures |byID| == |numbers|
    decreases |numbers|
  {
    if numbers == {} {
      assert byID == map[];
    } else {
      var n :| n in numbers;
      var s := issued[n];
      ByIDRemove(byID, issued, numbers, s, last);
      ByIDCounted(byID - {s.id}, issued, numbers - {n}, last);
      assert byID.Keys == (byID - {s.id}).Keys + {s.id};
    }
  }

  class Manager {
    var nextID: int64
    var byID: map<string, Session>
    var byPlayer: map<string, Session>
    ghost var issued: map<nat, Session>  // every session ever added, by number
    ghost var table: Table

    constructor ()
      ensures Valid() && table == NoSessions && issued == map[]
    {
      nextID, byID, byPlayer := 0, map[], map[];
      issued, table := map[], NoSessions;
    }

    /** The session came from this manager. */
    ghost predicate Owns(s: Session)
      reads this
    {
      s.serial in issued && issued[s.serial] == s
    }

    /** The fields represent the table; this ends only when the counter wraps around. */
    ghost predicate Valid()
      reads this, issued.Values
    {
      && nextID == table.nextID
      && issued.Keys == table.playerOf.Keys
      && NumbersOk(issued, table.nextID)
      && (forall n | n in issued :: issued[n].playerID == table.playerOf[n])
      && ByIDOk(byID, issued, table.byID)
      && ByPlayerOk(byPlayer, issued, table.byPlayer)
    }

    /** The fields, for every value of the counter; the table, as long as the counter counts. */
    method Add(rateLimit: int) returns (s: Session)
      modifies this
      ensures nextID == Increment(old(nextID))
      ensures fresh(s) && fresh(s.limiter) && Unused(s, nextID, rateLimit)
      ensures byID == old(byID)[s.id := s] && byPlayer == old(byPlayer)
      ensures old(Valid()) && old(nextID) < MAX_INT64 ==>
                Valid() && table == Added(old(table)) && issued == old(issued)[s.serial := s]
    {
      nextID := Increment(nextID);
      s := NewSession(nextID, rateLimit);
      byID := byID[s.id := s];
      if old(Valid()) && old(nextID) < MAX_INT64 {
        ByIDAdd(old(byID), issued, table.byID, s, table.nextID);
        ByPlayerAdd(byPlayer, issued, table.byPlayer, s);
        NumbersAdd(issued, s, table.nextID);
      }
      issued, table := issued[s.serial := s], Added(table);
    }

    method BindPlayer(s: Session, player: string)
      modifies this`byPlayer, this`table, s`playerID, s`authed
      ensures s.authed && s.playerID == player && byPlayer == old(byPlayer)[player := s]
      ensures old(Valid() && Owns(s)) ==> Valid() && table == Bound(old(table), s.serial, player)
    {
      if Valid() && Owns(s) {
        ByPlayerBind(byPlayer, issued, table.byPlayer, s, player);
      }
      s.playerID := player;
      s.authed := true;
      byPlayer := byPlayer[player := s];
      table := Bound(table, s.serial, player);
    }

    method Remove(s: Session)
      modifies this`byID, this`byPlayer, this`table
      ensures byID == old(byID) - {s.id}
      ensures var p := s.playerID;
              byPlayer == if p != "" && p in old(byPlayer) && old(byPlayer)[p] == s then old(byPlayer) - {p}
                          else old(byPlayer)
      ensures old(Valid() && Owns(s)) ==> Valid() && table == Removed(old(table), s.serial)
    {
      if Valid() && Owns(s) {
        ByIDRemove(byID, issued, table.byID, s, table.nextID);
        ByPlayerRemove(byPlayer, issued, table.byPlayer, s.playerID);
      }
      byID := byID - {s.id};
      var player := s.playerID;
      if player != "" && player in byPlayer && byPlayer[player] == s {
        byPlayer := byPlayer - {player};
      }
      table := Removed(table, s.serial);
    }

    method ActiveCount() returns (n: nat)
      ensures n == |byID|
      ensures Valid() ==> n == |table.byID|
    {
      n := |byID|;
      if Valid() {
        ByIDCounted(byID, issued, table.byID, table.nextID);
      }
    }
  }

  // ---------------------------------------------------------------- fresh identifiers

  /** The counter after a run: each addition increments it. */
  function Counter(ops: seq<Op>): int64 {
    if ops == [] then 0
    else
      var before := Counter(ops[..|ops| - 1]);
      if ops[|ops| - 1].Add? then Increment(before) else before
  }

  /** The identifiers that the additions of a run give out, in order. */
  function IssuedIDs(ops: seq<Op>): seq<string> {
    if ops == [] then []
    else IssuedIDs(ops[..|ops| - 1]) + (if ops[|ops| - 1].Add? then [IDText(Counter(ops))] else [])
  }

  /** Incrementing is what wrapping counts. */
  lemma WrapCounts(n: nat)
    ensures Wrap(n + 1) == Increment(Wrap(n))
  {
    var q, r := n / TWO_TO_64, n % TWO_TO_64;
    if r + 1 < TWO_TO_64 {
      QuotientUnique(n + 1, TWO_TO_64, q, r + 1);
      assert n + 1 == q * TWO_TO_64 + (r + 1);
    } else {
      QuotientUnique(n + 1, TWO_TO_64, q + 1, 0);
    }
  }

  lemma {:induction false} CounterWraps(ops: seq<Op>)
    ensures Counter(ops) == Wrap(Adds(ops))
  {
    if ops != [] {
      CounterWraps(ops[..|ops| - 1]);
      WrapCounts(Adds(ops[..|ops| - 1]));
    }
  }

  lemma {:induction false} IssuedInOrder(ops: seq<Op>)
    ensures |IssuedIDs(ops)| == Adds(ops)
    ensures forall i :: 0 <= i < |IssuedIDs(ops)| ==> IssuedIDs(ops)[i] == IDText(Wrap(i + 1))
  {
    if ops != [] {
      IssuedInOrder(ops[..|ops| - 1]);
      CounterWraps(ops);
    }
  }

  lemma NumberedText(n: nat)
    ensures SessionText(n) != "session_"
  {
    assert |SessionText(n)| == |"session_"| + |Numeral(n)|;
  }

  lemma TwoIDs(m: nat, n: nat, id: string, id': string)
    requires m < n <= MAX_INT64 + 1
    requires id == IDText(Wrap(m)) && id' == IDText(Wrap(n))
    ensures id != id'
  {
    var a, b := Wrap(m), Wrap(n);
    assert a == m;
    if n <= MAX_INT64 {
      TextsNameNumbers(m, n);
    } else {
      assert b < 0;
      NumberedText(m);
    }
  }

  lemma UnnumberedIDs(m: nat, n: nat)
    requires MAX_INT64 < m < TWO_TO_64 && MAX_INT64 < n < TWO_TO_64
    ensures IDText(Wrap(m)) == IDText(Wrap(n))
  {}

  predicate AllDistinct(ids: seq<string>) {
    forall i, j :: 0 <= i < j < |ids| ==> ids[i] != ids[j]
  }

  lemma FewAreDistinct(ids: seq<string>)
    requires |ids| <= MAX_INT64 + 1
    requires forall i :: 0 <= i < |ids| ==> ids[i] == IDText(Wrap(i + 1))
    ensures AllDistinct(ids)
  {
    forall i, j | 0 <= i < j < |ids|
      ensures ids[i] != ids[j]
    {
      TwoIDs(i + 1, j + 1, ids[i], ids[j]);
    }
  }

  lemma ManyRepeat(ids: seq<string>, k: nat)
    requires k == MAX_INT64 && |ids| > k + 1
    requires forall i :: 0 <= i < |ids| ==> ids[i] == IDText(Wrap(i + 1))
    ensures !AllDistinct(ids)
  {
    UnnumberedIDs(k + 1, k + 2);
    assert ids[k] == IDText(Wrap(k + 1)) && ids[k + 1] == IDText(Wrap(k + 2));
  }

  /** The sessions of a run get different identifiers if and only if it adds at most 2^63 sessions: the
      counter then turns negative, and negative numbers print as nothing. */
  lemma IdentifiersAreFresh(ops: seq<Op>)
    ensures AllDistinct(IssuedIDs(ops)) <==> Adds(ops) <= MAX_INT64 + 1
  {
    IssuedInOrder(ops);
    if Adds(ops) <= MAX_INT64 + 1 {
      FewAreDistinct(IssuedIDs(ops));
    } else {
      ManyRepeat(IssuedIDs(ops), MAX_INT64);
    }
  }
}
