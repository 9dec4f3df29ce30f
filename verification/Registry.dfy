// The session registry: every session by its identifier, and the current session of each player.
// Sessions are named by the number in their identifier.

module Registry {
  import opened Wrappers

  // ---------------------------------------------------------------- specification

  /** `playerOf` is the player a session holds; the empty string is none. */
  datatype Table = Table(nextID: nat, byID: set<nat>, byPlayer: map<string, nat>, playerOf: map<nat, string>)

  const NoSessions := Table(0, {}, map[], map[])

  function Added(t: Table): Table {
    Table(t.nextID + 1, t.byID + {t.nextID + 1}, t.byPlayer, t.playerOf[t.nextID + 1 := ""])
  }

  function Bound(t: Table, s: nat, player: string): Table {
    t.(byPlayer := t.byPlayer[player := s], playerOf := t.playerOf[s := player])
  }

  function Removed(t: Table, s: nat): Table {
    var player := if s in t.playerOf then t.playerOf[s] else "";
    t.(byID := t.byID - {s},
       byPlayer := if player != "" && player in t.byPlayer && t.byPlayer[player] == s then t.byPlayer - {player}
                   else t.byPlayer)
  }

  datatype Op = Add | Bind(session: nat, player: string) | Remove(session: nat)

  /** A connection handler binds non-empty players to its session while it is registered, and
      removes it once. */
  predicate Enabled(t: Table, op: Op) {
    match op
    case Add => true
    case Bind(s, player) => s in t.byID && player != ""
    case Remove(s) => s in t.byID
  }

  function Next(t: Table, op: Op): Table {
    match op
    case Add => Added(t)
    case Bind(s, player) => Bound(t, s, player)
    case Remove(s) => Removed(t, s)
  }

  function Run(ops: seq<Op>): Table {
    if ops == [] then NoSessions else Next(Run(ops[..|ops| - 1]), ops[|ops| - 1])
  }

  predicate Lawful(ops: seq<Op>) {
    ops != [] ==> Lawful(ops[..|ops| - 1]) && Enabled(Run(ops[..|ops| - 1]), ops[|ops| - 1])
  }

  // ---------------------------------------------------------------- history

  function LastBinder(ops: seq<Op>, player: string): Option<nat> {
    if ops == [] then None
    else
      var last := ops[|ops| - 1];
      if last.Bind? && last.player == player then Some(last.session) else LastBinder(ops[..|ops| - 1], player)
  }

  /** The player a session bound last, or the empty string. */
  function LastPlayer(ops: seq<Op>, s: nat): string {
    if ops == [] then ""
    else
      var last := ops[|ops| - 1];
      if last.Bind? && last.session == s then last.player else LastPlayer(ops[..|ops| - 1], s)
  }

  function Adds(ops: seq<Op>): nat {
    if ops == [] then 0 else Adds(ops[..|ops| - 1]) + (if ops[|ops| - 1].Add? then 1 else 0)
  }

  function Removes(ops: seq<Op>): nat {
    if ops == [] then 0 else Removes(ops[..|ops| - 1]) + (if ops[|ops| - 1].Remove? then 1 else 0)
  }

  predicate IsRemoved(ops: seq<Op>, s: nat) {
    Remove(s) in ops
  }

  lemma RemovedLast(ops: seq<Op>, s: nat)
    requires ops != []
    ensures IsRemoved(ops, s) <==> IsRemoved(ops[..|ops| - 1], s) || ops[|ops| - 1] == Remove(s)
  {
    var front, last := ops[..|ops| - 1], ops[|ops| - 1];
    assert ops == front + [last];
  }

  // ---------------------------------------------------------------- laws

  /** `byID` holds exactly the sessions added and not removed, under the numbers 1, 2, and so on,
      and its size is the difference of the two. */
  lemma {:induction false} ActiveSessions(ops: seq<Op>)
    requires Lawful(ops)
    ensures var t := Run(ops);
            && t.nextID == Adds(ops)
            && (forall s: nat :: s in t.byID <==> 1 <= s <= Adds(ops) && !IsRemoved(ops, s))
            && |t.byID| == Adds(ops) - Removes(ops)
  {
    if ops != [] {
      var front, last := ops[..|ops| - 1], ops[|ops| - 1];
      ActiveSessions(front);
      NeverRemovedEarly(front, Adds(ops));
      forall s: nat ensures IsRemoved(ops, s) <==> IsRemoved(front, s) || last == Remove(s) {
        RemovedLast(ops, s);
      }
    }
  }

  lemma {:induction false} NeverRemovedEarly(ops: seq<Op>, s: nat)
    requires Lawful(ops)
    ensures IsRemoved(ops, s) ==> s <= Run(ops).nextID
    ensures forall k | k in Run(ops).byID :: k <= Run(ops).nextID
  {
    if ops != [] {
      NeverRemovedEarly(ops[..|ops| - 1], s);
      RemovedLast(ops, s);
    }
  }

  lemma {:induction false} PlayersTracked(ops: seq<Op>, s: nat)
    requires Lawful(ops)
    ensures (if s in Run(ops).playerOf then Run(ops).playerOf[s] else "") == LastPlayer(ops, s)
    ensures s > Run(ops).nextID ==> LastPlayer(ops, s) == ""
  {
    if ops != [] {
      var front := ops[..|ops| - 1];
      PlayersTracked(front, s);
      NeverRemovedEarly(front, s);
    }
  }

  lemma {:induction false} BindersKnown(ops: seq<Op>, player: string)
    requires Lawful(ops)
    ensures LastBinder(ops, player).Some? ==> player != "" && LastBinder(ops, player).value <= Run(ops).nextID
  {
    if ops != [] {
      BindersKnown(ops[..|ops| - 1], player);
      NeverRemovedEarly(ops[..|ops| - 1], 0);
    }
  }

  /** A player's entry is its last binder, until that session is removed while still holding the
      player. In particular an older session, when removed, leaves its replacement in place. */
  lemma {:induction false} PlayerEntry(ops: seq<Op>, player: string, s: nat)
    requires Lawful(ops)
    ensures (player in Run(ops).byPlayer && Run(ops).byPlayer[player] == s)
       <==> LastBinder(ops, player) == Some(s) && !(IsRemoved(ops, s) && LastPlayer(ops, s) == player)
  {
    if ops != [] {
      var front, last := ops[..|ops| - 1], ops[|ops| - 1];
      PlayerEntry(front, player, s);
      PlayersTracked(front, s);
      BindersKnown(front, player);
      RemovedLast(ops, s);
      ActiveSessions(front);
      if last.Remove? {
        PlayersTracked(front, last.session);
        PlayerEntry(front, player, last.session);
      }
    }
  }

  /** No session of the run binds two different players. */
  predicate OnePlayerEach(ops: seq<Op>) {
    forall i, j :: 0 <= i < j < |ops| && ops[i].Bind? && ops[j].Bind? && ops[i].session == ops[j].session ==>
      ops[i].player == ops[j].player
  }

  lemma {:induction false} OnlyPlayer(ops: seq<Op>, s: nat, player: string)
    requires OnePlayerEach(ops) && Bind(s, player) in ops
    ensures LastPlayer(ops, s) == player
  {
    var front, last := ops[..|ops| - 1], ops[|ops| - 1];
    if !(last.Bind? && last.session == s) {
      assert ops == front + [last];
      OnlyPlayer(front, s, player);
    } else {
      var i :| 0 <= i < |ops| && ops[i] == Bind(s, player);
      assert i < |ops| - 1 ==> ops[i].player == last.player;
    }
  }

  lemma {:induction false} BinderBound(ops: seq<Op>, player: string)
    ensures LastBinder(ops, player).Some? ==> Bind(LastBinder(ops, player).value, player) in ops
  {
    if ops != [] {
      var front, last := ops[..|ops| - 1], ops[|ops| - 1];
      BinderBound(front, player);
      assert ops == front + [last];
    }
  }

  /** With one player per session, a player's entry is the last session to bind it, if that session
      has not been removed. */
  lemma PlayerEntryIsLastBinder(ops: seq<Op>, player: string, s: nat)
    requires Lawful(ops) && OnePlayerEach(ops)
    ensures (player in Run(ops).byPlayer && Run(ops).byPlayer[player] == s)
       <==> LastBinder(ops, player) == Some(s) && !IsRemoved(ops, s)
  {
    PlayerEntry(ops, player, s);
    if LastBinder(ops, player) == Some(s) {
      BinderBound(ops, player);
      OnlyPlayer(ops, s, player);
    }
  }
}
