// The printed identifiers of sessions, tickets, matches and rooms. The other modules name each of
// these by its number; printing loses nothing, and no printed identifier is the empty string.

module Identifiers {
  import opened Decimal

  function Printed(prefix: string, n: nat): string {
    prefix + Numeral(n)
  }

  lemma PrintedInjective(prefix: string, m: nat, n: nat)
    requires Printed(prefix, m) == Printed(prefix, n)
    ensures m == n
  {
    assert Printed(prefix, m)[|prefix|..] == Numeral(m);
    assert Printed(prefix, n)[|prefix|..] == Numeral(n);
    NumeralInjective(m, n);
  }

  function SessionText(n: nat): string {
    Printed("session_", n)
  }

  function TicketText(n: nat): string {
    Printed("ticket_", n)
  }

  function MatchText(n: nat): string {
    Printed("match_", n)
  }

  function RoomText(n: nat): string {
    Printed("room_demo_", n)
  }

  lemma TextsNameNumbers(m: nat, n: nat)
    ensures SessionText(m) == SessionText(n) <==> m == n
    ensures TicketText(m) == TicketText(n) <==> m == n
    ensures MatchText(m) == MatchText(n) <==> m == n
    ensures RoomText(m) == RoomText(n) <==> m == n
  {
    if SessionText(m) == SessionText(n) {
      PrintedInjective("session_", m, n);
    }
    if TicketText(m) == TicketText(n) {
      PrintedInjective("ticket_", m, n);
    }
    if MatchText(m) == MatchText(n) {
      PrintedInjective("match_", m, n);
    }
    if RoomText(m) == RoomText(n) {
      PrintedInjective("room_demo_", m, n);
    }
  }
}
