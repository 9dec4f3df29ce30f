// The fixed-window rate limiter of a session. Times count from Go's zero time, which the limiter
// uses to mean that no window is open yet; a real clock never shows it.

module Limiter {
  import opened Arithmetic
  import opened Sequences

  const ZERO_TIME := 0

  datatype State = State(windowStart: int, count: nat)

  const Fresh := State(ZERO_TIME, 0)

  function Decide(limit: int, window: int, s: State, now: int): (State, bool) {
    var open := if s.windowStart == ZERO_TIME || now - s.windowStart >= window then State(now, 0) else s;
    if open.count >= limit then (open, false) else (open.(count := open.count + 1), true)
  }

  class RateLimiter {
    const limit: int
    const window: int
    var windowStart: int
    var count: nat

    constructor (limit: int, window: int)
      ensures this.limit == if limit >= 1 then limit else 1
      ensures this.window == window && View() == Fresh
    {
      this.limit := if limit <= 0 then 1 else limit;
      this.window, windowStart, count := window, ZERO_TIME, 0;
    }

    function View(): State
      reads this
    {
      State(windowStart, count)
    }

    method Allow(now: int) returns (ok: bool)
      modifies this
      ensures (View(), ok) == Decide(limit, window, old(View()), now)
    {
      if windowStart == ZERO_TIME || now - windowStart >= window {
        windowStart := now;
        count := 0;
      }
      if count >= limit {
        return false;
      }
      count := count + 1;
      return true;
    }
  }

  /** Which messages of a trace are admitted. */
  function Admitted(limit: int, window: int, s: State, times: seq<int>): (flags: seq<bool>)
    ensures |flags| == |times|
    decreases |times|
  {
    if times == [] then []
    else
      var (s', ok) := Decide(limit, window, s, times[0]);
      [ok] + Admitted(limit, window, s', times[1..])
  }

  predicate RealTimes(times: seq<int>) {
    NotBefore(times, ZERO_TIME + 1)
  }

  predicate NotBefore(times: seq<int>, start: int) {
    forall i :: 0 <= i < |times| ==> times[i] >= start
  }

  predicate NonDecreasing(times: seq<int>) {
    forall i, j :: 0 <= i < j < |times| ==> times[i] <= times[j]
  }

  // ---------------------------------------------------------------- greedy windows

  /** How many leading messages come less than `window` after `start`. */
  function Within(start: int, window: int, times: seq<int>): (n: nat)
    ensures n <= |times|
    ensures n < |times| ==> times[n] - start >= window
  {
    if times == [] || times[0] - start >= window then 0 else 1 + Within(start, window, times[1..])
  }

  /** In a window of `n` messages, `used` messages of which came before, the first `limit` pass. */
  function FirstOf(limit: int, used: nat, n: nat): seq<bool>
    decreases n
  {
    if n == 0 then [] else [used < limit] + FirstOf(limit, used + 1, n - 1)
  }

  /** Cuts the trace into windows, each opened by the first message not in the one before, and
      admits the first `limit` messages of every window. */
  function Greedy(limit: int, window: int, times: seq<int>): seq<bool>
    decreases |times|
  {
    if times == [] then []
    else
      var n := WindowSize(window, times);
      FirstOf(limit, 0, n) + Greedy(limit, window, times[n..])
  }

  function Used(limit: int, seen: nat): nat
    requires limit >= 1
  {
    if seen < limit then seen else limit
  }

  /** The rest of an open window of which `seen` messages have passed; `n` more fall into it. */
  lemma {:induction false} InsideWindow(
      limit: int, window: int, start: int, seen: nat, times: seq<int>, n: nat, rest: seq<bool>)
    requires limit >= 1 && start > ZERO_TIME && n == Within(start, window, times)
    requires rest == Admitted(limit, window, State(start, Used(limit, seen + n)), times[n..])
    ensures Admitted(limit, window, State(start, Used(limit, seen)), times) == FirstOf(limit, seen, n) + rest
    decreases n
  {
    if n == 0 {
      assert times[0..] == times;
    } else {
      DropTwice(times, n);
      NextMessage(limit, window, start, seen, times);
      InsideWindow(limit, window, start, seen + 1, times[1..], n - 1, rest);
      Associate([seen < limit], FirstOf(limit, seen + 1, n - 1), rest);
    }
  }

  lemma NextMessage(limit: int, window: int, start: int, seen: nat, times: seq<int>)
    requires limit >= 1 && start > ZERO_TIME && times != [] && times[0] - start < window
    ensures Admitted(limit, window, State(start, Used(limit, seen)), times)
         == [seen < limit] + Admitted(limit, window, State(start, Used(limit, seen + 1)), times[1..])
  {}

  function WindowSize(window: int, times: seq<int>): (n: nat)
    requires times != []
    ensures 1 <= n <= |times|
  {
    1 + Within(times[0], window, times[1..])
  }

  lemma OpeningMessage(limit: int, window: int, s: State, times: seq<int>)
    requires limit >= 1 && times != []
    requires s.windowStart == ZERO_TIME || times[0] - s.windowStart >= window
    ensures Admitted(limit, window, s, times)
         == [true] + Admitted(limit, window, State(times[0], Used(limit, 1)), times[1..])
  {}

  /** One whole window, from a state in which the next message opens it. */
  lemma WholeWindow(limit: int, window: int, s: State, times: seq<int>)
    requires limit >= 1 && times != [] && times[0] > ZERO_TIME
    requires s.windowStart == ZERO_TIME || times[0] - s.windowStart >= window
    ensures var n := WindowSize(window, times);
            && Admitted(limit, window, s, times)
            == FirstOf(limit, 0, n) + Admitted(limit, window, State(times[0], Used(limit, n)), times[n..])
  {
    var n := WindowSize(window, times);
    var rest := Admitted(limit, window, State(times[0], Used(limit, n)), times[n..]);
    OpeningMessage(limit, window, s, times);
    DropTwice(times, n);
    InsideWindow(limit, window, times[0], 1, times[1..], n - 1, rest);
    Associate([true], FirstOf(limit, 1, n - 1), rest);
  }

  lemma {:induction false} OpeningIsGreedy(limit: int, window: int, s: State, times: seq<int>)
    requires limit >= 1 && RealTimes(times)
    requires s.windowStart == ZERO_TIME || times == [] || times[0] - s.windowStart >= window
    ensures Admitted(limit, window, s, times) == Greedy(limit, window, times)
    decreases |times|
  {
    if times != [] {
      var n := WindowSize(window, times);
      WholeWindow(limit, window, s, times);
      OpeningIsGreedy(limit, window, State(times[0], Used(limit, n)), times[n..]);
    }
  }

  /** The limiter admits exactly what the greedy windows admit. */
  lemma LimiterIsGreedy(limit: int, window: int, times: seq<int>)
    requires limit >= 1 && RealTimes(times)
    ensures Admitted(limit, window, Fresh, times) == Greedy(limit, window, times)
  {
    OpeningIsGreedy(limit, window, Fresh, times);
  }

  // ---------------------------------------------------------------- rate bound

  /** How many admitted messages fall in the half-open interval from `from` to `to`. */
  function CountIn(flags: seq<bool>, times: seq<int>, from: int, to: int): nat
    requires |flags| == |times|
  {
    if times == [] then 0
    else (if flags[0] && from <= times[0] < to then 1 else 0) + CountIn(flags[1..], times[1..], from, to)
  }

  /** The least number of windows that cover a length, counted one by one. */
  function Windows(length: int, window: int): nat
    requires window > 0
    decreases if length > 0 then length else 0
  {
    if length <= 0 then 0 else 1 + Windows(length - window, window)
  }

  function Ceiling(length: int, window: int): int
    requires window > 0
  {
    (length + window - 1) / window
  }

  lemma DivisionStep(n: int, d: int)
    requires d > 0
    ensures (n + d) / d == n / d + 1
  {
    var q, r := n / d, n % d;
    assert n + d == (q + 1) * d + r;
    QuotientUnique(n + d, d, q + 1, r);
  }

  lemma {:induction false} WindowsIsCeiling(length: int, window: int)
    requires window > 0 && length >= 0
    ensures Windows(length, window) == Ceiling(length, window)
    decreases length
  {
    if length == 0 {
      QuotientUnique(window - 1, window, 0, window - 1);
    } else if length <= window {
      QuotientUnique(length + window - 1, window, 1, length - 1);
    } else {
      WindowsIsCeiling(length - window, window);
      DivisionStep(length - 1, window);
    }
  }

  lemma {:induction false} WindowsMonotone(short: int, long: int, window: int)
    requires window > 0 && short <= long
    ensures Windows(short, window) <= Windows(long, window)
    decreases if long > 0 then long else 0
  {
    if short > 0 {
      WindowsMonotone(short - window, long - window, window);
    }
  }

  lemma TimesMonotone(limit: nat, m: nat, n: nat)
    requires m <= n
    ensures limit * m <= limit * n
  {}

  lemma {:induction false} NoneAfter(flags: seq<bool>, times: seq<int>, from: int, to: int)
    requires |flags| == |times|
    requires NotBefore(times, to)
    ensures CountIn(flags, times, from, to) == 0
  {
    if times != [] {
      NoneAfter(flags[1..], times[1..], from, to);
    }
  }

  lemma LaterTimes(times: seq<int>)
    requires times != [] && NonDecreasing(times) && RealTimes(times)
    ensures NonDecreasing(times[1..]) && RealTimes(times[1..])
    ensures times[0] > ZERO_TIME && NotBefore(times[1..], times[0])
  {}

  /** From inside an open window, at most what that window has left and one full window for each
      window length up to `to`. */
  lemma {:induction false} BoundInside(limit: nat, window: int, s: State, times: seq<int>, from: int, to: int)
    requires limit >= 1 && window > 0
    requires NonDecreasing(times) && RealTimes(times)
    requires s.windowStart > ZERO_TIME && s.count <= limit && NotBefore(times, s.windowStart)
    ensures CountIn(Admitted(limit, window, s, times), times, from, to)
         <= limit - s.count + limit * Windows(to - s.windowStart - window, window)
    decreases |times|
  {
    if times != [] {
      LaterTimes(times);
      var t := times[0];
      if t >= to {
        NoneAfter(Admitted(limit, window, s, times), times, from, to);
      } else {
        var (s', _) := Decide(limit, window, s, t);
        BoundInside(limit, window, s', times[1..], from, to);
        if t - s.windowStart >= window {
          WindowsMonotone(to - t, to - s.windowStart - window, window);
          TimesMonotone(limit, Windows(to - t, window), Windows(to - s.windowStart - window, window));
          OneMoreWindow(limit, window, to - t);
        }
      }
    }
  }

  lemma OneMoreWindow(limit: nat, window: int, length: int)
    requires window > 0 && length > 0
    ensures limit * Windows(length, window) == limit + limit * Windows(length - window, window)
  {
    var n := Windows(length - window, window);
    assert limit * (1 + n) == limit + limit * n;
  }

  /** A message that opens a window. */
  lemma BoundOpening(limit: nat, window: int, s: State, times: seq<int>, from: int, to: int)
    requires limit >= 1 && window > 0
    requires NonDecreasing(times) && RealTimes(times) && times != [] && from <= times[0]
    requires s.windowStart == ZERO_TIME || times[0] - s.windowStart >= window
    ensures CountIn(Admitted(limit, window, s, times), times, from, to) <= limit * Windows(to - from, window)
  {
    LaterTimes(times);
    var t := times[0];
    if t >= to {
      NoneAfter(Admitted(limit, window, s, times), times, from, to);
    } else {
      OpeningMessage(limit, window, s, times);
      BoundInside(limit, window, State(t, 1), times[1..], from, to);
      OneMoreWindow(limit, window, to - t);
      WindowsMonotone(to - t, to - from, window);
      TimesMonotone(limit, Windows(to - t, window), Windows(to - from, window));
    }
  }

  /** The greatest number of messages that can pass in an interval: either full windows from its start
      on, or first what is left of a window opened before it, and full windows one moment later. */
  function Peak(limit: nat, window: int, length: nat): int
    requires limit >= 1 && window > 0
  {
    if length == 0 then 0
    else
      var aligned, carried := limit * Ceiling(length, window), limit - 1 + limit * Ceiling(length - 1, window);
      if aligned > carried then aligned else carried
  }

  lemma {:induction false} BoundFrom(limit: nat, window: int, s: State, times: seq<int>, from: int, to: int)
    requires limit >= 1 && window > 0 && from < to
    requires NonDecreasing(times) && RealTimes(times)
    requires s == Fresh || (ZERO_TIME < s.windowStart < from && 1 <= s.count <= limit)
    requires NotBefore(times, s.windowStart)
    ensures var passed := CountIn(Admitted(limit, window, s, times), times, from, to);
            || passed <= limit * Windows(to - from, window)
            || passed <= limit - 1 + limit * Windows(to - from - 1, window)
    decreases |times|
  {
    if times != [] {
      LaterTimes(times);
      var t := times[0];
      if t < from {
        var (s', _) := Decide(limit, window, s, t);
        BoundFrom(limit, window, s', times[1..], from, to);
      } else if s == Fresh || t - s.windowStart >= window {
        BoundOpening(limit, window, s, times, from, to);
      } else {
        BoundInside(limit, window, s, times, from, to);
        WindowsMonotone(to - s.windowStart - window, to - from - 1, window);
        TimesMonotone(limit, Windows(to - s.windowStart - window, window), Windows(to - from - 1, window));
      }
    }
  }

  /** How many messages of a trace pass in an interval. */
  function Passed(limit: int, window: int, times: seq<int>, from: int, length: nat): nat {
    CountIn(Admitted(limit, window, Fresh, times), times, from, from + length)
  }

  lemma {:induction false} NoneInside(flags: seq<bool>, times: seq<int>, from: int)
    requires |flags| == |times|
    ensures CountIn(flags, times, from, from) == 0
  {
    if times != [] {
      NoneInside(flags[1..], times[1..], from);
    }
  }

  /** No trace exceeds the peak in any interval. */
  lemma PeakBound(limit: nat, window: int, times: seq<int>, from: int, length: nat)
    requires limit >= 1 && window > 0
    requires NonDecreasing(times) && RealTimes(times)
    ensures Passed(limit, window, times, from, length) <= Peak(limit, window, length)
  {
    if length == 0 {
      NoneInside(Admitted(limit, window, Fresh, times), times, from);
    } else {
      BoundFrom(limit, window, Fresh, times, from, from + length);
      WindowsIsCeiling(length, window);
      WindowsIsCeiling(length - 1, window);
    }
  }

  lemma CeilingMonotone(short: nat, long: nat, window: int)
    requires window > 0 && short <= long
    ensures 0 <= Ceiling(short, window) <= Ceiling(long, window)
  {
    WindowsIsCeiling(short, window);
    WindowsIsCeiling(long, window);
    WindowsMonotone(short, long, window);
  }

  /** In any interval of length `length`, fewer than `limit * (ceil(length / window) + 1)` messages
      pass. */
  lemma RateBound(limit: nat, window: int, times: seq<int>, from: int, length: nat)
    requires limit >= 1 && window > 0
    requires NonDecreasing(times) && RealTimes(times)
    ensures Passed(limit, window, times, from, length) < limit * (Ceiling(length, window) + 1)
  {
    PeakBound(limit, window, times, from, length);
    PeakBelowBound(limit, window, length);
  }

  lemma PeakBelowBound(limit: nat, window: int, length: nat)
    requires limit >= 1 && window > 0
    ensures Peak(limit, window, length) < limit * (Ceiling(length, window) + 1)
  {
    var c := Ceiling(length, window);
    CeilingMonotone(0, length, window);
    assert limit * (c + 1) == limit * c + limit;
    TimesMonotone(limit, 0, c);
    if length > 0 {
      CeilingMonotone(length - 1, length, window);
      TimesMonotone(limit, Ceiling(length - 1, window), c);
    }
  }

  lemma WindowCeilings(window: int)
    requires window > 0
    ensures Ceiling(window, window) == 1
    ensures Ceiling(window - 1, window) == if window == 1 then 0 else 1
  {
    QuotientUnique(window + window - 1, window, 1, window - 1);
    if window == 1 {
      QuotientUnique(0, 1, 0, 0);
    } else {
      QuotientUnique(window - 1 + window - 1, window, 1, window - 2);
    }
  }

  /** In any interval of one window length, fewer than twice the limit pass. */
  lemma OneWindowBound(limit: nat, window: int, times: seq<int>, from: int)
    requires limit >= 1 && window > 0
    requires NonDecreasing(times) && RealTimes(times)
    ensures Passed(limit, window, times, from, window) < 2 * limit
  {
    RateBound(limit, window, times, from, window);
    WindowCeilings(window);
  }

  // ---------------------------------------------------------------- the peak is reached

  /** While an open window has room, messages at one moment all pass. */
  lemma {:induction false} RoomForAll(limit: int, window: int, start: int, used: nat, t: int, n: nat, later: seq<int>)
    requires limit >= 1 && start != ZERO_TIME && t - start < window && used + n <= limit
    ensures Admitted(limit, window, State(start, used), Repeat(t, n) + later)
         == Repeat(true, n) + Admitted(limit, window, State(start, used + n), later)
    decreases n
  {
    if n == 0 {
      assert Repeat(t, 0) + later == later;
      assert Repeat(true, 0) + Admitted(limit, window, State(start, used), later)
          == Admitted(limit, window, State(start, used), later);
    } else {
      RoomForAll(limit, window, start, used + 1, t, n - 1, later);
      Associate([t], Repeat(t, n - 1), later);
      Associate([true], Repeat(true, n - 1), Admitted(limit, window, State(start, used + n), later));
    }
  }

  lemma {:induction false} CountRepeat(t: int, n: nat, flags: seq<bool>, times: seq<int>, from: int, to: int)
    requires |flags| == |times| && from <= t < to
    ensures |Repeat(true, n) + flags| == |Repeat(t, n) + times|
    ensures CountIn(Repeat(true, n) + flags, Repeat(t, n) + times, from, to) == n + CountIn(flags, times, from, to)
    decreases n
  {
    if n == 0 {
      assert Repeat(true, 0) + flags == flags && Repeat(t, 0) + times == times;
    } else {
      CountRepeat(t, n - 1, flags, times, from, to);
      Associate([true], Repeat(true, n - 1), flags);
      Associate([t], Repeat(t, n - 1), times);
    }
  }

  /** The limit's worth of messages at `t` and then every window length up to `to`. */
  function Bursts(limit: nat, window: int, t: int, to: int): seq<int>
    requires window > 0
    decreases if t < to then to - t else 0
  {
    if t >= to then [] else Repeat(t, limit) + Bursts(limit, window, t + window, to)
  }

  lemma InOrder(a: seq<int>, b: seq<int>, x: int)
    requires NonDecreasing(a) && NonDecreasing(b) && NotBefore(b, x)
    requires forall i :: 0 <= i < |a| ==> a[i] <= x
    ensures NonDecreasing(a + b)
  {}

  lemma {:induction false} BurstsInOrder(limit: nat, window: int, t: int, to: int)
    requires window > 0
    ensures NonDecreasing(Bursts(limit, window, t, to)) && NotBefore(Bursts(limit, window, t, to), t)
    decreases if t < to then to - t else 0
  {
    if t < to {
      RepeatAt(t, limit);
      BurstsInOrder(limit, window, t + window, to);
      InOrder(Repeat(t, limit), Bursts(limit, window, t + window, to), t);
    }
  }

  /** The first burst fills the window it opens. */
  lemma OneBurst(limit: nat, window: int, s: State, t: int, later: seq<int>)
    requires limit >= 1 && window > 0 && t > ZERO_TIME
    requires s.windowStart == ZERO_TIME || t - s.windowStart >= window
    ensures Admitted(limit, window, s, Repeat(t, limit) + later)
         == Repeat(true, limit) + Admitted(limit, window, State(t, limit), later)
  {
    Associate([t], Repeat(t, limit - 1), later);
    OpeningMessage(limit, window, s, [t] + (Repeat(t, limit - 1) + later));
    RoomForAll(limit, window, t, 1, t, limit - 1, later);
    Associate([true], Repeat(true, limit - 1), Admitted(limit, window, State(t, limit), later));
  }

  /** Every message of the bursts passes. */
  lemma {:induction false} BurstsPass(limit: nat, window: int, s: State, t: int, from: int, to: int)
    requires limit >= 1 && window > 0 && t > ZERO_TIME && from <= t
    requires s.windowStart == ZERO_TIME || t - s.windowStart >= window
    ensures var times := Bursts(limit, window, t, to);
            && CountIn(Admitted(limit, window, s, times), times, from, to) == limit * Windows(to - t, window)
    decreases if t < to then to - t else 0
  {
    if t < to {
      var later := Bursts(limit, window, t + window, to);
      OneBurst(limit, window, s, t, later);
      CountRepeat(t, limit, Admitted(limit, window, State(t, limit), later), later, from, to);
      BurstsPass(limit, window, State(t, limit), t + window, from, to);
      OneMoreWindow(limit, window, to - t);
    }
  }

  /** Full windows from the start of the interval on. */
  function AlignedTrace(limit: nat, window: int, length: nat): seq<int>
    requires window > 0
  {
    Bursts(limit, window, 1, 1 + length)
  }

  /** A window opened by one early message is used up just before it ends; full windows follow. */
  function CarriedTrace(limit: nat, window: int, length: nat): seq<int>
    requires limit >= 1 && window > 0
  {
    [1] + (Repeat(window, limit - 1) + Bursts(limit, window, window + 1, window + length))
  }

  lemma AlignedPasses(limit: nat, window: int, length: nat)
    requires limit >= 1 && window > 0
    ensures var times := AlignedTrace(limit, window, length);
            && NonDecreasing(times) && RealTimes(times)
            && Passed(limit, window, times, 1, length) == limit * Ceiling(length, window)
  {
    BurstsInOrder(limit, window, 1, 1 + length);
    BurstsPass(limit, window, Fresh, 1, 1, 1 + length);
    WindowsIsCeiling(length, window);
  }

  lemma CarriedInOrder(limit: nat, window: int, length: nat)
    requires limit >= 1 && window >= 2
    ensures NonDecreasing(CarriedTrace(limit, window, length)) && RealTimes(CarriedTrace(limit, window, length))
  {
    var later := Bursts(limit, window, window + 1, window + length);
    RepeatAt(window, limit - 1);
    BurstsInOrder(limit, window, window + 1, window + length);
    InOrder(Repeat(window, limit - 1), later, window);
    InOrder([1], Repeat(window, limit - 1) + later, 1);
  }

  lemma CarriedPasses(limit: nat, window: int, length: nat)
    requires limit >= 1 && window >= 2 && length >= 1
    ensures Passed(limit, window, CarriedTrace(limit, window, length), window, length)
         == limit - 1 + limit * Ceiling(length - 1, window)
  {
    var to, later := window + length, Bursts(limit, window, window + 1, window + length);
    var flags := Admitted(limit, window, State(1, limit), later);
    OpeningMessage(limit, window, Fresh, CarriedTrace(limit, window, length));
    RoomForAll(limit, window, 1, 1, window, limit - 1, later);
    CountRepeat(window, limit - 1, flags, later, window, to);
    BurstsPass(limit, window, State(1, limit), window + 1, window, to);
    WindowsIsCeiling(length - 1, window);
  }

  /** Some trace reaches the peak in some interval. */
  ghost predicate Reached(limit: nat, window: int, length: nat, peak: int) {
    exists times: seq<int>, from: int ::
      NonDecreasing(times) && RealTimes(times) && Passed(limit, window, times, from, length) == peak
  }

  /** The peak is the exact maximum: no trace exceeds it in any interval, and some trace reaches it. */
  lemma PeakIsMaximum(limit: nat, window: int, length: nat)
    requires limit >= 1 && window > 0
    ensures forall times: seq<int>, from: int | NonDecreasing(times) && RealTimes(times) ::
              Passed(limit, window, times, from, length) <= Peak(limit, window, length)
    ensures Reached(limit, window, length, Peak(limit, window, length))
  {
    forall times: seq<int>, from: int | NonDecreasing(times) && RealTimes(times)
      ensures Passed(limit, window, times, from, length) <= Peak(limit, window, length)
    {
      PeakBound(limit, window, times, from, length);
    }
    PeakIsReached(limit, window, length);
  }

  lemma PeakIsReached(limit: nat, window: int, length: nat)
    requires limit >= 1 && window > 0
    ensures Reached(limit, window, length, Peak(limit, window, length))
  {
    AlignedPasses(limit, window, length);
    if length == 0 {
      NoneInside(Admitted(limit, window, Fresh, AlignedTrace(limit, window, 0)), AlignedTrace(limit, window, 0), 1);
    } else if window == 1 {
      UnitCeiling(length);
      UnitCeiling(length - 1);
      assert limit * length == limit + limit * (length - 1);
    } else {
      CarriedInOrder(limit, window, length);
      CarriedPasses(limit, window, length);
    }
  }

  lemma UnitCeiling(length: nat)
    ensures Ceiling(length, 1) == length
  {
    QuotientUnique(length, 1, length, 0);
  }

  /** The simple bound is the maximum exactly when the limit is one or the last moment of the interval
      opens no further window. */
  lemma BoundIsReached(limit: nat, window: int, length: nat)
    requires limit >= 1 && window > 0 && length >= 1
    ensures Reached(limit, window, length, limit * (Ceiling(length, window) + 1) - 1)
       <==> limit == 1 || Ceiling(length - 1, window) == Ceiling(length, window)
  {
    var c, d := Ceiling(length, window), Ceiling(length - 1, window);
    PeakIsMaximum(limit, window, length);
    PeakBelowBound(limit, window, length);
    CeilingMonotone(length - 1, length, window);
    assert limit * (c + 1) == limit * c + limit;
    if d < c {
      TimesMonotone(limit, d + 1, c);
      assert limit * (d + 1) == limit * d + limit;
    }
  }

  /** No trace passes more than `limit` messages in any interval of one window length. */
  ghost predicate CapHolds(limit: int, window: nat) {
    forall times: seq<int>, from: int ::
      NonDecreasing(times) && RealTimes(times) ==> Passed(limit, window, times, from, window) <= limit
  }

  /** The cap that a reader would expect of every interval, not only of the limiter's own windows,
      holds exactly when the limit is one or a window is one tick of the clock. */
  lemma CapHoldsExactly(limit: nat, window: nat)
    requires limit >= 1 && window >= 1
    ensures CapHolds(limit, window) <==> limit == 1 || window == 1
  {
    PeakIsMaximum(limit, window, window);
    WindowCeilings(window);
  }
}
