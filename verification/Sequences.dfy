// Facts about sequences that the proofs name explicitly.

module Sequences {

  lemma Slices<T>(a: seq<T>, b: seq<T>, c: seq<T>)
    ensures (a + b + c)[|a|..|a| + |b|] == b
    ensures (a + b + c)[|a| + |b|..] == c
    ensures (a + b + c)[|a|..] == b + c
  {}

  lemma Split<T>(a: seq<T>, b: seq<T>)
    ensures (a + b)[..|a|] == a
    ensures (a + b)[|a|..] == b
  {}

  lemma Skip<T>(s: seq<T>, m: nat, n: nat)
    requires m + n <= |s|
    ensures s[m..][..n] == s[m..m + n]
    ensures s[m..][n..] == s[m + n..]
  {}

  lemma Associate<T>(a: seq<T>, b: seq<T>, c: seq<T>)
    ensures a + b + c == a + (b + c)
  {}

  lemma DropTwice<T>(s: seq<T>, n: nat)
    requires 1 <= n <= |s|
    ensures s[1..][n - 1..] == s[n..]
  {}

  function Repeat<T>(x: T, n: nat): (s: seq<T>)
    ensures |s| == n
    decreases n
  {
    if n == 0 then [] else [x] + Repeat(x, n - 1)
  }

  lemma {:induction false} RepeatAt<T>(x: T, n: nat)
    ensures forall i :: 0 <= i < n ==> Repeat(x, n)[i] == x
  {
    if n > 0 {
      RepeatAt(x, n - 1);
    }
  }
}
