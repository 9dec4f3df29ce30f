// Division, where the proofs need it by name.

module Arithmetic {

  lemma QuotientUnique(n: int, d: int, q: int, r: int)
    requires 0 <= r < d && n == q * d + r
    ensures n / d == q
  {
    var q', r' := n / d, n % d;
    Distribute(q, q', d);
    if q > q' {
      AtLeastOnce(q - q', d);
    } else if q < q' {
      AtLeastOnce(q' - q, d);
    }
  }

  lemma Distribute(q: int, q': int, d: int)
    ensures (q - q') * d == q * d - q' * d
    ensures (q' - q) * d == q' * d - q * d
  {}

  lemma AtLeastOnce(k: int, d: int)
    requires k >= 1 && d > 0
    ensures k * d >= d
  {}
}
