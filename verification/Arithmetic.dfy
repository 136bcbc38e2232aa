/** Division and remainder, for the proofs about rings, frames and alignments. */
module Arithmetic {
  lemma Multiples(m: int, k: int)
    requires m > 0
    ensures k > 0 ==> m * k >= m
    ensures k < 0 ==> m * k <= -m
  {
  }

  /** Quotient and remainder are the only ones. */
  lemma QuotientIs(x: nat, n: nat, q: nat, r: nat)
    requires 0 < n && x == n * q + r && r < n
    ensures x / n == q && x % n == r
  {
    var q', r' := x / n, x % n;
    assert x == n * q' + r';
    assert n * (q' - q) == n * q' - n * q == r - r';
    Multiples(n, q' - q);
  }

  /** One turn of a ring of n places. */
  lemma WrapIs(x: nat, n: nat)
    requires 0 < n && x < 2 * n
    ensures x % n == if x < n then x else x - n
  {
    if x < n { QuotientIs(x, n, 0, x); } else { QuotientIs(x, n, 1, x - n); }
  }

  lemma ModShift(t: nat, m: nat)
    requires m > 0
    ensures (t + m) % m == t % m
  {
    assert m * (t / m + 1) == m * (t / m) + m;
    QuotientIs(t + m, m, t / m + 1, t % m);
  }

  lemma MultipleIs(k: nat, a: nat)
    requires a > 0
    ensures k * a % a == 0 && a * k == k * a
  {
    QuotientIs(k * a, a, k, 0);
  }
}
