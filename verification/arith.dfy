/** Facts about Euclidean division on integers shared by the index
    arithmetic of the pink noise rows and of the pluck delay line. */
module Arith {

  lemma DivExact(q: int, p: int)
    requires p > 0
    ensures (q * p) % p == 0 && (q * p) / p == q
  {
    DivModUnique(q * p, p, q, 0);
  }

  /** Euclidean division is determined by its quotient and remainder. */
  lemma DivModUnique(n: int, p: int, q: int, r: int)
    requires p > 0 && 0 <= r < p && n == q * p + r
    ensures n / p == q && n % p == r
  {
    var a, b := n / p, n % p;
    assert n == a * p + b;
    assert (a - q) * p == r - b;
    if a > q {
      MulAtLeast(a - q, p);
    } else if a < q {
      MulAtLeast(q - a, p);
    }
  }

  lemma MulAtLeast(x: int, p: int)
    requires x >= 1 && p > 0
    ensures x * p >= p
  {
  }
}
