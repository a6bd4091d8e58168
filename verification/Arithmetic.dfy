/** Small facts about products, quotients and remainders, where the solver needs help. */
module Arithmetic {

  lemma Scale(p: int, q: int, m: nat)
    ensures p <= q ==> p * m <= q * m
  {
  }

  lemma QuotientUnique(p: int, q: int, m: int, r: int, t: int)
    requires 0 <= r < m && 0 <= t < m && p * m + r == q * m + t
    ensures p == q && r == t
  {
    Scale(p + 1, q, m);
    Scale(q + 1, p, m);
    assert (p + 1) * m == p * m + m && (q + 1) * m == q * m + m;
  }

  lemma DivMod(q: nat, m: nat, r: nat)
    requires r < m
    ensures (q * m + r) / m == q && (q * m + r) % m == r
  {
    var x := q * m + r;
    assert x == (x / m) * m + x % m;
    QuotientUnique(q, x / m, m, r, x % m);
  }
}
