/** Facts about division that ring positions and firing counts rest on. */
module Arith {
  lemma {:induction false} Gap(p: nat, a: nat, b: nat)
    ensures a < b ==> p * a + p <= p * b
    decreases b
  {
    if a < b - 1 {
      Gap(p, a, b - 1);
    }
    assert p * (b - 1) == p * b - p;
  }

  /** Quotient and remainder are unique. */
  lemma DivUnique(x: nat, p: nat, q: nat, r: nat)
    requires p > 0 && r < p && x == p * q + r
    ensures x / p == q && x % p == r
  {
    var d, m := x / p, x % p;
    assert x == p * d + m;
    Gap(p, d, q);
    Gap(p, q, d);
  }
}
