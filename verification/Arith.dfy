/** Facts about products, quotients and remainders. */
module Arith {

  lemma Distribute(a: int, b: int, k: int)
    ensures (a + b) * k == a * k + b * k
  {
  }

  lemma MulLe(a: int, b: int, k: nat)
    requires a <= b
    ensures a * k <= b * k
  {
  }

  lemma MulBound(x: int, k: nat)
    ensures x >= 1 ==> x * k >= k
    ensures x <= -1 ==> x * k + k <= 0
  {
    if x >= 1 { MulLe(1, x, k); }
    if x <= -1 { MulLe(x, -1, k); }
  }

  /** Quotient and remainder are what they are known to be. */
  lemma DivModUnique(n: int, k: nat, q: int, r: nat)
    requires r < k && n == q * k + r
    ensures n / k == q && n % k == r
  {
    var a, b := n / k, n % k;
    assert n == a * k + b;
    assert (q - a) * k == b - r;
    MulBound(q - a, k);
  }

  lemma DivExact(a: nat, k: nat)
    requires k > 0
    ensures a * k / k == a
  {
    DivModUnique(a * k, k, a, 0);
  }

  lemma OneMoreIsNoMultiple(n: nat, k: nat)
    requires k >= 2 && n % k == 0
    ensures (n + 1) % k != 0
  {
    DivModUnique(n + 1, k, n / k, 1);
  }
}
