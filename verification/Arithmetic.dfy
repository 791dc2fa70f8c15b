/** Facts about products and remainders that the solver does not find on its own. */
module Arithmetic {
  lemma MultipleOf(k: int, n: int)
    requires n > 0
    ensures (n * k) % n == 0
  {
    var d := (n * k) / n;
    assert n * k == n * d + (n * k) % n;
    assert n * (d + 1) == n * d + n;
    MulOrder(n, d, k);
    MulOrder(n, k, d + 1);
  }

  lemma MulOrder(n: int, a: int, b: int)
    requires n > 0
    ensures a < b <==> n * a < n * b
  {
    if a < b {
      assert n * (b - a) > 0;
    } else {
      assert n * (a - b) >= 0;
    }
  }

  /** Quotient and remainder are unique. */
  lemma DivUnique(a: int, n: int, q: int, r: int)
    requires n > 0 && a == n * q + r && 0 <= r < n
    ensures a % n == r && a / n == q
  {
    var d := a / n;
    assert a == n * d + a % n;
    assert n * (d + 1) == n * d + n && n * (q + 1) == n * q + n;
    MulOrder(n, q, d + 1);
    MulOrder(n, d, q + 1);
  }
}
