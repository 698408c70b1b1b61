// Quotients and remainders by any number.

module Division {

  lemma {:induction false} MultiplesGrow(p: nat, a: nat, b: nat)
    requires a < b
    ensures p * a + p <= p * b
  {
    assert p * b == p * (b - 1) + p;
    if a < b - 1 {
      MultiplesGrow(p, a, b - 1);
    }
  }

  lemma QuotientIs(a: nat, n: nat, q: nat, r: nat)
    requires 0 < n && r < n && a == n * q + r
    ensures a / n == q && a % n == r
  {
    var d := a / n;
    assert a == n * d + a % n;
    if d < q {
      MultiplesGrow(n, d, q);
    } else if q < d {
      MultiplesGrow(n, q, d);
    }
  }

  /** What one more makes of the remainder and the quotient. */
  lemma OneMore(x: nat, n: nat)
    requires 0 < x && 0 < n
    ensures var wraps := (x - 1) % n == n - 1;
            x % n == (if wraps then 0 else (x - 1) % n + 1) &&
            x / n == if wraps then (x - 1) / n + 1 else (x - 1) / n
  {
    var q, r := (x - 1) / n, (x - 1) % n;
    assert x - 1 == n * q + r;
    if r == n - 1 {
      assert x == n * (q + 1);
      QuotientIs(x, n, q + 1, 0);
    } else {
      QuotientIs(x, n, q, r + 1);
    }
  }
}
