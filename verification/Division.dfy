/** Division of natural numbers. */
module Division {

  lemma NoMultipleBetween(m: int, k: int)
    requires m > 0 && -m < m * k < m
    ensures k == 0
  {
  }

  /** Quotient and remainder are determined by the sum they make. */
  lemma Quotient(n: nat, m: nat, q: nat, r: nat)
    requires r < m && n == m * q + r
    ensures n / m == q && n % m == r
  {
    assert n == m * (n / m) + n % m;
    assert m * (q - n / m) == n % m - r;
    NoMultipleBetween(m, q - n / m);
  }

  /** The quotient grows, and the remainder starts again, at the multiples of the divisor. */
  lemma NextQuotient(n: nat, m: nat)
    requires m > 0
    ensures (n + 1) % m == if n % m == m - 1 then 0 else n % m + 1
    ensures (n + 1) / m == n / m + if (n + 1) % m == 0 then 1 else 0
  {
    var q, r := n / m, n % m;
    assert n == m * q + r;
    if r == m - 1 {
      assert n + 1 == m * (q + 1) + 0;
      Quotient(n + 1, m, q + 1, 0);
    } else {
      Quotient(n + 1, m, q, r + 1);
    }
  }
}
