/** Quotients of natural numbers. */
module Division {
  lemma SmallMultiple(x: int, d: int)
    requires d > 0 && -d < x * d < d
    ensures x == 0
  {
    if x > 0 {
      assert x * d == (x - 1) * d + d;
      Product(x - 1, d);
    } else if x < 0 {
      assert x * d == -((-x - 1) * d) - d;
      Product(-x - 1, d);
    }
  }

  lemma Product(a: nat, b: nat)
    ensures a * b >= 0
  {
  }

  /** A quotient and a remainder are determined. */
  lemma QuotientIs(n: nat, d: nat, q: nat, r: nat)
    requires n == q * d + r && r < d
    ensures n / d == q && n % d == r
  {
    var q', r' := n / d, n % d;
    assert n == q' * d + r';
    assert (q - q') * d == r' - r by { Difference(q, q', d); }
    SmallMultiple(q - q', d);
  }

  lemma Difference(a: int, b: int, d: int)
    ensures (a - b) * d == a * d - b * d
  {
  }

  /** Dividing by a product is dividing twice. */
  lemma DivideTwice(n: nat, d: nat, m: nat)
    requires d > 0 && m > 0
    ensures d * m > 0 && n / (d * m) == n / d / m
  {
    Product(d, m);
    Regrouped(n, d, m, n / d, n % d, n / d / m, n / d % m);
  }

  lemma Regrouped(n: nat, d: nat, m: nat, a: nat, s: nat, q: nat, r: nat)
    requires n == a * d + s && s < d && a == q * m + r && r < m
    ensures d * m > 0 && n / (d * m) == q
  {
    Grouped(q, m, r, d, s);
    Below(r, m, d, s);
    QuotientIs(n, d * m, q, r * d + s);
  }

  lemma Grouped(q: nat, m: nat, r: nat, d: nat, s: nat)
    ensures (q * m + r) * d + s == q * (d * m) + (r * d + s)
  {
    assert (q * m + r) * d == (q * m) * d + r * d;
    assert (q * m) * d == q * (m * d);
  }

  lemma Below(r: nat, m: nat, d: nat, s: nat)
    requires r < m && s < d
    ensures 0 <= r * d + s < d * m
  {
    Product(r, d);
    Product(m - r - 1, d);
    assert (m - r - 1) * d == m * d - r * d - d;
  }
}
