/** Products, quotients and remainders. */
module Arithmetic {
  lemma {:induction false} AtLeast(a: int, m: int)
    requires a >= 1 && m > 0
    ensures a * m >= m
  {
    if a > 1 {
      AtLeast(a - 1, m);
      assert a * m == (a - 1) * m + m;
    }
  }

  lemma Divided(k: nat, m: int, r: nat)
    requires m > 0 && r < m
    ensures (k * m + r) % m == r
  {
    var d := k * m + r;
    var q := d / m;
    assert d == q * m + d % m;
    Distribute(k, q, m);
    if k > q { AtLeast(k - q, m); }
    if q > k { AtLeast(q - k, m); }
  }

  lemma Distribute(a: int, b: int, m: int)
    ensures (a - b) * m == a * m - b * m && (b - a) * m == b * m - a * m
  {
  }

  lemma Quotient(q: nat, m: nat, r: nat, p: nat)
    requires r < m && p == q * m + r
    ensures p % m == r && p / m == q
  {
    Divided(q, m, r);
    var d := p / m;
    assert p == d * m + p % m;
    Distribute(d, q, m);
    if d > q { AtLeast(d - q, m); }
    if q > d { AtLeast(q - d, m); }
  }
}
