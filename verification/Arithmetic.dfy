/** Products and quotients, one small fact at a time. */
module Arithmetic {
  lemma ProductMonotone(a: int, b: int, w: int)
    requires a <= b && w >= 0
    ensures a * w <= b * w
  {
  }

  lemma Distribute(a: int, b: int, c: int)
    ensures (a + b) * c == a * c + b * c
  {
  }

  lemma Reassociate(a: int, b: int, c: int)
    ensures a * (b * c) == (a * b) * c
  {
  }

  lemma QuotientUnique(x: int, y: int, q: int, r: int, m: int)
    requires 0 <= y < m && 0 <= r < m && x * m + y == q * m + r
    ensures x == q && y == r
  {
    if x < q {
      ProductMonotone(x + 1, q, m);
    } else if q < x {
      ProductMonotone(q + 1, x, m);
    }
  }

  lemma DivMod(a: int, q: int, r: int, m: int)
    requires 0 <= r < m && a == q * m + r
    ensures a / m == q && a % m == r
  {
    QuotientUnique(a / m, a % m, q, r, m);
  }

  lemma Divide(a: int, m: int) returns (q: int, r: int)
    requires m > 0 && a >= 0
    ensures q == a / m && r == a % m && q >= 0 && 0 <= r < m && a == q * m + r
  {
    q, r := a / m, a % m;
  }
}
