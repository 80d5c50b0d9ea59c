/** Integer facts about row-major indices and Euclidean division used by the loader
    cursor and the grid layout. */
module Arith {

  lemma MulMonotone(a: int, b: int, c: int)
    requires a <= b && c >= 0
    ensures a * c <= b * c
  {
    assert b * c - a * c == (b - a) * c;
  }

  /** A row-major index `i * m + j` stays inside an `n` by `m` block. */
  lemma IndexBound(i: int, n: int, j: int, m: int)
    requires 0 <= i < n && 0 <= j < m
    ensures 0 <= i * m + j < n * m
  {
    MulMonotone(0, i, m);
    MulMonotone(i + 1, n, m);
  }

  /** Division and remainder are determined by any quotient and remainder in range. */
  lemma DivModUnique(a: int, d: int, q: int, r: int)
    requires d > 0 && 0 <= r < d && a == q * d + r
    ensures a / d == q && a % d == r
  {
    var q', r' := a / d, a % d;
    assert a == q' * d + r';
    if q' < q {
      MulMonotone(q' + 1, q, d);
      assert false;
    } else if q' > q {
      MulMonotone(q + 1, q', d);
      assert false;
    }
  }

  /** An index in an `n` by `d` block has its row below `n`. */
  lemma DivBound(a: int, d: int, n: int)
    requires d > 0 && 0 <= a < n * d
    ensures 0 <= a / d < n
  {
    var q := a / d;
    assert a == q * d + a % d;
    if q >= n {
      MulMonotone(n, q, d);
      assert false;
    }
    if q < 0 {
      MulMonotone(q, -1, d);
      assert false;
    }
  }
}
