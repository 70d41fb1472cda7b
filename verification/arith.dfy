/** Python's built-in `max` and `min` on two integers, and the facts about products that the row-major indexing needs. */
module Arith {

  function Max(a: int, b: int): (m: int)
    ensures m >= a && m >= b
    ensures m == a || m == b
  {
    if a >= b then a else b
  }

  function Min(a: int, b: int): (m: int)
    ensures m <= a && m <= b
    ensures m == a || m == b
  {
    if a <= b then a else b
  }

  /** One more row of `b` elements: `(a + 1) * b == a * b + b`. */
  lemma MulSucc(a: int, b: int)
    ensures (a + 1) * b == a * b + b
  {
  }

  lemma MulMonotone(a: int, b: int, p: int, q: int)
    requires 0 <= a <= p && 0 <= b <= q
    ensures a * b <= p * q
  {
    assert a * b <= p * b;
    assert p * b <= p * q;
  }

  /** Position `j` of row `i`, in rows of `c`, lies before the end of row `n - 1`. */
  lemma IndexBelow(i: int, j: int, c: int, n: int)
    requires 0 <= i < n && 0 <= j < c
    ensures 0 <= i * c
    ensures i * c + j < n * c
  {
    assert (i + 1) * c <= n * c;
  }

  /** Every position below `n * c` is position `j` of some row `i < n`, in rows of `c`. */
  lemma RowMajorSplit(t: int, c: int, n: int) returns (i: int, j: int)
    requires 0 <= n && 0 <= t < n * c
    ensures 0 <= i < n && 0 <= j < c
    ensures t == i * c + j
  {
    i, j := t / c, t % c;
    assert i * c <= t;
    assert (n - i) * c > 0;
  }
}
