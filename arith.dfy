/** Facts about Euclidean division on non-negative operands that the index
    arithmetic of the sweep relies on. */
module Arith {

  lemma MulAtLeast(a: int, n: int)
    requires n > 0 && a >= 1
    ensures a * n >= n
  {
  }

  /** Quotient and remainder are determined by `x == q * n + r` with `0 <= r < n`. */
  lemma DivModUnique(x: int, n: int, q: int, r: int)
    requires n > 0 && 0 <= r < n && x == q * n + r
    ensures x / n == q && x % n == r
  {
    var q', r' := x / n, x % n;
    assert x == q' * n + r';
    assert (q - q') * n == r' - r;
    if q > q' {
      MulAtLeast(q - q', n);
    } else if q < q' {
      MulAtLeast(q' - q, n);
    }
  }

  /** Stepping back from a non-multiple of `n` keeps the quotient. */
  lemma DivPredecessor(i: int, n: int)
    requires n > 0 && i > 0 && i % n != 0
    ensures (i - 1) / n == i / n && (i - 1) % n == i % n - 1
  {
    DivModUnique(i - 1, n, i / n, i % n - 1);
  }

  /** Stepping back from a positive multiple of `n` lowers the quotient by one. */
  lemma DivPredecessorOfMultiple(i: int, n: int)
    requires n > 0 && i > 0 && i % n == 0
    ensures (i - 1) / n == i / n - 1
  {
    assert i == (i / n) * n;
    assert i - 1 == (i / n - 1) * n + (n - 1);
    DivModUnique(i - 1, n, i / n - 1, n - 1);
  }

  /** A multiple of `a * b` is a multiple of `b`. */
  lemma MultipleOfFactor(i: int, a: int, b: int)
    requires a > 0 && b > 0 && i % (a * b) == 0
    ensures i % b == 0
  {
    var q := i / (a * b);
    assert i == q * (a * b);
    assert i == (q * a) * b + 0;
    DivModUnique(i, b, q * a, 0);
  }

  lemma MulLe(u: int, v: int, a: int)
    requires u <= v && a >= 0
    ensures u * a <= v * a
  {
  }

  /** `(q + 1) mod m` computed from `q mod m`. */
  lemma ModSuccessor(q: int, m: int)
    requires m > 0
    ensures (q + 1) % m == (q % m + 1) % m
  {
    var c, r := q / m, q % m;
    assert q == c * m + r;
    if r + 1 < m {
      DivModUnique(q + 1, m, c, r + 1);
      DivModUnique(r + 1, m, 0, r + 1);
    } else {
      assert q + 1 == (c + 1) * m;
      DivModUnique(q + 1, m, c + 1, 0);
      DivModUnique(r + 1, m, 1, 0);
    }
  }

  /** Adding a multiple of `k` does not change the remainder modulo `k`. */
  lemma ModAddMultiple(y: int, c: int, k: int)
    requires k > 0
    ensures (c * k + y) % k == y % k
  {
    DivModUnique(c * k + y, k, c + y / k, y % k);
  }

  /** Division nested over a product: `(x / a) / b == x / (a * b)`, and the
      remainder modulo `a * b` splits into its two digits. */
  lemma DivDiv(x: int, a: int, b: int)
    requires x >= 0 && a > 0 && b > 0
    ensures (x / a) / b == x / (a * b)
    ensures x % (a * b) == ((x / a) % b) * a + x % a
  {
    var q1, r1 := x / a, x % a;
    var q2, r2 := q1 / b, q1 % b;
    assert x == q1 * a + r1;
    assert q1 == q2 * b + r2;
    assert q1 * a == (q2 * b) * a + r2 * a;
    assert (q2 * b) * a == q2 * (a * b);
    MulLe(r2, b - 1, a);
    assert (b - 1) * a == a * b - a;
    DivModUnique(x, a * b, q2, r2 * a + r1);
  }

  /** A digit of `x` in a mixed radix depends only on `x` modulo any multiple
      `(m * k) * st` of the digit's place value `st` times its radix `k`. */
  lemma DigitModProduct(x: int, st: int, k: int, m: int)
    requires x >= 0 && st > 0 && k > 0 && m > 0
    ensures (m * k) * st > 0
    ensures (x / st) % k == ((x % ((m * k) * st)) / st) % k
  {
    assert m * k > 0;
    var p := (m * k) * st;
    var q, y := x / p, x % p;
    assert x == q * p + y;
    var d, e := y / st, y % st;
    assert y == d * st + e;
    assert q * p == ((q * m) * k) * st;
    assert x == ((q * m) * k + d) * st + e;
    DivModUnique(x, st, (q * m) * k + d, e);
    ModAddMultiple(d, q * m, k);
  }
}
