/**
 * Integer arithmetic as the source uses it. C++'s `%` truncates the quotient
 * toward zero, so its remainder takes the sign of the dividend; Dafny's own
 * `%` is Euclidean (never negative). The two agree on non-negative dividends.
 * The lemmas about Dafny's `%` below are the facts the ring buffer needs.
 */
module CppArith {

  /** A positive multiple of a positive number is at least that number. */
  lemma {:induction false} MulAtLeast(x: int, m: int)
    requires x >= 1 && m > 0
    ensures x * m >= m
    decreases x
  {
    if x > 1 {
      MulAtLeast(x - 1, m);
      assert x * m == (x - 1) * m + m;
    }
  }

  /** `a % m` and `a / m` are the only remainder and quotient of `a`. */
  lemma {:induction false} ModUnique(a: int, m: int, q: int, t: int)
    requires m > 0 && a == q * m + t && 0 <= t < m
    ensures a % m == t && a / m == q
  {
    var q', t' := a / m, a % m;
    assert a == q' * m + t';
    if q' > q {
      assert (q' - q) * m == q' * m - q * m;
      MulAtLeast(q' - q, m);
    } else if q' < q {
      assert (q - q') * m == q * m - q' * m;
      MulAtLeast(q - q', m);
    }
  }

  /** Reducing a summand first does not change the remainder of a sum. */
  lemma {:induction false} ModAdd(a: int, b: int, m: int)
    requires m > 0
    ensures (a % m + b) % m == (a + b) % m
  {
    var q, r := a / m, a % m;
    var q2, r2 := (r + b) / m, (r + b) % m;
    assert a == q * m + r;
    assert r + b == q2 * m + r2;
    assert a + b == (q + q2) * m + r2;
    ModUnique(a + b, m, q + q2, r2);
  }

  /** Two positions fewer than `m` apart fall into different slots. */
  lemma {:induction false} ModDistinct(a: int, j: int, m: int)
    requires 0 < j < m
    ensures (a - j) % m != a % m
  {
    var r := a % m;
    ModAdd(a, -j, m);
    if r - j >= 0 {
      ModUnique(r - j, m, 0, r - j);
    } else {
      ModUnique(r - j, m, -1, r - j + m);
    }
  }

  /** Subtracting the remainder leaves a multiple of the divisor. */
  lemma {:induction false} ModSelfDifference(a: int, m: int)
    requires m > 0
    ensures (a - a % m) % m == 0
  {
    assert a == (a / m) * m + a % m;
    ModUnique(a - a % m, m, a / m, 0);
  }

  /** `a % n` in C++ for a positive divisor `n`. */
  function Rem(a: int, n: int): (r: int)
    requires n > 0
    ensures -n < r < n
    ensures a >= 0 ==> r >= 0
    ensures a <= 0 ==> r <= 0
    ensures (a - r) % n == 0
  {
    if a >= 0 then
      ModSelfDifference(a, n);
      a % n
    else
      ModSelfDifference(-a, n);
      var b := -a - (-a) % n;
      assert b == (b / n) * n;
      ModUnique(-b, n, -(b / n), 0);
      -((-a) % n)
  }

  /** On a non-negative dividend C++'s remainder is the Euclidean one. */
  lemma RemOfNonnegative(a: int, n: int)
    requires n > 0 && a >= 0
    ensures Rem(a, n) == a % n
  {
  }

  /** A negative dividend whose magnitude is below the divisor is its own remainder. */
  lemma {:induction false} RemOfSmallNegative(a: int, n: int)
    requires n > 0 && -n < a < 0
    ensures Rem(a, n) == a
  {
    ModUnique(-a, n, 0, -a);
  }
}
