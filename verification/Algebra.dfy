/** Steps of real arithmetic the verifier needs spelled out one at a time. Products and squares
    have names, and lemmas take their results as parameters, so that callers can treat
    multiplication as a black box. */
module Algebra {

  function Square(x: real): real
  {
    x * x
  }

  function Times(a: real, b: real): real
  {
    a * b
  }

  lemma SquareSign(x: real, xx: real)
    requires xx == Square(x)
    ensures xx >= 0.0
  {
  }

  lemma PositiveProduct(a: real, b: real, ab: real)
    requires 0.0 < a && 0.0 < b && ab == a * b
    ensures 0.0 < ab
  {
  }

  lemma NonZeroSquare(x: real)
    requires x != 0.0
    ensures Square(x) > 0.0
  {
    if x > 0.0 { PositiveProduct(x, x, Square(x)); } else { PositiveProduct(-x, -x, Square(x)); }
  }

  lemma ProductMonotone(a: real, b: real, c: real)
    requires a <= b && 0.0 <= c
    ensures a * c <= b * c
  {
  }

  lemma Distributes(c: real, a: real, b: real)
    ensures c * (a + b) == c * a + c * b
  {
  }

  lemma TimesSum(c: real, a: real, b: real, sum: real)
    requires sum == a + b
    ensures Times(c, sum) == Times(c, a) + Times(c, b)
  {
  }

  lemma OneMore(n: real, c: real)
    ensures (n + 1.0) * c == n * c + c
  {
  }

  lemma OneMoreTimes(k: real, r: real)
    ensures Times(k + 1.0, r) == Times(k, r) + r
  {
  }

  lemma NothingTimes(n: real)
    ensures Times(n, Square(0.0)) == 0.0
  {
  }

  lemma ScaledQuotient(a: real, a': real, n: real, c: real, q: real, q': real)
    requires n != 0.0 && a' == Times(c, a) && q == a / n && q' == a' / n
    ensures q' == Times(c, q)
  {
    assert q * n == a && q' * n == a';
    assert (q' - c * q) * n == 0.0;
  }

  lemma QuotientBounds(a: real, n: real, lo: real, hi: real)
    requires n > 0.0 && n * lo <= a <= n * hi
    ensures lo <= a / n <= hi
  {
    var q := a / n;
    assert q * n == a;
    if q < lo { PositiveProduct(lo - q, n, (lo - q) * n); }
    if q > hi { PositiveProduct(q - hi, n, (q - hi) * n); }
  }

  lemma QuotientTimes(a: real, n: real)
    requires n != 0.0
    ensures a / n * n == a
    ensures a + n * -(a / n) == 0.0
  {
  }

  lemma QuotientOfSum(a: real, n: real, c: real)
    requires n != 0.0
    ensures (a + n * c) / n == a / n + c
  {
    var q := a / n;
    assert (q + c) * n == a + n * c;
  }

  lemma SquareGrows(a: real, b: real)
    requires 0.0 <= a < b
    ensures Square(a) < Square(b)
  {
    PositiveProduct(b - a, b, b * b - a * b);
    assert (b - a) * a >= 0.0;
  }

  lemma NegatedSquare(a: real)
    ensures Square(-a) == Square(a)
  {
  }

  /** The reals have one non-negative square root. */
  lemma RootUnique(a: real, b: real)
    requires a >= 0.0 && b >= 0.0 && Square(a) == Square(b)
    ensures a == b
  {
    if a < b { SquareGrows(a, b); }
    if b < a { SquareGrows(b, a); }
  }

  /** Comparing magnitudes by their squares. */
  lemma RootMonotone(a: real, b: real)
    requires b >= 0.0 && Square(a) <= Square(b)
    ensures -b <= a <= b
  {
    NegatedSquare(a);
    if b < a { SquareGrows(b, a); }
    if b < -a { SquareGrows(b, -a); }
  }

  // Growing a series by one element.

  /** Squared length of a series with every element moved by k. */
  function ShiftedNorm(norm: real, sum: real, n: real, k: real): real
  {
    norm + 2.0 * k * sum + n * Square(k)
  }

  lemma ShiftedNormStep(norm: real, sum: real, n: real, k: real, x: real, norm': real, sum': real, n': real,
                        total: real)
    requires norm' == norm + x * x && sum' == sum + x && n' == n + 1.0
    requires total == ShiftedNorm(norm, sum, n, k) + (x + k) * (x + k)
    ensures total == ShiftedNorm(norm', sum', n', k)
  {
    Distributes(2.0 * k, sum, x);
    OneMore(n, Square(k));
    assert (x + k) * (x + k) == x * x + 2.0 * k * x + k * k;
  }

  lemma ShiftedNormOfCentred(norm: real, n: real, k: real)
    ensures ShiftedNorm(norm, 0.0, n, k) == norm + n * Square(k)
  {
  }

  lemma ScaledDeviationStep(c: real, dev: real, dev': real, x: real, x': real, m: real, m': real, total: real)
    requires dev' == Times(Square(c), dev) && x' == c * x && m' == Times(c, m) && total == dev + Square(x - m)
    ensures dev' + Square(x' - m') == Times(Square(c), total)
  {
    var e := x - m;
    assert x' - m' == c * e;
    assert (c * e) * (c * e) == c * c * (e * e);
    Distributes(c * c, dev, e * e);
  }

  // Quadratics that are never negative.

  function Quadratic(a: real, p: real, b: real, t: real): real
  {
    a - 2.0 * Times(t, p) + Times(Square(t), b)
  }

  ghost predicate NeverNegative(a: real, p: real, b: real)
  {
    forall t: real :: Quadratic(a, p, b, t) >= 0.0
  }

  lemma QuadraticStart(t: real)
    ensures Quadratic(0.0, 0.0, 0.0, t) == 0.0
  {
  }

  /** The square of x - t y, expanded; it is not negative. */
  lemma ExpandedSquare(x: real, y: real, t: real, xx: real, xy: real, yy: real)
    requires xx == x * x && xy == x * y && yy == y * y
    ensures xx - 2.0 * Times(t, xy) + Times(Square(t), yy) >= 0.0
  {
    var u := t * y;
    assert x * u == t * xy;
    assert u * u == t * t * yy;
    SquareSign(x - u, xx - 2.0 * (x * u) + u * u);
  }

  lemma QuadraticStep(a: real, p: real, b: real, t: real, x: real, y: real, a': real, p': real, b': real)
    requires Quadratic(a, p, b, t) >= 0.0
    requires a' == a + x * x && p' == p + x * y && b' == b + y * y
    ensures Quadratic(a', p', b', t) >= 0.0
  {
    var xx, xy, yy := x * x, x * y, y * y;
    ExpandedSquare(x, y, t, xx, xy, yy);
    TimesSum(t, p, xy, p');
    TimesSum(Square(t), b, yy, b');
    hide Times, Square;
  }

  lemma LinearFallsBelowZero(a: real, p: real)
    requires p != 0.0
    ensures !NeverNegative(a, p, 0.0)
  {
    var t := (a + 1.0) / (2.0 * p);
    assert t * (2.0 * p) == a + 1.0;
    assert 2.0 * Times(t, p) == t * (2.0 * p);
    assert Quadratic(a, p, 0.0, t) == -1.0;
  }

  /** A quadratic that is never negative has a discriminant that is not positive. */
  lemma Discriminant(a: real, p: real, b: real)
    requires b >= 0.0 && NeverNegative(a, p, b)
    ensures Square(p) <= Times(a, b)
  {
    if b == 0.0 {
      if p != 0.0 { LinearFallsBelowZero(a, p); }
    } else {
      var t := p / b;
      assert t * b == p;
      assert Times(Square(t), b) == t * (t * b);
      assert Quadratic(a, p, b, t) == a - t * p;
      ProductMonotone(0.0, a - t * p, b);
      assert (a - t * p) * b == a * b - p * (t * b);
    }
  }
}
