/** Series of reals: sums and dot products, mean and population variance, and the inequalities
    the trust engine rests on. */
module Series {
  import opened Algebra

  function Sum(xs: seq<real>): real
  {
    if xs == [] then 0.0 else Sum(xs[..|xs| - 1]) + xs[|xs| - 1]
  }

  function Dot(xs: seq<real>, ys: seq<real>): real
    requires |xs| == |ys|
  {
    if xs == [] then 0.0
    else
      var n := |xs| - 1;
      Dot(xs[..n], ys[..n]) + xs[n] * ys[n]
  }

  function Shifted(xs: seq<real>, c: real): (r: seq<real>)
    ensures |r| == |xs|
  {
    seq(|xs|, i requires 0 <= i < |xs| => xs[i] + c)
  }

  function Scaled(xs: seq<real>, c: real): (r: seq<real>)
    ensures |r| == |xs|
  {
    if xs == [] then [] else Scaled(xs[..|xs| - 1], c) + [c * xs[|xs| - 1]]
  }

  function Mean(xs: seq<real>): real
    requires xs != []
  {
    Sum(xs) / (|xs| as real)
  }

  /** The sum of squared distances from c. */
  function Deviation(xs: seq<real>, c: real): real
  {
    var centred := Shifted(xs, -c);
    Dot(centred, centred)
  }

  /** Population variance. */
  function Variance(xs: seq<real>): real
    requires xs != []
  {
    Deviation(xs, Mean(xs)) / (|xs| as real)
  }

  lemma {:induction false} NormNonNegative(xs: seq<real>)
    ensures Dot(xs, xs) >= 0.0
  {
    if xs == [] {
    } else {
      NormNonNegative(xs[..|xs| - 1]);
      SquareSign(xs[|xs| - 1], xs[|xs| - 1] * xs[|xs| - 1]);
    }
  }

  lemma DeviationNonNegative(xs: seq<real>, c: real)
    ensures Deviation(xs, c) >= 0.0
  {
    NormNonNegative(Shifted(xs, -c));
  }

  lemma {:induction false} SumShifted(xs: seq<real>, c: real)
    ensures Sum(Shifted(xs, c)) == Sum(xs) + (|xs| as real) * c
  {
    if xs == [] {
    } else {
      var n := |xs| - 1;
      SumShifted(xs[..n], c);
      assert Shifted(xs, c)[..n] == Shifted(xs[..n], c);
    }
  }

  lemma {:induction false} NormShifted(xs: seq<real>, k: real)
    ensures Dot(Shifted(xs, k), Shifted(xs, k)) == ShiftedNorm(Dot(xs, xs), Sum(xs), |xs| as real, k)
  {
    if xs == [] {
      assert Shifted(xs, k) == [];
    } else {
      var n := |xs| - 1;
      var shifted := Shifted(xs, k);
      assert shifted[..n] == Shifted(xs[..n], k) && shifted[n] == xs[n] + k;
      NormShifted(xs[..n], k);
      hide ShiftedNorm;
      ShiftedNormStep(Dot(xs[..n], xs[..n]), Sum(xs[..n]), n as real, k, xs[n], Dot(xs, xs), Sum(xs), |xs| as real,
                      Dot(shifted, shifted));
    }
  }

  lemma ShiftedTwice(xs: seq<real>, a: real, b: real, c: real)
    requires a + b == c
    ensures Shifted(Shifted(xs, a), b) == Shifted(xs, c)
  {
  }

  lemma CentredSumIsZero(xs: seq<real>)
    requires xs != []
    ensures Sum(Shifted(xs, -Mean(xs))) == 0.0
  {
    SumShifted(xs, -Mean(xs));
    QuotientTimes(Sum(xs), |xs| as real);
  }

  lemma NormOfMovedCentred(cs: seq<real>, k: real)
    requires Sum(cs) == 0.0
    ensures Dot(Shifted(cs, k), Shifted(cs, k)) == Dot(cs, cs) + (|cs| as real) * Square(k)
  {
    hide *;
    NormShifted(cs, k);
    ShiftedNormOfCentred(Dot(cs, cs), |cs| as real, k);
  }

  lemma AroundCentre(xs: seq<real>, m: real, d: real)
    requires Sum(Shifted(xs, -m)) == 0.0
    ensures Deviation(xs, d) == Deviation(xs, m) + (|xs| as real) * Square(m - d)
  {
    var centred, k := Shifted(xs, -m), m - d;
    ShiftedTwice(xs, -m, k, -d);
    assert Deviation(xs, d) == Dot(Shifted(centred, k), Shifted(centred, k));
    hide *;
    NormOfMovedCentred(centred, k);
  }

  /** About any point d the deviation is the one about the mean plus n (mean - d)^2. */
  lemma AroundMean(xs: seq<real>, d: real)
    requires xs != []
    ensures Deviation(xs, d) == Deviation(xs, Mean(xs)) + (|xs| as real) * Square(Mean(xs) - d)
  {
    CentredSumIsZero(xs);
    hide *;
    AroundCentre(xs, Mean(xs), d);
  }

  lemma NoneTimes(c: real)
    ensures Times(0.0, c) == 0.0
  {
  }

  lemma {:induction false} SumBounds(xs: seq<real>, lo: real, hi: real)
    requires forall x | x in xs :: lo <= x <= hi
    ensures Times(|xs| as real, lo) <= Sum(xs) <= Times(|xs| as real, hi)
  {
    hide Times;
    if xs == [] {
      NoneTimes(lo);
      NoneTimes(hi);
    } else {
      var n := |xs| - 1;
      assert forall x | x in xs[..n] :: x in xs;
      SumBounds(xs[..n], lo, hi);
      assert xs[n] in xs && lo <= xs[n] <= hi;
      OneMoreTimes(n as real, lo);
      OneMoreTimes(n as real, hi);
    }
  }

  lemma MeanBounds(xs: seq<real>, lo: real, hi: real)
    requires xs != [] && forall x | x in xs :: lo <= x <= hi
    ensures lo <= Mean(xs) <= hi
  {
    SumBounds(xs, lo, hi);
    QuotientBounds(Sum(xs), |xs| as real, lo, hi);
  }

  lemma VarianceShifted(xs: seq<real>, c: real)
    requires xs != []
    ensures Mean(Shifted(xs, c)) == Mean(xs) + c
    ensures Variance(Shifted(xs, c)) == Variance(xs)
  {
    SumShifted(xs, c);
    QuotientOfSum(Sum(xs), |xs| as real, c);
    var m := Mean(xs);
    assert Mean(Shifted(xs, c)) == m + c;
    hide Mean, Dot;
    ShiftedTwice(xs, c, -(m + c), -m);
  }

  lemma {:induction false} SumScaled(xs: seq<real>, c: real)
    ensures Sum(Scaled(xs, c)) == Times(c, Sum(xs))
  {
    if xs == [] {
    } else {
      var n := |xs| - 1;
      SumScaled(xs[..n], c);
      assert Scaled(xs, c)[..n] == Scaled(xs[..n], c);
      Distributes(c, Sum(xs[..n]), xs[n]);
    }
  }

  lemma ScaledLast(xs: seq<real>, n: nat, c: real)
    requires |xs| == n + 1
    ensures Scaled(xs, c)[..n] == Scaled(xs[..n], c) && Scaled(xs, c)[n] == c * xs[n]
  {
  }

  lemma DeviationScaledEmpty(c: real, m: real, m': real)
    ensures Scaled([], c) == [] && Deviation([], m') == Times(Square(c), Deviation([], m))
  {
    assert Shifted([], -m) == [] && Shifted([], -m') == [];
  }

  lemma DeviationLast(xs: seq<real>, n: nat, c: real)
    requires |xs| == n + 1
    ensures Deviation(xs, c) == Deviation(xs[..n], c) + Square(xs[n] - c)
  {
    var centred := Shifted(xs, -c);
    assert centred[..n] == Shifted(xs[..n], -c);
    assert Dot(centred, centred) == Dot(centred[..n], centred[..n]) + centred[n] * centred[n];
  }

  lemma {:induction false} DeviationScaled(xs: seq<real>, c: real, m: real, m': real)
    requires m' == Times(c, m)
    ensures Deviation(Scaled(xs, c), m') == Times(Square(c), Deviation(xs, m))
  {
    hide *;
    if xs == [] {
      DeviationScaledEmpty(c, m, m');
    } else {
      var n := |xs| - 1;
      var scaled := Scaled(xs, c);
      ScaledLast(xs, n, c);
      DeviationScaled(xs[..n], c, m, m');
      DeviationLast(scaled, n, m');
      DeviationLast(xs, n, m);
      ScaledDeviationStep(c, Deviation(xs[..n], m), Deviation(scaled[..n], m'), xs[n], scaled[n], m, m',
                          Deviation(xs, m));
    }
  }

  lemma MeanScaled(xs: seq<real>, c: real)
    requires xs != []
    ensures Mean(Scaled(xs, c)) == Times(c, Mean(xs))
  {
    SumScaled(xs, c);
    ScaledQuotient(Sum(xs), Sum(Scaled(xs, c)), |xs| as real, c, Mean(xs), Mean(Scaled(xs, c)));
  }

  lemma VarianceIs(xs: seq<real>)
    requires xs != []
    ensures Variance(xs) == Deviation(xs, Mean(xs)) / (|xs| as real)
  {
  }

  lemma DeviationOfStd(xs: seq<real>, std: real)
    requires xs != [] && Square(std) == Variance(xs)
    ensures Deviation(xs, Mean(xs)) == Times(|xs| as real, Square(std))
  {
    hide Deviation, Mean, Square;
    VarianceIs(xs);
    hide Variance;
    QuotientTimes(Deviation(xs, Mean(xs)), |xs| as real);
  }

  lemma VarianceScaled(xs: seq<real>, c: real)
    requires xs != []
    ensures Variance(Scaled(xs, c)) == Times(Square(c), Variance(xs))
  {
    hide *;
    var scaled := Scaled(xs, c);
    MeanScaled(xs, c);
    VarianceIs(xs);
    VarianceIs(scaled);
    DeviationScaled(xs, c, Mean(xs), Mean(scaled));
    ScaledQuotient(Deviation(xs, Mean(xs)), Deviation(scaled, Mean(scaled)), |xs| as real, Square(c), Variance(xs),
                   Variance(scaled));
  }

  /** The squared length of xs - t ys is a quadratic in t that is never negative. */
  lemma {:induction false} QuadraticNonNegative(xs: seq<real>, ys: seq<real>, t: real)
    requires |xs| == |ys|
    ensures Quadratic(Dot(xs, xs), Dot(xs, ys), Dot(ys, ys), t) >= 0.0
  {
    hide Quadratic;
    if xs == [] {
      QuadraticStart(t);
    } else {
      var n := |xs| - 1;
      QuadraticNonNegative(xs[..n], ys[..n], t);
      QuadraticStep(Dot(xs[..n], xs[..n]), Dot(xs[..n], ys[..n]), Dot(ys[..n], ys[..n]), t, xs[n], ys[n],
                    Dot(xs, xs), Dot(xs, ys), Dot(ys, ys));
    }
  }

  lemma DotsNeverNegative(xs: seq<real>, ys: seq<real>)
    requires |xs| == |ys|
    ensures NeverNegative(Dot(xs, xs), Dot(xs, ys), Dot(ys, ys))
  {
    hide Quadratic, Dot;
    forall t: real
      ensures Quadratic(Dot(xs, xs), Dot(xs, ys), Dot(ys, ys), t) >= 0.0
    {
      QuadraticNonNegative(xs, ys, t);
    }
  }

  lemma CauchySchwarz(xs: seq<real>, ys: seq<real>)
    requires |xs| == |ys|
    ensures Square(Dot(xs, ys)) <= Times(Dot(xs, xs), Dot(ys, ys))
  {
    hide *;
    NormNonNegative(ys);
    DotsNeverNegative(xs, ys);
    Discriminant(Dot(xs, xs), Dot(xs, ys), Dot(ys, ys));
  }
}
