/** The stateful trust score: exponential moving averages, deviations and correlation over the
    recent sensor readings, folded into one score. Floats are reals; a square root is any
    non-negative real with the right square; touch entropy is an input. */
module Trust {
  import opened Algebra
  import opened Numbers
  import opened Series

  const MAX_HISTORY := 100

  datatype Payload = Payload(accelerometer: seq<real>, gyroscope: seq<real>, touch: bool, motionDelta: real)

  function Abs(x: real): real { if x >= 0.0 then x else -x }

  /** int(x): truncation towards zero. */
  function Truncated(x: real): int
  {
    if x >= 0.0 then x.Floor else -((-x).Floor)
  }

  function Magnitude(vec: seq<real>): real
  {
    if vec == [] then 0.0 else Magnitude(vec[..|vec| - 1]) + Abs(vec[|vec| - 1])
  }

  function Ema(values: seq<real>): real
  {
    if values == [] then 0.0
    else if |values| == 1 then values[0]
    else 0.2 * values[|values| - 1] + 0.8 * Ema(values[..|values| - 1])
  }

  /** The average lies between two readings. */
  lemma {:induction false} EmaBetweenValues(values: seq<real>)
    requires values != []
    ensures exists v, w :: v in values && w in values && v <= Ema(values) <= w
  {
    if |values| == 1 {
      assert values[0] in values;
    } else {
      var n := |values| - 1;
      EmaBetweenValues(values[..n]);
      var v, w :| v in values[..n] && w in values[..n] && v <= Ema(values[..n]) <= w;
      var x := values[n];
      assert v in values && w in values && x in values;
      var a, b := if v <= x then v else x, if w >= x then w else x;
      assert a in values && b in values && a <= Ema(values) <= b;
    }
  }

  method ComputeEma(values: seq<real>) returns (ema: real)
    ensures ema == Ema(values)
    ensures values != [] ==> exists v, w :: v in values && w in values && v <= ema <= w
  {
    if values == [] {
      return 0.0;
    }
    ema := values[0];
    for i := 1 to |values|
      invariant ema == Ema(values[..i])
    {
      assert values[..i + 1][..i] == values[..i];
      ema := 0.2 * values[i] + (1.0 - 0.2) * ema;
    }
    assert values[..|values|] == values;
    EmaBetweenValues(values);
  }

  function AccelSeries(current: Payload, history: seq<Payload>): (r: seq<real>)
    ensures |r| == (if |history| < 100 then |history| else 100) + 1
    ensures forall i | 0 <= i < |r| - 1 :: r[i] == Magnitude(history[i].accelerometer)
    ensures r[|r| - 1] == Magnitude(current.accelerometer)
  {
    var n := Min(|history|, MAX_HISTORY);
    seq(n, i requires 0 <= i < n => Magnitude(history[i].accelerometer)) + [Magnitude(current.accelerometer)]
  }

  function GyroSeries(current: Payload, history: seq<Payload>): (r: seq<real>)
    ensures |r| == (if |history| < 100 then |history| else 100) + 1
    ensures forall i | 0 <= i < |r| - 1 :: r[i] == Magnitude(history[i].gyroscope)
    ensures r[|r| - 1] == Magnitude(current.gyroscope)
  {
    var n := Min(|history|, MAX_HISTORY);
    seq(n, i requires 0 <= i < n => Magnitude(history[i].gyroscope)) + [Magnitude(current.gyroscope)]
  }

  /** s is the population standard deviation of the series. */
  predicate IsStd(s: real, series: seq<real>)
    requires series != []
  {
    s >= 0.0 && Square(s) == Variance(series)
  }

  function ZScore(value: real, ema: real, std: real): real
  {
    if std > 0.0 then Abs(value - ema) / std else Abs(value - ema)
  }

  function SeriesZ(series: seq<real>, std: real): real
    requires series != []
  {
    ZScore(series[|series| - 1], Ema(series), std)
  }

  function MotionScore(z: real): int
  {
    Max(0, 100 - Min(100, Truncated(z * 20.0)))
  }

  function TouchScore(entropy: real): int
  {
    Max(0, 100 - Truncated(entropy * 50.0))
  }

  function NetworkScore(motionDelta: real): int
  {
    Max(0, Min(100, Truncated(motionDelta * 100.0)))
  }

  /** The global score, given the two deviations and the touch entropy. */
  function Score(current: Payload, history: seq<Payload>, accelStd: real, gyroStd: real, touchEntropy: real): int
  {
    var accel := MotionScore(SeriesZ(AccelSeries(current, history), accelStd));
    var gyro := MotionScore(SeriesZ(GyroSeries(current, history), gyroStd));
    Truncated(0.4 * (accel as real) + 0.3 * (gyro as real)
              + 0.15 * (TouchScore(touchEntropy) as real) + 0.15 * (NetworkScore(current.motionDelta) as real))
  }

  /** Pearson correlation; `root` is the square root of the product of the two deviations. */
  function Correlation(xs: seq<real>, ys: seq<real>, root: real): real
  {
    if |xs| < 2 || |xs| != |ys| then 0.0
    else if root == 0.0 then 0.0
    else Dot(Shifted(xs, -Mean(xs)), Shifted(ys, -Mean(ys))) / root
  }

  // The moving average.

  lemma ConvexStep(x: real, e: real, m: real)
    ensures Square(0.2 * x + 0.8 * e - m) <= Square(x - m) + Square(e - m)
  {
    var u, v := x - m, e - m;
    var uu, vv, gap := u * u, v * v, (u - v) * (u - v);
    SquareSign(u, uu);
    SquareSign(v, vv);
    SquareSign(u - v, gap);
    assert 0.2 * x + 0.8 * e - m == 0.2 * u + 0.8 * v;
    assert Square(0.2 * u + 0.8 * v) == 0.2 * uu + 0.8 * vv - 0.16 * gap;
  }

  lemma GapStep(x: real, e: real, m: real, ema: real)
    requires ema == 0.2 * x + 0.8 * e
    ensures Square(x - ema) <= 1.28 * (Square(x - m) + Square(e - m))
  {
    var u, v := x - m, e - m;
    var sum := (u + v) * (u + v);
    SquareSign(u + v, sum);
    assert x - ema == 0.8 * (u - v);
    assert Square(0.8 * (u - v)) == 0.64 * (2.0 * (u * u) + 2.0 * (v * v) - sum);
  }

  lemma {:induction false} EmaWithinBounds(values: seq<real>, lo: real, hi: real)
    requires values != [] && forall v | v in values :: lo <= v <= hi
    ensures lo <= Ema(values) <= hi
  {
    var n := |values| - 1;
    assert values[n] in values;
    if n > 0 {
      assert forall v | v in values[..n] :: v in values;
      EmaWithinBounds(values[..n], lo, hi);
    }
  }

  /** The average is no further from any point than the whole series is. */
  lemma {:induction false} EmaNear(values: seq<real>, m: real)
    requires values != []
    ensures Square(Ema(values) - m) <= Deviation(values, m)
  {
    var n := |values| - 1;
    var x := values[n];
    DeviationLast(values, n, m);
    DeviationNonNegative(values[..n], m);
    if n > 0 {
      EmaNear(values[..n], m);
      ConvexStep(x, Ema(values[..n]), m);
    }
  }

  lemma SingleReading(values: seq<real>)
    requires |values| == 1
    ensures Square(values[0] - Ema(values)) == 0.0
  {
  }

  lemma EmaLast(values: seq<real>, n: nat)
    requires |values| == n + 1 && n > 0
    ensures Ema(values) == 0.2 * values[n] + 0.8 * Ema(values[..n])
  {
  }

  /** The last reading is within 1.28 times the series' deviation of the average. */
  lemma LastNearEma(values: seq<real>, m: real)
    requires values != []
    ensures Square(values[|values| - 1] - Ema(values)) <= 1.28 * Deviation(values, m)
  {
    hide *;
    var n := |values| - 1;
    DeviationNonNegative(values, m);
    if n == 0 {
      SingleReading(values);
    } else {
      EmaLast(values, n);
      DeviationLast(values, n, m);
      EmaNear(values[..n], m);
      GapStep(values[n], Ema(values[..n]), m, Ema(values));
    }
  }

  lemma NothingLeft(gap: real, m: real)
    requires Square(gap) <= 1.28 * m && m == 0.0
    ensures gap == 0.0
  {
    if gap != 0.0 { NonZeroSquare(gap); }
  }

  lemma NoDeviationMeansNoGap(series: seq<real>, m: real)
    requires series != [] && Deviation(series, m) == 0.0
    ensures series[|series| - 1] == Ema(series)
  {
    hide *;
    LastNearEma(series, m);
    NothingLeft(series[|series| - 1] - Ema(series), Deviation(series, m));
  }

  lemma ZeroStdMeansNoGap(series: seq<real>, std: real)
    requires series != [] && IsStd(std, series) && std == 0.0
    ensures series[|series| - 1] == Ema(series)
  {
    hide Square, Times, Variance, Mean, Deviation, Ema;
    DeviationOfStd(series, std);
    NothingTimes(|series| as real);
    NoDeviationMeansNoGap(series, Mean(series));
  }

  lemma RatioBound(gap: real, std: real, z: real, limit: real)
    requires std > 0.0 && z == Abs(gap) / std && Square(gap) <= Times(limit, Square(std))
    ensures Square(z) <= limit
  {
    assert z * std == Abs(gap);
    NegatedSquare(gap);
    assert Square(Abs(gap)) == Square(gap);
    assert Square(z * std) == Square(z) * Square(std);
    NonZeroSquare(std);
    var excess := Square(z) - limit;
    if excess > 0.0 { PositiveProduct(excess, Square(std), excess * Square(std)); }
  }

  lemma PulledOut(a: real, b: real, c: real)
    ensures Times(a * b, c) == a * Times(b, c)
  {
  }

  /** For a series of length n, z^2 is at most 1.28 n; and when the deviation is zero the
      fallback branch returns 0. */
  lemma ZScoreBound(series: seq<real>, std: real)
    requires series != [] && IsStd(std, series)
    ensures 0.0 <= SeriesZ(series, std)
    ensures Square(SeriesZ(series, std)) <= 1.28 * (|series| as real)
    ensures std == 0.0 ==> SeriesZ(series, std) == 0.0
  {
    var gap, n := series[|series| - 1] - Ema(series), |series| as real;
    if std == 0.0 {
      ZeroStdMeansNoGap(series, std);
    } else {
      hide Ema, Deviation, Mean, Square, Times, Variance;
      LastNearEma(series, Mean(series));
      DeviationOfStd(series, std);
      PulledOut(1.28, n, Square(std));
      RatioBound(gap, std, SeriesZ(series, std), 1.28 * n);
    }
  }

  /** Every global score lies in [7, 100]. */
  lemma ScoreRange(current: Payload, history: seq<Payload>, accelStd: real, gyroStd: real, touchEntropy: real)
    requires IsStd(accelStd, AccelSeries(current, history)) && IsStd(gyroStd, GyroSeries(current, history))
    requires 0.0 <= touchEntropy <= 1.0
    ensures 7 <= Score(current, history, accelStd, gyroStd, touchEntropy) <= 100
  {
    ZScoreBound(AccelSeries(current, history), accelStd);
    ZScoreBound(GyroSeries(current, history), gyroStd);
    assert 50 <= TouchScore(touchEntropy) <= 100;
  }

  // Units and offsets of a sensor do not matter.

  lemma {:induction false} EmaShifted(values: seq<real>, c: real)
    requires values != []
    ensures Ema(Shifted(values, c)) == Ema(values) + c
  {
    if |values| > 1 {
      var n := |values| - 1;
      EmaShifted(values[..n], c);
      assert Shifted(values, c)[..n] == Shifted(values[..n], c);
    }
  }

  lemma {:induction false} EmaScaled(values: seq<real>, c: real)
    requires values != []
    ensures Ema(Scaled(values, c)) == Times(c, Ema(values))
  {
    var n := |values| - 1;
    ScaledLast(values, n, c);
    if n > 0 {
      EmaScaled(values[..n], c);
      Distributes(c, 0.2 * values[n], 0.8 * Ema(values[..n]));
      assert c * (0.2 * values[n]) == 0.2 * (c * values[n]);
      assert c * (0.8 * Ema(values[..n])) == 0.8 * (c * Ema(values[..n]));
    }
  }

  /** Adding a constant to a whole series changes neither its z-score nor its score. */
  lemma ShiftInvariant(series: seq<real>, c: real, std: real, std': real)
    requires series != [] && IsStd(std, series) && IsStd(std', Shifted(series, c))
    ensures SeriesZ(Shifted(series, c), std') == SeriesZ(series, std)
    ensures MotionScore(SeriesZ(Shifted(series, c), std')) == MotionScore(SeriesZ(series, std))
  {
    VarianceShifted(series, c);
    RootUnique(std, std');
    EmaShifted(series, c);
  }

  lemma ScaledAbs(c: real, x: real)
    requires c > 0.0
    ensures Abs(c * x) == Times(c, Abs(x))
  {
    if x > 0.0 { PositiveProduct(c, x, c * x); }
    if x < 0.0 { PositiveProduct(c, -x, -(c * x)); }
  }

  lemma ScaledRatio(c: real, gap: real, std: real, gap': real, std': real)
    requires c > 0.0 && std > 0.0 && gap' == Times(c, gap) && std' == Times(c, std)
    ensures std' > 0.0 && Abs(gap') / std' == Abs(gap) / std
  {
    PositiveProduct(c, std, std');
    ScaledAbs(c, gap);
    var z := Abs(gap) / std;
    assert z * std == Abs(gap);
    assert z * std' == Abs(gap');
  }

  lemma SquareOfTimes(c: real, x: real)
    ensures Square(Times(c, x)) == Times(Square(c), Square(x))
  {
  }

  lemma TimesSign(c: real, x: real)
    requires c > 0.0 && x >= 0.0
    ensures Times(c, x) >= 0.0
  {
    if x > 0.0 { PositiveProduct(c, x, Times(c, x)); }
  }

  lemma ScaledStd(series: seq<real>, c: real, std: real, std': real)
    requires c > 0.0 && series != [] && IsStd(std, series) && IsStd(std', Scaled(series, c))
    ensures std' == Times(c, std)
  {
    hide Scaled, Variance, Square, Times;
    VarianceScaled(series, c);
    TimesSign(c, std);
    SquareOfTimes(c, std);
    RootUnique(Times(c, std), std');
  }

  lemma TimesDifference(c: real, a: real, b: real)
    ensures Times(c, a) - Times(c, b) == Times(c, a - b)
  {
  }

  lemma ScaledGap(series: seq<real>, c: real)
    requires series != []
    ensures Scaled(series, c)[|series| - 1] - Ema(Scaled(series, c)) == Times(c, series[|series| - 1] - Ema(series))
  {
    var n := |series| - 1;
    EmaScaled(series, c);
    ScaledLast(series, n, c);
    assert c * series[n] == Times(c, series[n]);
    hide Scaled, Ema, Times;
    TimesDifference(c, series[n], Ema(series));
  }

  lemma TimesZero(c: real)
    ensures Times(c, 0.0) == 0.0
  {
  }

  lemma ScaledZ(c: real, gap: real, std: real, gap': real, std': real)
    requires c > 0.0 && gap' == Times(c, gap) && std' == Times(c, std) && std >= 0.0 && (std == 0.0 ==> gap == 0.0)
    ensures ZScore(gap', 0.0, std') == ZScore(gap, 0.0, std)
  {
    if std == 0.0 {
      TimesZero(c);
    } else {
      ScaledRatio(c, gap, std, gap', std');
    }
  }

  lemma ZScoreOfGap(series: seq<real>, std: real)
    requires series != []
    ensures SeriesZ(series, std) == ZScore(series[|series| - 1] - Ema(series), 0.0, std)
  {
    hide Ema;
  }

  /** Scaling a whole series by a positive factor changes neither its z-score nor its score. */
  lemma ScaleInvariant(series: seq<real>, c: real, std: real, std': real)
    requires c > 0.0 && series != [] && IsStd(std, series) && IsStd(std', Scaled(series, c))
    ensures SeriesZ(Scaled(series, c), std') == SeriesZ(series, std)
    ensures MotionScore(SeriesZ(Scaled(series, c), std')) == MotionScore(SeriesZ(series, std))
  {
    assert std >= 0.0;
    hide *;
    var scaled := Scaled(series, c);
    var gap, gap' := series[|series| - 1] - Ema(series), scaled[|scaled| - 1] - Ema(scaled);
    ScaledStd(series, c, std, std');
    ScaledGap(series, c);
    if std == 0.0 {
      ZeroStdMeansNoGap(series, std);
    }
    ScaledZ(c, gap, std, gap', std');
    ZScoreOfGap(series, std);
    ZScoreOfGap(scaled, std');
  }

  function ScaledAccel(p: Payload, c: real): Payload
  {
    p.(accelerometer := Scaled(p.accelerometer, c))
  }

  lemma MagnitudeLast(vec: seq<real>, n: nat)
    requires |vec| == n + 1
    ensures Magnitude(vec) == Magnitude(vec[..n]) + Abs(vec[n])
  {
  }

  lemma ScaledAbsLast(vec: seq<real>, n: nat, c: real)
    requires c > 0.0 && |vec| == n + 1
    ensures Scaled(vec, c)[..n] == Scaled(vec[..n], c) && Abs(Scaled(vec, c)[n]) == Times(c, Abs(vec[n]))
  {
    ScaledLast(vec, n, c);
    ScaledAbs(c, vec[n]);
  }

  lemma {:induction false} MagnitudeScaled(vec: seq<real>, c: real)
    requires c > 0.0
    ensures Magnitude(Scaled(vec, c)) == Times(c, Magnitude(vec))
  {
    if vec == [] {
    } else {
      hide *;
      var n := |vec| - 1;
      ScaledAbsLast(vec, n, c);
      MagnitudeScaled(vec[..n], c);
      MagnitudeLast(vec, n);
      MagnitudeLast(Scaled(vec, c), n);
      TimesSum(c, Magnitude(vec[..n]), Abs(vec[n]), Magnitude(vec));
    }
  }

  lemma {:induction false} ScaledAt(xs: seq<real>, c: real, i: nat)
    requires i < |xs|
    ensures Scaled(xs, c)[i] == c * xs[i]
  {
    var n := |xs| - 1;
    ScaledLast(xs, n, c);
    if i < n {
      ScaledAt(xs[..n], c, i);
      assert Scaled(xs, c)[..n][i] == Scaled(xs, c)[i] && xs[..n][i] == xs[i];
    }
  }

  function AllScaledAccel(history: seq<Payload>, c: real): (r: seq<Payload>)
    ensures |r| == |history| && forall i | 0 <= i < |r| :: r[i] == ScaledAccel(history[i], c)
  {
    seq(|history|, i requires 0 <= i < |history| => ScaledAccel(history[i], c))
  }

  lemma AccelSeriesScaled(current: Payload, history: seq<Payload>, c: real)
    requires c > 0.0
    ensures AccelSeries(ScaledAccel(current, c), AllScaledAccel(history, c)) == Scaled(AccelSeries(current, history), c)
    ensures GyroSeries(ScaledAccel(current, c), AllScaledAccel(history, c)) == GyroSeries(current, history)
  {
    var series := AccelSeries(current, history);
    var series' := AccelSeries(ScaledAccel(current, c), AllScaledAccel(history, c));
    hide Scaled, Magnitude;
    forall i | 0 <= i < |series|
      ensures series'[i] == Scaled(series, c)[i]
    {
      ScaledAt(series, c, i);
      MagnitudeScaled(if i < |series| - 1 then history[i].accelerometer else current.accelerometer, c);
    }
  }

  /** A device that reports acceleration in another unit gets the same global score. */
  lemma ScoreIgnoresAccelUnit(current: Payload, history: seq<Payload>, c: real, accelStd: real, accelStd': real,
                              gyroStd: real, touchEntropy: real)
    requires c > 0.0 && IsStd(accelStd, AccelSeries(current, history))
    requires IsStd(accelStd', AccelSeries(ScaledAccel(current, c), AllScaledAccel(history, c)))
    ensures Score(ScaledAccel(current, c), AllScaledAccel(history, c), accelStd', gyroStd, touchEntropy)
         == Score(current, history, accelStd, gyroStd, touchEntropy)
  {
    AccelSeriesScaled(current, history, c);
    ScaleInvariant(AccelSeries(current, history), c, accelStd, accelStd');
    hide SeriesZ, MotionScore, TouchScore, NetworkScore, AccelSeries, GyroSeries;
  }

  lemma BoundedRatio(num: real, root: real, x: real, y: real)
    requires root > 0.0 && Square(num) <= Times(x, y) && Square(root) == Times(x, y)
    ensures -1.0 <= num / root <= 1.0
  {
    RootMonotone(num, root);
    QuotientBounds(num, root, -1.0, 1.0);
  }

  /** Correlation stays within [-1, 1]. */
  lemma CorrelationBounded(xs: seq<real>, ys: seq<real>, root: real)
    requires xs != [] && ys != []
    requires root >= 0.0 && Square(root) == Times(Deviation(xs, Mean(xs)), Deviation(ys, Mean(ys)))
    ensures -1.0 <= Correlation(xs, ys, root) <= 1.0
  {
    hide Dot, Mean, Shifted;
    if |xs| == |ys| && root != 0.0 {
      var u, v := Shifted(xs, -Mean(xs)), Shifted(ys, -Mean(ys));
      CauchySchwarz(u, v);
      BoundedRatio(Dot(u, v), root, Dot(u, u), Dot(v, v));
    }
  }
}
