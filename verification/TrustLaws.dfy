/** What raises and lowers the trust score: the score as a formula of the two z-scores, the touch entropy
    and the motion delta, its monotonicity and its extremes. */
module TrustLaws {
  import opened Algebra
  import opened Series
  import opened Trust

  /** The magnitude of a reading adds up the absolute values of its axes. */
  lemma {:induction false} MagnitudeAdds(a: seq<real>, b: seq<real>, x: real)
    ensures Magnitude(a + b) == Magnitude(a) + Magnitude(b)
    ensures Magnitude([x]) == (if x < 0.0 then -x else x) && Magnitude([]) == 0.0
  {
    assert [x][..0] == [];
    if b == [] {
      assert a + b == a;
    } else {
      var n := |b| - 1;
      assert (a + b)[..|a + b| - 1] == a + b[..n];
      MagnitudeAdds(a, b[..n], x);
    }
  }

  /** The z-score is the gap between the last reading and the average, in deviations. */
  lemma ZScoreIsGapInDeviations(series: seq<real>, std: real)
    requires series != [] && IsStd(std, series)
    ensures
      var gap := series[|series| - 1] - Ema(series);
      SeriesZ(series, std) * std == if gap < 0.0 then -gap else gap
  {
    hide Square, Variance, Ema;
    if std == 0.0 {
      ZeroStdMeansNoGap(series, std);
    }
  }

  /** Points a sensor loses: twenty per deviation, in whole points, and no more than its hundred. */
  function Lost(z: real): int
    requires z >= 0.0
  {
    if z >= 5.0 then 100 else (20.0 * z).Floor
  }

  /** Points the motion delta earns: a hundred per unit, in whole points between 0 and 100. */
  function Earned(motionDelta: real): int
  {
    if motionDelta <= 0.0 then 0 else if motionDelta >= 1.0 then 100 else (100.0 * motionDelta).Floor
  }

  lemma MotionIsLost(z: real)
    requires z >= 0.0
    ensures MotionScore(z) == 100 - Lost(z) && 0 <= Lost(z) <= 100
  {
  }

  lemma NetworkIsEarned(motionDelta: real)
    ensures NetworkScore(motionDelta) == Earned(motionDelta) && 0 <= Earned(motionDelta) <= 100
  {
  }

  lemma TouchIsLost(touchEntropy: real)
    requires 0.0 <= touchEntropy <= 1.0
    ensures TouchScore(touchEntropy) == 100 - (50.0 * touchEntropy).Floor && 0 <= (50.0 * touchEntropy).Floor <= 50
  {
  }

  /** The global score before truncation, from the two z-scores, the touch entropy and the motion delta:
      forty points for the accelerometer, thirty for the gyroscope, fifteen each for touch and motion, each
      in proportion to what it keeps. */
  function Blend(za: real, zg: real, touchEntropy: real, motionDelta: real): real
    requires za >= 0.0 && zg >= 0.0
  {
    0.4 * ((100 - Lost(za)) as real) + 0.3 * ((100 - Lost(zg)) as real)
    + 0.15 * ((100 - (50.0 * touchEntropy).Floor) as real) + 0.15 * (Earned(motionDelta) as real)
  }

  /** The whole formula: the score is the blend of the two z-scores, in whole points. */
  lemma ScoreFormula(current: Payload, history: seq<Payload>, accelStd: real, gyroStd: real, touchEntropy: real)
    requires IsStd(accelStd, AccelSeries(current, history)) && IsStd(gyroStd, GyroSeries(current, history))
    requires 0.0 <= touchEntropy <= 1.0
    ensures
      var za, zg := SeriesZ(AccelSeries(current, history), accelStd), SeriesZ(GyroSeries(current, history), gyroStd);
      && za >= 0.0 && zg >= 0.0
      && Score(current, history, accelStd, gyroStd, touchEntropy)
         == Blend(za, zg, touchEntropy, current.motionDelta).Floor
  {
    ZScoreBound(AccelSeries(current, history), accelStd);
    ZScoreBound(GyroSeries(current, history), gyroStd);
    hide SeriesZ, AccelSeries, GyroSeries, IsStd, MotionScore, NetworkScore, TouchScore, Lost, Earned, Square;
    MotionIsLost(SeriesZ(AccelSeries(current, history), accelStd));
    MotionIsLost(SeriesZ(GyroSeries(current, history), gyroStd));
    NetworkIsEarned(current.motionDelta);
    TouchIsLost(touchEntropy);
  }

  lemma LostMonotone(z: real, z': real)
    requires 0.0 <= z <= z'
    ensures Lost(z) <= Lost(z')
  {
  }

  lemma EarnedMonotone(a: real, b: real)
    requires a <= b
    ensures Earned(a) <= Earned(b)
  {
  }

  /** Larger deviations from the average and more touch entropy never raise the score, and a larger
      motion delta never lowers it. */
  lemma BlendMonotone(za: real, zg: real, entropy: real, delta: real, za': real, zg': real, entropy': real,
                      delta': real)
    requires 0.0 <= za <= za' && 0.0 <= zg <= zg' && entropy <= entropy' && delta' <= delta
    ensures Blend(za', zg', entropy', delta') <= Blend(za, zg, entropy, delta)
    ensures Blend(za', zg', entropy', delta').Floor <= Blend(za, zg, entropy, delta).Floor
  {
    LostMonotone(za, za');
    LostMonotone(zg, zg');
    EarnedMonotone(delta', delta);
    assert (50.0 * entropy).Floor <= (50.0 * entropy').Floor;
    hide Lost, Earned;
  }

  /** Five deviations or more in one series cost exactly that series' share before truncation: forty
      points for the accelerometer, thirty for the gyroscope. */
  lemma ShareOfEachSensor(za: real, zg: real, entropy: real, delta: real)
    requires za >= 0.0 && zg >= 0.0
    ensures za >= 5.0 ==> Blend(za, zg, entropy, delta) == Blend(0.0, zg, entropy, delta) - 40.0
    ensures zg >= 5.0 ==> Blend(za, zg, entropy, delta) == Blend(za, 0.0, entropy, delta) - 30.0
  {
    hide Earned;
  }

  /** The extremes are attained: no deviation, no entropy and a motion delta of at least one give 100; five
      deviations in both series, one bit of entropy and no motion delta give 7. */
  lemma BlendExtremes(za: real, zg: real, delta: real)
    requires za >= 0.0 && zg >= 0.0
    ensures za == 0.0 && zg == 0.0 && delta >= 1.0 ==> Blend(za, zg, 0.0, delta).Floor == 100
    ensures za >= 5.0 && zg >= 5.0 && delta <= 0.0 ==> Blend(za, zg, 1.0, delta).Floor == 7
  {
  }

  /** A flat series has no deviation, and its last reading is the average. */
  predicate Flat(series: seq<real>)
  {
    forall i | 0 <= i < |series| :: series[i] == series[0]
  }

  lemma FlatScoresZero(series: seq<real>, std: real)
    requires series != [] && Flat(series) && IsStd(std, series)
    ensures SeriesZ(series, std) == 0.0
  {
    hide Variance, Square;
    assert forall v | v in series :: series[0] <= v <= series[0];
    EmaWithinBounds(series, series[0], series[0]);
  }

  /** Two flat series, no touch entropy and a motion delta of at least one score exactly 100. */
  lemma SteadyDeviceScoresFull(current: Payload, history: seq<Payload>, accelStd: real, gyroStd: real)
    requires IsStd(accelStd, AccelSeries(current, history)) && IsStd(gyroStd, GyroSeries(current, history))
    requires Flat(AccelSeries(current, history)) && Flat(GyroSeries(current, history)) && current.motionDelta >= 1.0
    ensures Score(current, history, accelStd, gyroStd, 0.0) == 100
  {
    FlatScoresZero(AccelSeries(current, history), accelStd);
    FlatScoresZero(GyroSeries(current, history), gyroStd);
    hide SeriesZ, AccelSeries, GyroSeries, IsStd, Blend, Score;
    ScoreFormula(current, history, accelStd, gyroStd, 0.0);
    BlendExtremes(0.0, 0.0, current.motionDelta);
  }

  /** A series that varies correlates with itself exactly. */
  lemma SelfCorrelation(xs: seq<real>, root: real)
    requires |xs| >= 2 && root > 0.0 && root == Deviation(xs, Mean(xs))
    ensures Correlation(xs, xs, root) == 1.0
  {
    hide Dot, Mean;
    assert Dot(Shifted(xs, -Mean(xs)), Shifted(xs, -Mean(xs))) == root;
    assert root / root == 1.0;
  }

  /** And it is the sum of the products of the deviations from the means, in units of the root. */
  lemma CorrelationIs(xs: seq<real>, ys: seq<real>, root: real)
    requires |xs| == |ys| && |xs| >= 2 && root > 0.0
    ensures Correlation(xs, ys, root) * root == Dot(Shifted(xs, -Mean(xs)), Shifted(ys, -Mean(ys)))
  {
    hide Dot, Mean, Shifted;
    QuotientTimes(Dot(Shifted(xs, -Mean(xs)), Shifted(ys, -Mean(ys))), root);
  }

  /** Correlation does not depend on which series comes first. */
  lemma {:induction false} DotSymmetric(xs: seq<real>, ys: seq<real>)
    requires |xs| == |ys|
    ensures Dot(xs, ys) == Dot(ys, xs)
  {
    if xs == [] {
    } else {
      DotSymmetric(xs[..|xs| - 1], ys[..|ys| - 1]);
    }
  }

  lemma CorrelationSymmetric(xs: seq<real>, ys: seq<real>, root: real)
    ensures Correlation(xs, ys, root) == Correlation(ys, xs, root)
  {
    if |xs| == |ys| && |xs| >= 2 {
      DotSymmetric(Shifted(xs, -Mean(xs)), Shifted(ys, -Mean(ys)));
      hide Dot, Mean, Shifted;
    }
  }
}
