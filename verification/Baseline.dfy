/** The per-device baseline the worker keeps in Redis: Welford's online mean and sum of squared
    deviations, forgotten after seven days without a score, and the threshold derived from it. */
module Baseline {
  import opened RedisStore
  import opened Algebra
  import opened Series

  const WEEK := 7 * 24 * 3600 * 1000

  datatype Stats = Stats(mean: real, m2: real, count: nat)

  const ZERO := Stats(0.0, 0.0, 0)

  function Absorb(b: Stats, score: real): Stats
  {
    var count := b.count + 1;
    var delta := score - b.mean;
    var mean := b.mean + delta / (count as real);
    Stats(mean, b.m2 + delta * (score - mean), count)
  }

  /** A score computed at an instant, in milliseconds. */
  datatype Visit = Visit(at: int, score: real)

  /** What a reader sees at an instant: a lapsed hash reads as zeros. */
  function Seen(entry: Option<Timed<Stats>>, now: int): Stats
  {
    if entry.Some? && (entry.value.deadline.None? || now <= entry.value.deadline.value) then entry.value.value else ZERO
  }

  /** What the baseline hash holds after a sequence of scores for one device. */
  function After(visits: seq<Visit>): Option<Timed<Stats>>
  {
    if visits == [] then None
    else
      var v := visits[|visits| - 1];
      Some(Timed(Absorb(Seen(After(visits[..|visits| - 1]), v.at), v.score), Some(v.at + WEEK)))
  }

  lemma AfterAppend(visits: seq<Visit>, v: Visit)
    ensures After(visits + [v]) == Some(Timed(Absorb(Seen(After(visits), v.at), v.score), Some(v.at + WEEK)))
  {
    assert (visits + [v])[..|visits|] == visits;
  }

  /** The scores since the last gap of seven days. */
  function Segment(visits: seq<Visit>): seq<real>
  {
    if visits == [] then []
    else
      var n := |visits| - 1;
      (if n > 0 && visits[n].at <= visits[n - 1].at + WEEK then Segment(visits[..n]) else []) + [visits[n].score]
  }

  ghost predicate Describes(b: Stats, xs: seq<real>)
  {
    && b.count == |xs|
    && if xs == [] then b == ZERO else b.mean == Mean(xs) && b.m2 == Deviation(xs, Mean(xs))
  }

  lemma MeanStep(sum: real, n: real, x: real, mean: real, mean': real)
    requires n > 0.0 && mean == sum / n && mean' == mean + (x - mean) / (n + 1.0)
    ensures mean' == (sum + x) / (n + 1.0)
  {
    assert mean * n == sum;
    assert mean' * (n + 1.0) == mean * (n + 1.0) + (x - mean);
    assert mean' * (n + 1.0) == sum + x;
  }

  lemma M2Step(mean: real, n: real, x: real, mean': real, m2: real, m2': real, dev: real)
    requires n > 0.0 && mean' == mean + (x - mean) / (n + 1.0)
    requires m2' == m2 + (x - mean) * (x - mean')
    requires dev == m2 + n * Square(mean - mean') + Square(x - mean')
    ensures m2' == dev
  {
    var step := (x - mean) / (n + 1.0);
    assert x - mean == (n + 1.0) * step;
    assert mean - mean' == -step && x - mean' == n * step;
    assert n * (step * step) + (n * step) * (n * step) == (n + 1.0) * step * (n * step);
  }

  lemma FirstScore(score: real)
    ensures Describes(Absorb(ZERO, score), [score])
  {
    assert [score][..0] == [];
    assert Sum([score]) == score && Mean([score]) == score;
    DeviationLast([score], 0, score);
    assert Deviation([], score) == 0.0;
  }

  lemma SumAppended(xs: seq<real>, x: real)
    ensures Sum(xs + [x]) == Sum(xs) + x
  {
    assert (xs + [x])[..|xs|] == xs;
  }

  lemma DeviationAppended(xs: seq<real>, x: real, c: real)
    requires xs != []
    ensures Deviation(xs + [x], c)
         == Deviation(xs, Mean(xs)) + (|xs| as real) * Square(Mean(xs) - c) + Square(x - c)
  {
    hide Deviation, Mean, Square;
    assert (xs + [x])[..|xs|] == xs;
    DeviationLast(xs + [x], |xs|, c);
    AroundMean(xs, c);
  }

  lemma LaterScore(b: Stats, xs: seq<real>, score: real)
    requires xs != [] && b.count == |xs| && b.mean == Mean(xs) && b.m2 == Deviation(xs, Mean(xs))
    ensures Absorb(b, score).mean == Mean(xs + [score])
    ensures Absorb(b, score).m2 == Deviation(xs + [score], Mean(xs + [score]))
  {
    hide Deviation, Square, Sum;
    var n := |xs| as real;
    var next := Absorb(b, score);
    assert b.mean == Sum(xs) / n && |xs + [score]| as real == n + 1.0;
    SumAppended(xs, score);
    MeanStep(Sum(xs), n, score, b.mean, next.mean);
    assert next.mean == Mean(xs + [score]);
    hide Mean;
    DeviationAppended(xs, score, next.mean);
    M2Step(b.mean, n, score, next.mean, b.m2, next.m2, Deviation(xs + [score], next.mean));
  }

  /** One Welford step, in terms of the plain sums. */
  lemma WelfordStep(b: Stats, xs: seq<real>, score: real)
    requires Describes(b, xs)
    ensures Describes(Absorb(b, score), xs + [score])
  {
    if xs == [] {
      assert xs + [score] == [score];
      FirstScore(score);
    } else {
      LaterScore(b, xs, score);
      hide Mean, Deviation;
    }
  }

  /** Online equals batch: the stored mean, m2 and count are the arithmetic mean, the sum of
      squared deviations and the number of the scores since the last seven-day gap. */
  lemma {:induction false} OnlineEqualsBatch(visits: seq<Visit>)
    requires visits != []
    ensures After(visits).Some? && After(visits).value.deadline == Some(visits[|visits| - 1].at + WEEK)
    ensures Segment(visits) != [] && Describes(After(visits).value.value, Segment(visits))
  {
    var n := |visits| - 1;
    var v := visits[n];
    if n > 0 {
      OnlineEqualsBatch(visits[..n]);
    }
    var kept := if n > 0 && v.at <= visits[n - 1].at + WEEK then Segment(visits[..n]) else [];
    assert n == 0 ==> Describes(Seen(After(visits[..n]), v.at), kept);
    hide Mean, Deviation, Absorb;
    WelfordStep(Seen(After(visits[..n]), v.at), kept, v.score);
  }

  /** So m2 is never negative, and the mean stays between the smallest and largest score. */
  lemma BaselineSane(visits: seq<Visit>, lo: real, hi: real)
    requires visits != [] && forall x | x in Segment(visits) :: lo <= x <= hi
    ensures After(visits).value.value.m2 >= 0.0 && lo <= After(visits).value.value.mean <= hi
  {
    OnlineEqualsBatch(visits);
    DeviationNonNegative(Segment(visits), Mean(Segment(visits)));
    MeanBounds(Segment(visits), lo, hi);
  }

  // The adaptive threshold.

  /** std is the population standard deviation the worker derives from the stats. */
  predicate IsStdOf(std: real, b: Stats)
  {
    std >= 0.0 && if b.count > 1 then Square(std) == b.m2 / (b.count as real) else std == 0.0
  }

  function Threshold(b: Stats, std: real): real
  {
    if b.count >= 10 then (if b.mean - 2.0 * std > 30.0 then b.mean - 2.0 * std else 30.0) else 50.0
  }

  /** Scores in [lo, hi). */
  function CountWithin(xs: seq<real>, lo: real, hi: real): nat
  {
    if xs == [] then 0
    else
      var x := xs[|xs| - 1];
      CountWithin(xs[..|xs| - 1], lo, hi) + if lo <= x < hi then 1 else 0
  }

  lemma SameSquare(x: real, c: real)
    ensures Square(c - x) == Square(x - c)
  {
  }

  /** Each score in [lo, hi), with hi at least r below c, takes more than r^2 of the deviation
      around c. */
  lemma {:induction false} FarScoresCost(xs: seq<real>, lo: real, hi: real, c: real, r: real)
    requires r >= 0.0 && hi <= c - r
    ensures Times(CountWithin(xs, lo, hi) as real, Square(r)) <= Deviation(xs, c)
    ensures CountWithin(xs, lo, hi) > 0 ==> Times(CountWithin(xs, lo, hi) as real, Square(r)) < Deviation(xs, c)
  {
    if xs == [] {
      DeviationNonNegative(xs, c);
    } else {
      hide Deviation, Square, Times;
      var n := |xs| - 1;
      var x, k := xs[n], CountWithin(xs[..n], lo, hi);
      FarScoresCost(xs[..n], lo, hi, c, r);
      DeviationLast(xs, n, c);
      SquareSign(x - c, Square(x - c));
      if lo <= x < hi {
        SquareGrows(r, c - x);
        SameSquare(x, c);
        OneMoreTimes(k as real, Square(r));
      }
    }
  }

  /** The arithmetic of Cantelli's inequality at two deviations below the mean. */
  lemma CantelliArithmetic(k: real, n: real, dev: real, std: real, moved: real)
    requires std > 0.0 && dev == Times(n, Square(std)) && moved == dev + n * Square(-(std / 2.0))
    requires Times(k, Square(2.5 * std)) < moved
    ensures 5.0 * k < n
  {
    var s := Square(std);
    NonZeroSquare(std);
    assert Square(2.5 * std) == 6.25 * s && Square(-(std / 2.0)) == 0.25 * s;
    assert Times(k, 6.25 * s) == 6.25 * (k * s);
    assert moved == 1.25 * (n * s);
    if 5.0 * k >= n {
      ProductMonotone(n, 5.0 * k, s);
    }
  }

  lemma SpreadCantelli(xs: seq<real>, lo: real, m: real, std: real)
    requires xs != [] && std > 0.0 && Square(std) == Variance(xs) && m == Mean(xs)
    requires CountWithin(xs, lo, m - 2.0 * std) > 0
    ensures 5 * CountWithin(xs, lo, m - 2.0 * std) < |xs|
  {
    hide *;
    var n, hi, c := |xs| as real, m - 2.0 * std, m + std / 2.0;
    var k := CountWithin(xs, lo, hi);
    DeviationOfStd(xs, std);
    FarScoresCost(xs, lo, hi, c, 2.5 * std);
    AroundMean(xs, c);
    assert m - c == -(std / 2.0);
    CantelliArithmetic(k as real, n, Deviation(xs, m), std, Deviation(xs, c));
  }

  lemma NoSpread(k: real, dev: real)
    requires Times(k, Square(0.0)) < dev
    ensures 0.0 < dev
  {
  }

  /** The one-sided tail bound on a series: fewer than a fifth of the scores lie in
      [lo, mean - 2 std). */
  lemma Cantelli(xs: seq<real>, lo: real, std: real)
    requires xs != [] && std >= 0.0 && Square(std) == Variance(xs)
    ensures 5 * CountWithin(xs, lo, Mean(xs) - 2.0 * std) < |xs|
  {
    hide *;
    var m := Mean(xs);
    var k := CountWithin(xs, lo, m - 2.0 * std);
    if k > 0 {
      if std == 0.0 {
        FarScoresCost(xs, lo, m, m, 0.0);
        NoSpread(k as real, Deviation(xs, m));
        DeviationOfStd(xs, std);
        NothingTimes(|xs| as real);
      } else {
        SpreadCantelli(xs, lo, m, std);
      }
    }
  }

  lemma {:induction false} NothingWithin(xs: seq<real>, lo: real)
    ensures CountWithin(xs, lo, lo) == 0
  {
    if xs == [] {
    } else {
      NothingWithin(xs[..|xs| - 1], lo);
    }
  }

  /** At every reachable baseline with at least ten scores, fewer than a fifth of the absorbed
      scores are both at least 30 and below the current adaptive threshold. */
  lemma FewScoresBelowThreshold(visits: seq<Visit>, std: real)
    requires visits != [] && After(visits).value.value.count >= 10 && IsStdOf(std, After(visits).value.value)
    ensures 5 * CountWithin(Segment(visits), 30.0, Threshold(After(visits).value.value, std)) < |Segment(visits)|
  {
    var b, xs := After(visits).value.value, Segment(visits);
    OnlineEqualsBatch(visits);
    VarianceIs(xs);
    Cantelli(xs, 30.0, std);
    if Threshold(b, std) == 30.0 {
      NothingWithin(xs, 30.0);
    }
  }

  function Lowest(xs: seq<real>): (lo: real)
    requires xs != []
    ensures forall x | x in xs :: lo <= x
  {
    var x := xs[|xs| - 1];
    if |xs| == 1 then x
    else
      assert xs == xs[..|xs| - 1] + [x];
      var rest := Lowest(xs[..|xs| - 1]);
      if x <= rest then x else rest
  }

  lemma MeanAtMost(xs: seq<real>, hi: real)
    requires xs != [] && forall x | x in xs :: x <= hi
    ensures Mean(xs) <= hi
  {
    var lo := Lowest(xs);
    MeanBounds(xs, lo, hi);
  }

  /** A passing score that is the device's best of the segment is never below the threshold it
      helped to set. */
  lemma BestScoreNeverBlocked(visits: seq<Visit>, std: real)
    requires visits != [] && IsStdOf(std, After(visits).value.value)
    requires
      var best := visits[|visits| - 1].score;
      best >= 50.0 && forall x | x in Segment(visits) :: x <= best
    ensures visits[|visits| - 1].score >= Threshold(After(visits).value.value, std)
  {
    OnlineEqualsBatch(visits);
    var xs, best := Segment(visits), visits[|visits| - 1].score;
    MeanAtMost(xs, best);
  }

  // The threshold in terms of the scores themselves.

  lemma OneScore(xs: seq<real>)
    requires |xs| == 1
    ensures Variance(xs) == 0.0
  {
    assert Sum(xs) == xs[0] && Mean(xs) == xs[0];
    DeviationLast(xs, 0, xs[0]);
    assert xs[..0] == [] && Deviation([], xs[0]) == 0.0;
  }

  lemma ZeroSquare(x: real)
    ensures Square(x) == 0.0 <==> x == 0.0
  {
    if x != 0.0 { NonZeroSquare(x); }
  }

  /** The deviation the worker takes is the population standard deviation of the segment. */
  lemma StdIsTheSegments(visits: seq<Visit>, std: real)
    requires visits != []
    ensures Segment(visits) != []
    ensures IsStdOf(std, After(visits).value.value) <==> std >= 0.0 && Square(std) == Variance(Segment(visits))
  {
    OnlineEqualsBatch(visits);
    var xs := Segment(visits);
    VarianceIs(xs);
    hide Deviation, Mean, Variance, After, Segment;
    if |xs| == 1 {
      OneScore(xs);
      ZeroSquare(std);
    }
  }

  /** Exactly which scores are below the threshold: with fewer than ten scores in the segment, those
      below 50; from ten on, those below 30 and those more than two deviations below the mean. */
  lemma BelowThresholdExactlyWhen(visits: seq<Visit>, std: real, score: real)
    requires visits != []
    ensures Segment(visits) != []
    ensures score < Threshold(After(visits).value.value, std)
       <==> if |Segment(visits)| < 10 then score < 50.0
            else score < 30.0 || score < Mean(Segment(visits)) - 2.0 * std
  {
    OnlineEqualsBatch(visits);
    hide Deviation, Mean, After, Segment;
  }

  /** A score extends the segment exactly up to seven days after the one before it; later, the
      segment starts anew. */
  lemma SegmentExtends(visits: seq<Visit>, v: Visit)
    ensures Segment(visits + [v])
         == (if visits != [] && v.at <= visits[|visits| - 1].at + 604800000 then Segment(visits) else []) + [v.score]
  {
    assert (visits + [v])[..|visits|] == visits;
  }
}
