/** The worker that analyses one queued signal: two circuit breakers, the device's baseline, the
    adaptive threshold, and the block. Each analysis is one atomic step here. */
module Worker {
  import opened RedisStore
  import opened Algebra
  import opened Baseline
  import opened Series
  import opened Tokens
  import Percentile
  import Trust
  import KillSwitch
  import KillSwitchRuns

  datatype AuditRow = AuditRow(user: string, device: string, threat: string, signal: nat)

  /** What a score is computed from: the signal, the history read for it, the deviations taken of
      the two magnitude series, and the touch entropy. */
  datatype Reading = Reading(
    current: Trust.Payload,
    history: seq<Trust.Payload>,
    accelStd: real,
    gyroStd: real,
    touchEntropy: real)

  predicate Measured(r: Reading)
  {
    && Trust.IsStd(r.accelStd, Trust.AccelSeries(r.current, r.history))
    && Trust.IsStd(r.gyroStd, Trust.GyroSeries(r.current, r.history))
    && 0.0 <= r.touchEntropy <= 1.0
  }

  function ScoreOf(r: Reading): (score: nat)
    requires Measured(r)
    ensures 7 <= score <= 100
  {
    Trust.ScoreRange(r.current, r.history, r.accelStd, r.gyroStd, r.touchEntropy);
    Trust.Score(r.current, r.history, r.accelStd, r.gyroStd, r.touchEntropy)
  }

  /** Decimal digits of a score. */
  function Decimal(n: nat): (s: string)
    ensures s != ""
  {
    if n < 10 then [n as char + '0'] else Decimal(n / 10) + [(n % 10) as char + '0']
  }

  function DigitsValue(s: string): nat
    requires forall i | 0 <= i < |s| :: '0' <= s[i] <= '9'
  {
    if s == "" then 0 else 10 * DigitsValue(s[..|s| - 1]) + (s[|s| - 1] - '0') as nat
  }

  /** The digits read back as the score. */
  lemma {:induction false} DecimalReadsBack(n: nat)
    ensures forall i | 0 <= i < |Decimal(n)| :: '0' <= Decimal(n)[i] <= '9'
    ensures DigitsValue(Decimal(n)) == n
  {
    if n < 10 {
      assert Decimal(n)[..0] == "";
    } else {
      DecimalReadsBack(n / 10);
      assert Decimal(n)[..|Decimal(n)| - 1] == Decimal(n / 10);
    }
  }

  function ScoreMessage(device: string, score: nat): string
  {
    KillSwitch.BlockMessage(device, "score:" + Decimal(score))
  }

  /** What a block does to the shared store. */
  function BlockEffect(db: Db, user: string, device: string, score: nat): Db
  {
    var flagged := WithText(RevokeEffect(db, user, device, true), RevokedKey(device), "1", 3600);
    Published(flagged, ScoreMessage(device, score))
  }

  /** The newest runtimes, at most 200 of them: the list is newest first. */
  function Recent(runtimes: seq<int>): (r: seq<int>)
    ensures r <= runtimes && |r| == if |runtimes| < 200 then |runtimes| else 200
  {
    if |runtimes| > 200 then runtimes[..200] else runtimes
  }

  /** The newest hundred scores, the newest first. */
  function Capped(scores: seq<nat>): (r: seq<nat>)
    ensures r <= scores && |r| == if |scores| < 100 then |scores| else 100
  {
    if |scores| > Trust.MAX_HISTORY then scores[..Trust.MAX_HISTORY] else scores
  }

  method WelfordUpdate(seen: Stats, score: real) returns (stats: Stats)
    ensures stats == Absorb(seen, score)
  {
    var mean, m2, count := seen.mean, seen.m2, seen.count;
    ghost var next := Absorb(seen, score);
    count := count + 1;
    var delta := score - mean;
    mean := mean + delta / (count as real);
    assert count == next.count && mean == next.mean;
    m2 := m2 + delta * (score - mean);
    assert m2 == next.m2;
    stats := Stats(mean, m2, count);
  }

  /** What the worker's comparison means for the scores of the segment. */
  lemma JudgedBySegment(visits: seq<Visit>, stats: Stats, std: real, score: nat)
    requires visits != [] && After(visits).Some? && After(visits).value.value == stats && IsStdOf(std, stats)
    ensures
      var xs, low := Segment(visits), score as real < Threshold(stats, std);
      && xs != [] && std >= 0.0 && Square(std) == Variance(xs)
      && (|xs| < 10 ==> (low <==> score < 50))
      && (|xs| >= 10 ==> (low <==> score < 30 || score as real < Mean(xs) - 2.0 * std))
  {
    StdIsTheSegments(visits, std);
    BelowThresholdExactlyWhen(visits, std, score as real);
    hide *;
  }

  /** The order of a block: the revocation, the flag once more, and the score message last. */
  function BlockJournal(device: string, score: nat): seq<Command>
  {
    RevokeJournal(device, true)
    + [Wrote("revoked:device:" + device), Announced("block:" + device + ":score:" + Decimal(score))]
  }

  class AnalysisWorker {
    const tokens: TokenService
    const redis: Redis
    var baselines: map<string, Timed<Stats>>
    var decisions: map<string, Timed<nat>>
    var trustHistory: map<string, seq<nat>>
    var audit: seq<AuditRow>
    /** The scores absorbed for each device so far. */
    ghost var visits: map<string, seq<Visit>>

    ghost function VisitsOf(device: string): seq<Visit>
      reads this`visits
    {
      if device in visits then visits[device] else []
    }

    function HistoryOf(device: string): seq<nat>
      reads this`trustHistory
    {
      if device in trustHistory then trustHistory[device] else []
    }

    function Stored(device: string): Option<Timed<Stats>>
      reads this`baselines
    {
      if device in baselines then Some(baselines[device]) else None
    }

    /** Every baseline is the one its device's scores lead to, and those were all trust scores. */
    ghost predicate Valid()
      reads this`baselines, this`visits
    {
      && redis == tokens.redis
      && (forall d :: Stored(d) == After(VisitsOf(d)))
      && (forall d, v | v in VisitsOf(d) :: 7.0 <= v.score <= 100.0)
    }

    constructor (tokens: TokenService)
      ensures Valid() && this.tokens == tokens && audit == [] && visits == map[]
    {
      this.tokens, this.redis := tokens, tokens.redis;
      baselines, decisions, trustHistory, audit, visits := map[], map[], map[], [], map[];
    }

    /** The two breakers: too deep a queue, or more than a twentieth of the recent runtimes above
        500 ms while an earlier decision on the device still stands. */
    method Breaker(device: string, queueDepth: nat, runtimes: seq<int>) returns (broken: bool)
      ensures
        var samples := Percentile.NonNegative(runtimes);
        broken <==> queueDepth > 1000
                    || (Percentile.CountAbove(samples, 500) > |samples| / 20 && Live(decisions, device, redis.now))
    {
      if queueDepth > 1000 {
        return true;
      }
      var p95 := Percentile.RuntimeP95(runtimes);
      broken := p95.Some? && p95.value > 500 && Live(decisions, device, redis.now);
    }

    /** The decision stands for five minutes; the history keeps the newest hundred scores. */
    method Record(device: string, score: nat)
      modifies this`decisions, this`trustHistory
      ensures decisions == old(decisions)[device := Timed(score, Some(redis.now + 300 * 1000))]
      ensures trustHistory == old(trustHistory)[device := Capped([score] + old(HistoryOf(device)))]
    {
      decisions := decisions[device := Timed(score, Some(redis.now + 300 * 1000))];
      var pushed := [score] + HistoryOf(device);
      trustHistory := trustHistory[device := Capped(pushed)];
    }

    /** The block of a low score: the audit row, the revocation, the flag and the message. */
    method Block(user: string, device: string, signal: nat, score: nat, slots: seq<set<string>>)
      requires redis == tokens.redis && ScanContract(redis.Snapshot(), slots)
      modifies this`audit, redis
      ensures redis.Snapshot() == BlockEffect(old(redis.Snapshot()), user, device, score)
      ensures redis.journal == old(redis.journal) + BlockJournal(device, score)
      ensures redis.now == old(redis.now)
      ensures audit == old(audit) + [AuditRow(user, device, if score < 20 then "high" else "medium", signal)]
    {
      audit := audit + [AuditRow(user, device, if score < 20 then "high" else "medium", signal)];
      tokens.RevokeAndBlock(user, device, true, slots);
      var _ := redis.Set(RevokedKey(device), "1", 3600);
      redis.Publish(ScoreMessage(device, score));
      assert ScoreMessage(device, score) == "block:" + device + ":score:" + Decimal(score);
      assert redis.journal == old(redis.journal) + RevokeJournal(device, true)
                              + [Wrote(RevokedKey(device)), Announced(ScoreMessage(device, score))];
    }

    /** Records the decision on a score, and blocks on a low one. */
    method Decide(user: string, device: string, signal: nat, score: nat, low: bool, slots: seq<set<string>>)
      requires redis == tokens.redis && (low ==> ScanContract(redis.Snapshot(), slots))
      modifies this`decisions, this`trustHistory, this`audit, redis
      ensures redis.now == old(redis.now)
      ensures decisions == old(decisions)[device := Timed(score, Some(redis.now + 300 * 1000))]
      ensures trustHistory == old(trustHistory)[device := Capped([score] + old(HistoryOf(device)))]
      ensures redis.Snapshot() == if low then BlockEffect(old(redis.Snapshot()), user, device, score)
                                  else old(redis.Snapshot())
      ensures redis.journal == old(redis.journal) + if low then BlockJournal(device, score) else []
      ensures
        var row := AuditRow(user, device, if score < 20 then "high" else "medium", signal);
        audit == if low then old(audit) + [row] else old(audit)
    {
      hide Capped, BlockEffect, ScanContract;
      Record(device, score);
      if low {
        Block(user, device, signal, score, slots);
      }
    }

    /** Rewrites the device's baseline in place, one Welford step, and keeps it another week. */
    method AbsorbScore(device: string, score: real) returns (stats: Stats)
      requires Valid() && 7.0 <= score <= 100.0
      modifies this`baselines, this`visits
      ensures Valid()
      ensures visits == old(visits)[device := old(VisitsOf(device)) + [Visit(redis.now, score)]]
      ensures baselines == old(baselines)[device := Timed(stats, Some(redis.now + WEEK))]
      ensures stats == Absorb(Seen(old(Stored(device)), redis.now), score)
      ensures redis == tokens.redis && Stored(device) == After(VisitsOf(device))
    {
      hide Absorb, After, Seen;
      stats := WelfordUpdate(Seen(Stored(device), redis.now), score);
      AfterAppend(VisitsOf(device), Visit(redis.now, score));
      visits := visits[device := VisitsOf(device) + [Visit(redis.now, score)]];
      baselines := baselines[device := Timed(stats, Some(redis.now + WEEK))];
      forall d
        ensures Stored(d) == After(VisitsOf(d)) && forall v | v in VisitsOf(d) :: 7.0 <= v.score <= 100.0
      {
        assert d != device ==> Stored(d) == old(Stored(d)) && VisitsOf(d) == old(VisitsOf(d));
      }
    }

    /** The score, once absorbed, is below the device's threshold. */
    predicate IsLow(device: string, score: nat, std: real)
      reads this`baselines, redis
    {
      score as real < Threshold(Absorb(Seen(Stored(device), redis.now), score as real), std)
    }

    /** Analyses one signal; `std` is the square root the worker takes of the updated baseline,
        and `runtimes` are the recent runtimes it reads. */
    method AnalyzeSignal(user: string, device: string, signal: nat, reading: Reading, std: real,
                         queueDepth: nat, runtimes: seq<int>, slots: seq<set<string>>)
      returns (score: nat, analysed: bool, blocked: bool)
      requires Valid() && Measured(reading)
      requires IsLow(device, ScoreOf(reading), std) ==> ScanContract(redis.Snapshot(), slots)
      requires IsStdOf(std, Absorb(Seen(Stored(device), redis.now), ScoreOf(reading) as real))
      modifies this, redis
      ensures Valid()
      ensures
        var r := reading;
        score == Trust.Score(r.current, r.history, r.accelStd, r.gyroStd, r.touchEntropy)
      ensures
        var samples := Percentile.NonNegative(Recent(runtimes));
        analysed <==> !(queueDepth > 1000
                        || (Percentile.CountAbove(samples, 500) > |samples| / 20
                            && Live(old(decisions), device, old(redis.now))))
      ensures !analysed ==> !blocked && visits == old(visits) && audit == old(audit) && decisions == old(decisions)
      ensures
        var visit := Visit(old(redis.now), score as real);
        analysed ==> visits == old(visits)[device := old(VisitsOf(device)) + [visit]]
      ensures redis.now == old(redis.now)
      ensures analysed ==> decisions == old(decisions)[device := Timed(score, Some(redis.now + 300 * 1000))]
      ensures analysed ==> blocked == ((score as real) < Threshold(After(VisitsOf(device)).value.value, std))
      ensures
        var xs := Segment(VisitsOf(device));
        analysed ==>
          && xs != [] && std >= 0.0 && Square(std) == Variance(xs)
          && (|xs| < 10 ==> (blocked <==> score < 50))
          && (|xs| >= 10 ==> (blocked <==> score < 30 || score as real < Mean(xs) - 2.0 * std))
      ensures !analysed ==> trustHistory == old(trustHistory)
      ensures analysed ==> trustHistory == old(trustHistory)[device := Capped([score] + old(HistoryOf(device)))]
      ensures redis.Snapshot() == if blocked then BlockEffect(old(redis.Snapshot()), user, device, score)
                                  else old(redis.Snapshot())
      ensures redis.journal == old(redis.journal) + if blocked then BlockJournal(device, score) else []
      ensures
        var row := AuditRow(user, device, if score < 20 then "high" else "medium", signal);
        audit == if blocked then old(audit) + [row] else old(audit)
    {
      hide Segment, Mean, Variance, Square, Measured, Absorb, After, Seen, Threshold, IsStdOf, Capped;
      hide BlockEffect, Recent;
      hide Percentile.NonNegative, Percentile.CountAbove, ScanContract, Live, Valid;
      score, analysed, blocked := ScoreOf(reading), false, false;
      hide Trust.Score;
      var broken := Breaker(device, queueDepth, Recent(runtimes));
      if broken {
        return;
      }
      analysed := true;
      var stats := AbsorbScore(device, score as real);
      blocked := score as real < Threshold(stats, std);
      JudgedBySegment(VisitsOf(device), stats, std, score);
      Decide(user, device, signal, score, blocked, slots);
    }
  }

  /** A block publishes and flags in the order of the delivery model's worker program, and the flag is
      live afterwards. */
  lemma BlockFollowsWorkerOps(db: Db, user: string, device: string, score: nat)
    ensures KillSwitchRuns.OpsOf(BlockJournal(device, score)) == KillSwitchRuns.WorkerOps(device, Decimal(score))
    ensures
      var done := BlockEffect(db, user, device, score);
      Live(done.texts, "force_overlay:" + device, done.now)
  {
    var last := [Wrote("revoked:device:" + device), Announced("block:" + device + ":score:" + Decimal(score))];
    KillSwitchRuns.RevokeFollowsOps(device);
    KillSwitchRuns.OpsOfConcat(RevokeJournal(device, true), last);
    assert RevokedKey(device) == "revoked:device:" + device;
    assert ("revoked:device:" + device)[0] == 'r' && "force_overlay:"[0] == 'f';
    KillSwitchRuns.OpsOfTwo("revoked:device:" + device, "block:" + device + ":score:" + Decimal(score));
    assert "block:" + device + ":score:" + Decimal(score) == KillSwitch.BlockMessage(device, "score:" + Decimal(score));
    assert OverlayKey(device) == "force_overlay:" + device;
    assert OverlayKey(device)[0] == 'f' && RevokedKey(device)[0] == 'r';
    hide KillSwitchRuns.OpsOf;
  }
}
