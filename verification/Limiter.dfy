/** The fixed-window limiter: count a request, start the window on the first one, admit while
    the count is within the limit. The same three commands guard plans, refresh attempts and
    both WebSocket endpoints. */
module Limiter {
  import opened RedisStore

  function RateCheck(db: Db, key: string, limit: int, window: int): (Db, bool)
  {
    var (counted, current) := Incremented(db, key);
    (if current == 1 then Expiring(counted, key, window) else counted, current <= limit)
  }

  method CheckRateLimit(redis: Redis, key: string, limit: int, window: int) returns (allowed: bool)
    modifies redis`counts
    ensures (redis.Snapshot(), allowed) == RateCheck(old(redis.Snapshot()), key, limit, window)
  {
    var current := redis.Incr(key);
    if current == 1 {
      redis.Expire(key, window);
    }
    allowed := current <= limit;
  }

  // Requests at await granularity: INCR and EXPIRE are separate steps, and anything may
  // happen between them.

  datatype Hit = Hit(at: int, epoch: nat, admitted: bool)

  /** The server, whether the request that saw count 1 has yet to run its EXPIRE, and the
      history: when each counter was started, and every request with the counter it hit. */
  datatype State = State(db: Db, awaiting: bool, starts: seq<int>, hits: seq<Hit>)

  datatype Step = Request | SetExpiry | Elsewhere(db: Db)

  datatype Rule = Rule(key: string, limit: nat, window: int)

  ghost predicate Enabled(r: Rule, s: State, e: Step)
  {
    match e
    case Request => true
    case SetExpiry => s.awaiting
    case Elsewhere(db) =>
      && s.db.now <= db.now
      && (r.key in db.counts <==> r.key in s.db.counts)
      && (r.key in db.counts ==> db.counts[r.key] == s.db.counts[r.key])
  }

  function Next(r: Rule, s: State, e: Step): State
  {
    match e
    case Request =>
      var (db, current) := Incremented(s.db, r.key);
      var starts := if current == 1 then s.starts + [s.db.now] else s.starts;
      State(db, s.awaiting || current == 1, starts,
            s.hits + [Hit(s.db.now, if starts == [] then 0 else |starts| - 1, current <= r.limit)])
    case SetExpiry => s.(db := Expiring(s.db, r.key, r.window), awaiting := false)
    case Elsewhere(db) => s.(db := db)
  }

  ghost predicate Run(r: Rule, s: State, steps: seq<Step>, t: State)
    decreases |steps|
  {
    if steps == [] then s == t
    else Enabled(r, s, steps[0]) && Run(r, Next(r, s, steps[0]), steps[1..], t)
  }

  ghost predicate Initial(r: Rule, s: State)
  {
    r.key !in s.db.counts && !s.awaiting && s.starts == [] && s.hits == []
  }

  /** One whole check is a request step, followed by its expiry step when it opened a window. */
  lemma CheckIsRequestThenExpiry(r: Rule, s: State)
    requires !s.awaiting
    ensures
      var one := Next(r, s, Request);
      var done := if one.awaiting then Next(r, one, SetExpiry) else one;
      && RateCheck(s.db, r.key, r.limit, r.window) == (done.db, done.hits[|done.hits| - 1].admitted)
      && Run(r, s, if one.awaiting then [Request, SetExpiry] else [Request], done)
  {
    var one := Next(r, s, Request);
    assert Run(r, one, [], one);
    assert [Request, SetExpiry][1..] == [SetExpiry] && [Request][1..] == [] && [SetExpiry][1..] == [];
    if one.awaiting {
      var two := Next(r, one, SetExpiry);
      assert Run(r, two, [], two);
      assert Run(r, one, [SetExpiry], two);
    }
  }

  lemma {:induction false} RunConcat(r: Rule, s: State, a: seq<Step>, m: State, b: seq<Step>, t: State)
    requires Run(r, s, a, m) && Run(r, m, b, t)
    ensures Run(r, s, a + b, t)
    decreases |a|
  {
    if a == [] {
      assert a + b == b;
    } else {
      assert (a + b)[1..] == a[1..] + b;
      RunConcat(r, Next(r, s, a[0]), a[1..], m, b, t);
    }
  }

  function AdmittedIn(hits: seq<Hit>, epoch: nat): nat
  {
    if hits == [] then 0
    else
      var h := hits[|hits| - 1];
      AdmittedIn(hits[..|hits| - 1], epoch) + if h.admitted && h.epoch == epoch then 1 else 0
  }

  /** Requests admitted in the half-open interval [from, to). */
  function AdmittedDuring(hits: seq<Hit>, from: int, to: int): nat
  {
    if hits == [] then 0
    else
      var h := hits[|hits| - 1];
      AdmittedDuring(hits[..|hits| - 1], from, to) + if h.admitted && from <= h.at < to then 1 else 0
  }

  /** What the live counter says about the latest epoch. */
  ghost predicate CounterOk(r: Rule, s: State)
  {
    var n := |s.starts|;
    if r.key !in s.db.counts then n == 0 && s.hits == [] && !s.awaiting
    else
      var c := s.db.counts[r.key];
      && n > 0 && c.value >= 1 && s.starts[n - 1] <= s.db.now
      && AdmittedIn(s.hits, n - 1) <= c.value
      && (c.deadline.None? <==> s.awaiting)
      && (c.deadline.Some? ==> s.starts[n - 1] + r.window * 1000 <= c.deadline.value)
      && (c.deadline.Some? ==> forall h | h in s.hits :: h.at <= c.deadline.value)
  }

  ghost predicate Spaced(window: int, starts: seq<int>)
  {
    forall e, f | 0 <= e < f < |starts| :: starts[e] + window * 1000 < starts[f]
  }

  ghost predicate WithinLimits(limit: nat, hits: seq<Hit>, n: nat)
  {
    forall e: nat | e < n :: AdmittedIn(hits, e) <= limit
  }

  /** A hit falls in its own epoch, before the next one starts. */
  predicate HitOk(s: State, h: Hit)
  {
    && h.epoch < |s.starts| && s.starts[h.epoch] <= h.at <= s.db.now
    && (h.epoch + 1 < |s.starts| ==> h.at < s.starts[h.epoch + 1])
  }

  ghost predicate HitsOk(s: State)
  {
    forall h | h in s.hits :: HitOk(s, h)
  }

  /** The request that starts a counter is admitted. */
  predicate OpenersOk(s: State)
  {
    forall e: nat | e < |s.starts| :: Hit(s.starts[e], e, true) in s.hits
  }

  /** Counters start more than a window apart, each admits at most the limit, and each is gone
      before the next one starts. */
  ghost predicate Inv(r: Rule, s: State)
  {
    && CounterOk(r, s) && Spaced(r.window, s.starts) && WithinLimits(r.limit, s.hits, |s.starts|) && HitsOk(s)
    && (r.limit >= 1 ==> OpenersOk(s))
  }

  lemma {:induction false} NoneAdmittedIn(hits: seq<Hit>, epoch: nat)
    requires forall h | h in hits :: h.epoch < epoch
    ensures AdmittedIn(hits, epoch) == 0
  {
    if hits == [] {
    } else {
      NoneAdmittedIn(hits[..|hits| - 1], epoch);
    }
  }

  lemma AdmittedInAppend(hits: seq<Hit>, h: Hit, epoch: nat)
    ensures AdmittedIn(hits + [h], epoch)
         == AdmittedIn(hits, epoch) + if h.admitted && h.epoch == epoch then 1 else 0
  {
    assert (hits + [h])[..|hits|] == hits;
  }

  /** A counter that is gone ended a whole window after it started, and after all its hits. */
  lemma LapsedCounter(r: Rule, s: State)
    requires CounterOk(r, s) && !Live(s.db.counts, r.key, s.db.now)
    ensures !s.awaiting
    ensures forall g | g in s.hits :: g.at < s.db.now
    ensures s.starts != [] ==> s.starts[|s.starts| - 1] + r.window * 1000 < s.db.now
  {
  }

  lemma OpeningKeepsStarts(r: Rule, starts: seq<int>, now: int)
    requires Spaced(r.window, starts) && r.window > 0
    requires starts != [] ==> starts[|starts| - 1] + r.window * 1000 < now
    ensures Spaced(r.window, starts + [now])
  {
    var more := starts + [now];
    forall e, f | 0 <= e < f < |more|
      ensures more[e] + r.window * 1000 < more[f]
    {
      if f == |starts| && e < f - 1 {
        assert starts[e] + r.window * 1000 < starts[f - 1];
      }
    }
  }

  lemma AppendKeepsLimits(r: Rule, hits: seq<Hit>, h: Hit, n: nat)
    requires WithinLimits(r.limit, hits, n) && h.epoch < n
    requires h.admitted ==> AdmittedIn(hits, h.epoch) < r.limit
    ensures WithinLimits(r.limit, hits + [h], n)
  {
    forall e: nat | e < n
      ensures AdmittedIn(hits + [h], e) <= r.limit
    {
      AdmittedInAppend(hits, h, e);
      assert AdmittedIn(hits, e) <= r.limit;
    }
  }

  lemma OpeningKeepsLimits(r: Rule, hits: seq<Hit>, h: Hit, n: nat)
    requires WithinLimits(r.limit, hits, n) && h.epoch == n && (h.admitted ==> 1 <= r.limit)
    requires forall g | g in hits :: g.epoch < n
    ensures WithinLimits(r.limit, hits + [h], n + 1) && AdmittedIn(hits + [h], n) <= 1
  {
    NoneAdmittedIn(hits, n);
    AdmittedInAppend(hits, h, n);
    AppendKeepsLimits(r, hits, h, n + 1);
  }

  lemma OpeningKeepsHits(s: State, t: State, h: Hit)
    requires HitsOk(s) && (forall g | g in s.hits :: g.at < s.db.now)
    requires h.at == s.db.now == t.db.now && h.epoch == |s.starts|
    requires t.starts == s.starts + [s.db.now] && t.hits == s.hits + [h]
    ensures HitsOk(t)
  {
    forall g | g in t.hits
      ensures HitOk(t, g)
    {
      if g in s.hits {
        assert HitOk(s, g);
      }
    }
  }

  lemma OpeningKeepsOpeners(s: State, t: State, h: Hit)
    requires OpenersOk(s) && h == Hit(s.db.now, |s.starts|, true)
    requires t.starts == s.starts + [s.db.now] && t.hits == s.hits + [h]
    ensures OpenersOk(t)
  {
  }

  lemma OpeningKeepsCounter(r: Rule, s: State, t: State)
    requires !Live(s.db.counts, r.key, s.db.now) && t == Next(r, s, Request) && |t.starts| == |s.starts| + 1
    requires t.starts[|s.starts|] == s.db.now && AdmittedIn(t.hits, |s.starts|) <= 1
    ensures CounterOk(r, t)
  {
    hide AdmittedIn;
  }

  lemma OpeningStep(r: Rule, s: State)
    requires !Live(s.db.counts, r.key, s.db.now)
    ensures
      var t := Next(r, s, Request);
      && t.starts == s.starts + [s.db.now] && t.db.now == s.db.now
      && t.hits == s.hits + [Hit(s.db.now, |s.starts|, 1 <= r.limit)]
  {
  }

  lemma HitsBelow(s: State)
    requires HitsOk(s)
    ensures forall g | g in s.hits :: g.epoch < |s.starts|
  {
    assert forall g | g in s.hits :: HitOk(s, g);
  }

  /** A request that starts a new counter. */
  lemma OpeningKeepsInv(r: Rule, s: State)
    requires r.window > 0 && Inv(r, s) && !Live(s.db.counts, r.key, s.db.now)
    ensures Inv(r, Next(r, s, Request))
  {
    hide Next, CounterOk, AdmittedIn, Spaced, WithinLimits, HitsOk, HitOk, OpenersOk, Live;
    var t := Next(r, s, Request);
    var h := Hit(s.db.now, |s.starts|, 1 <= r.limit);
    OpeningStep(r, s);
    LapsedCounter(r, s);
    HitsBelow(s);
    OpeningKeepsStarts(r, s.starts, s.db.now);
    OpeningKeepsLimits(r, s.hits, h, |s.starts|);
    OpeningKeepsCounter(r, s, t);
    OpeningKeepsHits(s, t, h);
    if r.limit >= 1 {
      OpeningKeepsOpeners(s, t, h);
    }
  }

  lemma JoiningKeepsHits(s: State, t: State, h: Hit)
    requires HitsOk(s) && s.starts != [] && s.starts[|s.starts| - 1] <= s.db.now
    requires h.at == s.db.now == t.db.now && h.epoch == |s.starts| - 1
    requires t.starts == s.starts && t.hits == s.hits + [h]
    ensures HitsOk(t)
  {
    forall g | g in t.hits
      ensures HitOk(t, g)
    {
      if g in s.hits {
        assert HitOk(s, g);
      }
    }
  }

  lemma JoiningKeepsCounter(r: Rule, s: State, t: State, h: Hit)
    requires CounterOk(r, s) && Live(s.db.counts, r.key, s.db.now) && t == Next(r, s, Request)
    requires t.starts == s.starts && t.hits == s.hits + [h] && h.at == s.db.now && h.epoch == |s.starts| - 1
    ensures CounterOk(r, t)
  {
    AdmittedInAppend(s.hits, h, |s.starts| - 1);
    hide AdmittedIn;
  }

  /** A request that joins the live counter. */
  lemma JoiningKeepsInv(r: Rule, s: State)
    requires Inv(r, s) && Live(s.db.counts, r.key, s.db.now)
    ensures Inv(r, Next(r, s, Request))
  {
    var t := Next(r, s, Request);
    var c := s.db.counts[r.key].value + 1;
    var h := Hit(s.db.now, |s.starts| - 1, c <= r.limit);
    assert c > 1 && t.starts == s.starts && t.hits == s.hits + [h];
    JoiningKeepsHits(s, t, h);
    JoiningKeepsCounter(r, s, t, h);
    AppendKeepsLimits(r, s.hits, h, |s.starts|);
  }

  lemma InvStep(r: Rule, s: State, e: Step)
    requires r.window > 0 && Inv(r, s) && Enabled(r, s, e)
    ensures Inv(r, Next(r, s, e))
  {
    if e.Request? {
      if Live(s.db.counts, r.key, s.db.now) {
        JoiningKeepsInv(r, s);
      } else {
        OpeningKeepsInv(r, s);
      }
    }
  }

  lemma {:induction false} InvRun(r: Rule, s: State, steps: seq<Step>, t: State)
    requires r.window > 0 && Inv(r, s) && Run(r, s, steps, t)
    ensures Inv(r, t)
    decreases |steps|
  {
    if steps == [] {
    } else {
      InvStep(r, s, steps[0]);
      InvRun(r, Next(r, s, steps[0]), steps[1..], t);
    }
  }

  // From the invariant to the bound on any interval.

  /** Admitted in [from, to) by one of the counters lo, ..., hi - 1. */
  function AdmittedBy(hits: seq<Hit>, from: int, to: int, lo: nat, hi: nat): nat
  {
    if hits == [] then 0
    else
      var h := hits[|hits| - 1];
      AdmittedBy(hits[..|hits| - 1], from, to, lo, hi)
      + if h.admitted && from <= h.at < to && lo <= h.epoch < hi then 1 else 0
  }

  lemma {:induction false} OneMoreCounter(hits: seq<Hit>, from: int, to: int, lo: nat, hi: nat)
    requires lo <= hi
    ensures AdmittedBy(hits, from, to, lo, lo) == 0
    ensures AdmittedBy(hits, from, to, lo, hi + 1) <= AdmittedBy(hits, from, to, lo, hi) + AdmittedIn(hits, hi)
  {
    if hits == [] {
    } else {
      OneMoreCounter(hits[..|hits| - 1], from, to, lo, hi);
    }
  }

  lemma {:induction false} FewCounters(r: Rule, s: State, from: int, to: int, lo: nat, m: nat)
    requires WithinLimits(r.limit, s.hits, |s.starts|) && HitsOk(s)
    ensures AdmittedBy(s.hits, from, to, lo, lo + m) <= m * r.limit
  {
    OneMoreCounter(s.hits, from, to, lo, lo);
    if m == 0 {
    } else {
      FewCounters(r, s, from, to, lo, m - 1);
      OneMoreCounter(s.hits, from, to, lo, lo + m - 1);
      if lo + m - 1 >= |s.starts| {
        assert forall h | h in s.hits :: HitOk(s, h);
        NoneAdmittedIn(s.hits, lo + m - 1);
      }
      assert m * r.limit == (m - 1) * r.limit + r.limit;
    }
  }

  lemma {:induction false} OnlyThese(hits: seq<Hit>, from: int, to: int, lo: nat, hi: nat)
    requires forall h | h in hits && from <= h.at < to :: lo <= h.epoch < hi
    ensures AdmittedDuring(hits, from, to) == AdmittedBy(hits, from, to, lo, hi)
  {
    if hits == [] {
    } else {
      OnlyThese(hits[..|hits| - 1], from, to, lo, hi);
    }
  }

  /** The first counter whose successor starts after `from`. */
  function FirstAfter(starts: seq<int>, from: int, i: nat): (e: nat)
    requires i == 0 || i < |starts|
    requires forall j | 0 < j <= i && j < |starts| :: starts[j] <= from
    ensures e == 0 || e < |starts|
    ensures forall j | 0 < j <= e && j < |starts| :: starts[j] <= from
    ensures e + 1 < |starts| ==> from < starts[e + 1]
    decreases |starts| - i
  {
    if i + 1 >= |starts| || from < starts[i + 1] then i else FirstAfter(starts, from, i + 1)
  }

  lemma {:induction false} Spacing(window: int, starts: seq<int>, i: nat, d: nat)
    requires Spaced(window, starts) && i + d < |starts|
    ensures starts[i] + d * (window * 1000) <= starts[i + d]
  {
    if d == 0 {
    } else {
      Spacing(window, starts, i, d - 1);
      assert starts[i + d - 1] + window * 1000 < starts[i + d];
      assert d * (window * 1000) == (d - 1) * (window * 1000) + window * 1000;
    }
  }

  lemma MultiplyMonotone(a: nat, b: nat, c: nat)
    requires a <= b
    ensures a * c <= b * c
  {
  }

  /** The interval [from, to) is k windows long. */
  predicate Spans(window: int, from: int, to: int, k: nat)
  {
    to == from + k * (window * 1000)
  }

  /** A hit in the interval belongs to one of k + 1 counters. */
  lemma WithinReach(r: Rule, s: State, h: Hit, from: int, to: int, k: nat)
    requires r.window > 0 && Spaced(r.window, s.starts) && HitOk(s, h) && from <= h.at < to
    requires Spans(r.window, from, to, k)
    ensures FirstAfter(s.starts, from, 0) <= h.epoch < FirstAfter(s.starts, from, 0) + k + 1
  {
    var lo := FirstAfter(s.starts, from, 0);
    if h.epoch >= lo + k + 1 {
      var d := h.epoch - lo - 1;
      Spacing(r.window, s.starts, lo + 1, d);
      MultiplyMonotone(k, d, r.window * 1000);
    }
  }

  lemma {:induction false} EmptyInterval(hits: seq<Hit>, from: int, to: int)
    requires to <= from
    ensures AdmittedDuring(hits, from, to) == 0
  {
    if hits == [] {
    } else {
      EmptyInterval(hits[..|hits| - 1], from, to);
    }
  }

  lemma EmptyReach(k: nat, window: int)
    requires window <= 0
    ensures k * (window * 1000) <= 0
  {
  }

  /** The request that started a counter before the interval is admitted outside it. */
  lemma {:induction false} OpenerOutside(hits: seq<Hit>, from: int, to: int, e: nat, at: int)
    requires Hit(at, e, true) in hits && at < from
    ensures AdmittedBy(hits, from, to, e, e + 1) + 1 <= AdmittedIn(hits, e)
  {
    var n := |hits| - 1;
    if hits[n] == Hit(at, e, true) {
      OneMoreCounter(hits[..n], from, to, e, e);
    } else {
      assert hits == hits[..n] + [hits[n]];
      OpenerOutside(hits[..n], from, to, e, at);
    }
  }

  lemma {:induction false} SplitCounters(hits: seq<Hit>, from: int, to: int, lo: nat, mid: nat, hi: nat)
    requires lo <= mid <= hi
    ensures AdmittedBy(hits, from, to, lo, hi)
         == AdmittedBy(hits, from, to, lo, mid) + AdmittedBy(hits, from, to, mid, hi)
  {
    if hits == [] {
    } else {
      SplitCounters(hits[..|hits| - 1], from, to, lo, mid, hi);
    }
  }

  /** A hit in the interval, when the first counter it can belong to starts in the interval too. */
  lemma WithinShortReach(r: Rule, s: State, h: Hit, from: int, to: int, k: nat)
    requires r.window > 0 && Spaced(r.window, s.starts) && HitOk(s, h) && from <= h.at < to
    requires Spans(r.window, from, to, k)
    requires from <= s.starts[FirstAfter(s.starts, from, 0)]
    ensures FirstAfter(s.starts, from, 0) <= h.epoch < FirstAfter(s.starts, from, 0) + k
  {
    var lo := FirstAfter(s.starts, from, 0);
    WithinReach(r, s, h, from, to, k);
    if h.epoch == lo + k {
      Spacing(r.window, s.starts, lo, k);
    }
  }

  lemma OneMoreTimes(k: nat, limit: nat)
    ensures (k + 1) * limit == k * limit + limit && k * limit >= 0
  {
  }

  /** What an interval of k windows can admit at most: k + 1 times the limit, less the request that
      started the first counter. */
  function Most(limit: nat, k: nat): int
  {
    (k + 1) * limit - if limit == 0 then 0 else 1
  }

  lemma FirstReach(r: Rule, t: State, from: int, to: int, k: nat, lo: nat)
    requires r.window > 0 && Spaced(r.window, t.starts) && HitsOk(t)
    requires Spans(r.window, from, to, k) && lo == FirstAfter(t.starts, from, 0)
    ensures AdmittedDuring(t.hits, from, to) == AdmittedBy(t.hits, from, to, lo, lo + 1 + k)
  {
    hide HitOk, AdmittedDuring, AdmittedBy, Spans;
    forall h | h in t.hits && from <= h.at < to
      ensures lo <= h.epoch < lo + 1 + k
    {
      WithinReach(r, t, h, from, to, k);
    }
    OnlyThese(t.hits, from, to, lo, lo + 1 + k);
  }

  lemma ReachBound(r: Rule, t: State, from: int, to: int, k: nat)
    requires r.window > 0 && Spaced(r.window, t.starts) && WithinLimits(r.limit, t.hits, |t.starts|) && HitsOk(t)
    requires Spans(r.window, from, to, k)
    ensures AdmittedDuring(t.hits, from, to) <= (k + 1) * r.limit
  {
    var lo := FirstAfter(t.starts, from, 0);
    FirstReach(r, t, from, to, k, lo);
    FewCounters(r, t, from, to, lo, k + 1);
    hide *;
    assert lo + (k + 1) == lo + 1 + k;
  }

  lemma LateStartBound(r: Rule, t: State, from: int, to: int, k: nat)
    requires r.window > 0 && Spaced(r.window, t.starts) && WithinLimits(r.limit, t.hits, |t.starts|) && HitsOk(t)
    requires Spans(r.window, from, to, k) && t.starts != [] && from <= t.starts[FirstAfter(t.starts, from, 0)]
    ensures AdmittedDuring(t.hits, from, to) <= k * r.limit
  {
    var lo := FirstAfter(t.starts, from, 0);
    hide HitOk, AdmittedDuring, Spans;
    forall h | h in t.hits && from <= h.at < to
      ensures lo <= h.epoch < lo + k
    {
      WithinShortReach(r, t, h, from, to, k);
    }
    OnlyThese(t.hits, from, to, lo, lo + k);
    FewCounters(r, t, from, to, lo, k);
  }

  lemma OpenerUncounted(hits: seq<Hit>, from: int, to: int, lo: nat, hi: nat, at: int, limit: nat, rest: nat)
    requires lo < hi && Hit(at, lo, true) in hits && at < from && AdmittedIn(hits, lo) <= limit
    requires AdmittedBy(hits, from, to, lo + 1, hi) <= rest
    ensures AdmittedBy(hits, from, to, lo, hi) + 1 <= rest + limit
  {
    hide *;
    SplitCounters(hits, from, to, lo, lo + 1, hi);
    OpenerOutside(hits, from, to, lo, at);
  }

  lemma CounterAt(r: Rule, t: State, e: nat)
    requires WithinLimits(r.limit, t.hits, |t.starts|) && OpenersOk(t) && e < |t.starts|
    ensures Hit(t.starts[e], e, true) in t.hits && AdmittedIn(t.hits, e) <= r.limit
  {
  }

  lemma EarlyStartBound(r: Rule, t: State, from: int, to: int, k: nat)
    requires r.window > 0 && Spaced(r.window, t.starts) && WithinLimits(r.limit, t.hits, |t.starts|) && HitsOk(t)
    requires Spans(r.window, from, to, k) && t.starts != [] && t.starts[FirstAfter(t.starts, from, 0)] < from
    requires OpenersOk(t)
    ensures AdmittedDuring(t.hits, from, to) + 1 <= k * r.limit + r.limit
  {
    hide Spans, AdmittedBy, AdmittedDuring, AdmittedIn, Spaced, HitsOk, WithinLimits, OpenersOk;
    var lo := FirstAfter(t.starts, from, 0);
    FirstReach(r, t, from, to, k, lo);
    FewCounters(r, t, from, to, lo + 1, k);
    CounterAt(r, t, lo);
    OpenerUncounted(t.hits, from, to, lo, lo + 1 + k, t.starts[lo], r.limit, k * r.limit);
  }

  lemma {:induction false} NoneAdmitted(hits: seq<Hit>, from: int, to: int)
    requires forall h | h in hits :: !h.admitted
    ensures AdmittedDuring(hits, from, to) == 0
  {
    if hits == [] {
    } else {
      NoneAdmitted(hits[..|hits| - 1], from, to);
    }
  }

  lemma HitsHaveStarts(t: State)
    requires HitsOk(t) && t.hits != []
    ensures t.starts != []
  {
    assert HitOk(t, t.hits[0]);
  }

  lemma InvBound(r: Rule, t: State, from: int, to: int, k: nat)
    requires r.window > 0 && Inv(r, t) && Spans(r.window, from, to, k)
    ensures AdmittedDuring(t.hits, from, to) <= Most(r.limit, k)
  {
    hide Spans, CounterOk, AdmittedDuring, AdmittedIn, Spaced, WithinLimits, HitsOk, OpenersOk;
    OneMoreTimes(k, r.limit);
    if r.limit == 0 {
      ReachBound(r, t, from, to, k);
    } else if t.hits == [] {
      NoneAdmitted(t.hits, from, to);
    } else {
      HitsHaveStarts(t);
      if from <= t.starts[FirstAfter(t.starts, from, 0)] {
        LateStartBound(r, t, from, to, k);
      } else {
        EarlyStartBound(r, t, from, to, k);
      }
    }
  }

  /** In any run, however requests interleave, an interval of k windows admits at most k + 1 times
      the limit, less one. */
  lemma FixedWindowBound(r: Rule, s: State, steps: seq<Step>, t: State, from: int, k: nat)
    requires Initial(r, s) && Run(r, s, steps, t)
    ensures AdmittedDuring(t.hits, from, from + k * (r.window * 1000)) <= Most(r.limit, k)
  {
    var to := from + k * (r.window * 1000);
    if r.window > 0 {
      assert Inv(r, s);
      InvRun(r, s, steps, t);
      assert Spans(r.window, from, to, k);
      hide *;
      InvBound(r, t, from, to, k);
    } else {
      EmptyReach(k, r.window);
      EmptyInterval(t.hits, from, to);
      OneMoreTimes(k, r.limit);
    }
  }

  // A run that attains the bound.

  /** A live counter with a deadline, whose holder has seen `count` requests. */
  predicate Counting(r: Rule, s: State, count: nat, deadline: int)
  {
    && r.key in s.db.counts && s.db.counts[r.key] == Timed(count, Some(deadline))
    && !s.awaiting && s.starts != []
  }

  /** A later moment, nothing else having happened. */
  function Later(s: State, at: nat): State
  {
    s.(db := s.db.(now := at))
  }

  lemma Waited(r: Rule, s: State, at: nat) returns (steps: seq<Step>)
    requires s.db.now <= at
    ensures Run(r, s, steps, Later(s, at))
  {
    steps := [Elsewhere(s.db.(now := at))];
    assert Run(r, Later(s, at), [], Later(s, at)) && steps[1..] == [];
  }

  lemma HitAppended(hits: seq<Hit>, h: Hit, from: int, to: int)
    ensures AdmittedDuring(hits + [h], from, to)
         == AdmittedDuring(hits, from, to) + if h.admitted && from <= h.at < to then 1 else 0
  {
    assert (hits + [h])[..|hits|] == hits;
  }

  /** n more requests on a live counter with room for them. */
  lemma {:induction false} Filled(r: Rule, s: State, count: nat, deadline: int, n: nat, from: int, to: int)
    returns (steps: seq<Step>, t: State)
    requires Counting(r, s, count, deadline) && s.db.now <= deadline && 1 <= count && count + n <= r.limit
    ensures Run(r, s, steps, t) && Counting(r, t, count + n, deadline) && t.db.now == s.db.now
    ensures AdmittedDuring(t.hits, from, to)
         == AdmittedDuring(s.hits, from, to) + if from <= s.db.now < to then n else 0
    decreases n
  {
    if n == 0 {
      steps, t := [], s;
    } else {
      var u := Next(r, s, Request);
      HitAppended(s.hits, u.hits[|s.hits|], from, to);
      hide AdmittedDuring;
      steps, t := Filled(r, u, count + 1, deadline, n - 1, from, to);
      steps := [Request] + steps;
      assert steps[1..] == steps[1..] && Run(r, u, steps[1..], t);
    }
  }

  /** A new counter is started: one request, and its expiry. */
  lemma Started(r: Rule, s: State, from: int, to: int) returns (steps: seq<Step>, t: State)
    requires r.window > 0 && r.limit >= 1 && !Live(s.db.counts, r.key, s.db.now) && !s.awaiting
    ensures Run(r, s, steps, t) && Counting(r, t, 1, s.db.now + r.window * 1000) && t.db.now == s.db.now
    ensures AdmittedDuring(t.hits, from, to)
         == AdmittedDuring(s.hits, from, to) + if from <= s.db.now < to then 1 else 0
  {
    var u := Next(r, s, Request);
    t := Next(r, u, SetExpiry);
    HitAppended(s.hits, u.hits[|s.hits|], from, to);
    hide AdmittedDuring;
    steps := [Request, SetExpiry];
    assert Run(r, t, [], t) && [SetExpiry][1..] == [];
    assert Run(r, u, [SetExpiry], t) && steps[1..] == [SetExpiry];
  }

  /** A whole window at once: as soon as the last counter is gone, as many requests as the limit. */
  lemma WholeWindow(r: Rule, s: State, count: nat, deadline: nat, from: int, to: int)
    returns (steps: seq<Step>, t: State)
    requires r.window > 0 && r.limit >= 1 && Counting(r, s, count, deadline) && s.db.now <= deadline
    requires from <= deadline + 1 < to
    ensures Run(r, s, steps, t) && Counting(r, t, r.limit, deadline + 1 + r.window * 1000) && t.db.now == deadline + 1
    ensures AdmittedDuring(t.hits, from, to) == AdmittedDuring(s.hits, from, to) + r.limit
  {
    var a := Waited(r, s, deadline + 1);
    var u := Later(s, deadline + 1);
    var b, v := Started(r, u, from, to);
    var c;
    c, t := Filled(r, v, 1, deadline + 1 + r.window * 1000, r.limit - 1, from, to);
    hide Run, AdmittedDuring, Counting;
    RunConcat(r, s, a, u, b, v);
    RunConcat(r, s, a + b, v, c, t);
    steps := a + b + c;
  }

  /** j whole windows in a row, all within the interval. */
  lemma {:induction false} WholeWindows(r: Rule, s: State, count: nat, deadline: nat, from: int, to: int, j: nat)
    returns (steps: seq<Step>, t: State, count': nat, deadline': nat)
    requires r.window > 0 && r.limit >= 1 && Counting(r, s, count, deadline) && s.db.now <= deadline
    requires from <= deadline + 1
    requires j == 0 || deadline + 1 + (j - 1) * (r.window * 1000 + 1) < to
    ensures Run(r, s, steps, t) && Counting(r, t, count', deadline') && t.db.now <= deadline'
    ensures deadline' == deadline + j * (r.window * 1000 + 1)
    ensures AdmittedDuring(t.hits, from, to) == AdmittedDuring(s.hits, from, to) + j * r.limit
  {
    if j == 0 {
      steps, t, count', deadline' := [], s, count, deadline;
    } else {
      var step := r.window * 1000 + 1;
      assert j * step == (j - 1) * step + step && j * r.limit == (j - 1) * r.limit + r.limit;
      var a, u;
      a, u, count', deadline' := WholeWindows(r, s, count, deadline, from, to, j - 1);
      var b;
      b, t := WholeWindow(r, u, count', deadline', from, to);
      RunConcat(r, s, a, u, b, t);
      steps, count', deadline' := a + b, r.limit, deadline' + step;
    }
  }

  lemma EmptyHits(from: int, to: int)
    ensures AdmittedDuring([], from, to) == 0
  {
  }

  /** The first counter is filled at its last millisecond, which begins the interval. */
  lemma LateFill(r: Rule, s: State, from: nat, to: int) returns (steps: seq<Step>, t: State)
    requires r.window > 0 && r.limit >= 1 && from == r.window * 1000 && from < to
    requires s == State(Db(0, map[], map[], []), false, [], [])
    ensures Run(r, s, steps, t) && Counting(r, t, r.limit, from) && t.db.now == from
    ensures AdmittedDuring(t.hits, from, to) == r.limit - 1
  {
    var a, u := Started(r, s, from, to);
    var b := Waited(r, u, from);
    var v := Later(u, from);
    var c;
    c, t := Filled(r, v, 1, from, r.limit - 1, from, to);
    EmptyHits(from, to);
    hide Run, AdmittedDuring, Counting;
    RunConcat(r, s, a, u, b, v);
    RunConcat(r, s, a + b, v, c, t);
    steps := a + b + c;
  }

  lemma StepTimes(k: nat, w: nat)
    requires k >= 1
    ensures (k - 1) * (w + 1) + w + 1 == k * w + k && k * w >= w
  {
    assert k * (w + 1) == (k - 1) * (w + 1) + (w + 1);
    assert k * w == (k - 1) * w + w;
  }

  /** The bound is attained: the first counter is filled at its last millisecond, and k more follow. */
  lemma FixedWindowBoundIsAttained(r: Rule, k: nat) returns (s: State, steps: seq<Step>, t: State, from: int)
    requires r.window > 0 && r.limit >= 1 && 1 <= k < r.window * 1000
    ensures Initial(r, s) && Run(r, s, steps, t)
    ensures AdmittedDuring(t.hits, from, from + k * (r.window * 1000)) == Most(r.limit, k)
  {
    s := State(Db(0, map[], map[], []), false, [], []);
    assert Initial(r, s);
    from := r.window * 1000;
    var to := from + k * from;
    StepTimes(k, from);
    hide Run, Counting, AdmittedDuring, Initial;
    var a, u := LateFill(r, s, from, to);
    var b, count, deadline;
    b, t, count, deadline := WholeWindows(r, u, r.limit, from, from, to, k);
    RunConcat(r, s, a, u, b, t);
    steps := a + b;
    OneMoreTimes(k, r.limit);
  }

  // Bursts.

  /** Requests admitted in one millisecond. */
  function AdmittedAt(hits: seq<Hit>, at: int): nat
  {
    AdmittedDuring(hits, at, at + 1)
  }

  ghost predicate AtMost(r: Rule, b: nat)
  {
    forall s, steps, t, at :: Initial(r, s) && Run(r, s, steps, t) ==> AdmittedAt(t.hits, at) <= b
  }

  /** Some number bounds what any one millisecond of any run admits. */
  ghost predicate BurstsBounded(r: Rule)
  {
    exists b: nat :: AtMost(r, b)
  }

  lemma {:induction false} WiderInterval(hits: seq<Hit>, from: int, to: int, later: int)
    requires to <= later
    ensures AdmittedDuring(hits, from, to) <= AdmittedDuring(hits, from, later)
  {
    if hits == [] {
    } else {
      WiderInterval(hits[..|hits| - 1], from, to, later);
    }
  }

  lemma WindowBoundsBursts(r: Rule)
    requires r.window > 0
    ensures AtMost(r, 2 * r.limit)
  {
    forall s, steps, t, at | Initial(r, s) && Run(r, s, steps, t)
      ensures AdmittedAt(t.hits, at) <= 2 * r.limit
    {
      FixedWindowBound(r, s, steps, t, at, 1);
      hide Run, Initial, AdmittedDuring;
      WiderInterval(t.hits, at, at + 1, at + r.window * 1000);
    }
  }

  lemma {:induction false} ZeroLimitAdmitsNone(r: Rule, s: State, steps: seq<Step>, t: State)
    requires r.limit == 0 && Run(r, s, steps, t)
    requires (r.key in s.db.counts ==> s.db.counts[r.key].value >= 1) && forall h | h in s.hits :: !h.admitted
    ensures forall h | h in t.hits :: !h.admitted
    decreases |steps|
  {
    if steps == [] {
    } else {
      ZeroLimitAdmitsNone(r, Next(r, s, steps[0]), steps[1..], t);
    }
  }

  /** Without a positive window each EXPIRE removes the counter, and n requests in a row pass. */
  lemma {:induction false} Burst(r: Rule, s: State, n: nat) returns (steps: seq<Step>, t: State)
    requires r.window <= 0 && r.limit >= 1 && r.key !in s.db.counts && !s.awaiting
    ensures Run(r, s, steps, t) && r.key !in t.db.counts && !t.awaiting && t.db.now == s.db.now
    ensures AdmittedAt(t.hits, s.db.now) == AdmittedAt(s.hits, s.db.now) + n
  {
    if n == 0 {
      steps, t := [], s;
    } else {
      var rest, m := Burst(r, s, n - 1);
      var one := Next(r, m, Request);
      t := Next(r, one, SetExpiry);
      assert Run(r, t, [], t) && [SetExpiry][1..] == [];
      assert Run(r, one, [SetExpiry], t) && [Request, SetExpiry][1..] == [SetExpiry];
      steps := rest + [Request, SetExpiry];
      RunConcat(r, s, rest, m, [Request, SetExpiry], t);
      assert t.hits[..|m.hits|] == m.hits;
    }
  }

  /** The admissions of one millisecond have a finite bound exactly when the window is positive
      or nothing is ever admitted. */
  lemma BurstsBoundedExactlyWhen(r: Rule)
    ensures BurstsBounded(r) <==> r.window > 0 || r.limit == 0
  {
    if r.window > 0 {
      WindowBoundsBursts(r);
    } else if r.limit == 0 {
      forall s, steps, t, at | Initial(r, s) && Run(r, s, steps, t)
        ensures AdmittedAt(t.hits, at) <= 0
      {
        ZeroLimitAdmitsNone(r, s, steps, t);
        NoneAdmitted(t.hits, at, at + 1);
      }
      assert AtMost(r, 0);
    } else {
      forall b: nat
        ensures !AtMost(r, b)
      {
        var s := State(Db(0, map[], map[], []), false, [], []);
        var steps, t := Burst(r, s, b + 1);
        assert Initial(r, s) && AdmittedAt(s.hits, 0) == 0;
      }
    }
  }
}
