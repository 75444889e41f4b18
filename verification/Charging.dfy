/** Which plan tier the guard charges, seen from the billing side: the subscription row reaches the
    guard only through the cache entry, which webhooks and subscription reads write and the guard
    never does. */
module Charging {
  import opened RedisStore
  import opened Billing
  import Guard

  /** The step writes the pair's cache entry: an applied event, or a read that missed the cache. */
  predicate Refreshes(s: State, e: Step, user: string, device: string)
  {
    match e
    case Deliver(p, authentic) =>
      && authentic && p.user == user && p.device == device
      && !HasEvent(s.tables.events, p.eventId) && CountRows(s.tables.rows, user, device) <= 1
    case Read(u, d) => u == user && d == device && !CacheHit(s, u, d) && TableAnswer(s.tables, u, d).Found?
    case Tick(_) => false
  }

  /** When the entry was last written in a run, if ever. */
  function LastRefresh(s: State, steps: seq<Step>, user: string, device: string, since: Option<int>): Option<int>
    decreases |steps|
  {
    if steps == [] then since
    else
      LastRefresh(Next(s, steps[0]), steps[1..], user, device,
                  if Refreshes(s, steps[0], user, device) then Some(s.now) else since)
  }

  predicate EntrySince(s: State, key: string, since: Option<int>)
  {
    match since
    case None => key !in s.cache
    case Some(at) => key in s.cache && s.cache[key].deadline == Some(at + 900000)
  }

  lemma EntryStep(s: State, e: Step, pairs: set<(string, string)>, p: (string, string), since: Option<int>)
    requires KeysInjective(pairs) && Touches(e, pairs) && p in pairs
    requires EntrySince(s, CacheKey(p.0, p.1), since)
    ensures EntrySince(Next(s, e), CacheKey(p.0, p.1), if Refreshes(s, e, p.0, p.1) then Some(s.now) else since)
  {
    hide HasEvent, CacheKey, Upsert;
    match e
    case Deliver(q, _) => assert CacheKey(q.user, q.device) == CacheKey(p.0, p.1) ==> (q.user, q.device) == p;
    case Read(u, d) => assert CacheKey(u, d) == CacheKey(p.0, p.1) ==> (u, d) == p;
    case Tick(_) =>
  }

  lemma {:induction false} EntryRun(s: State, steps: seq<Step>, pairs: set<(string, string)>, p: (string, string),
                                    since: Option<int>)
    requires KeysInjective(pairs) && p in pairs && forall e | e in steps :: Touches(e, pairs)
    requires EntrySince(s, CacheKey(p.0, p.1), since)
    ensures EntrySince(Run(s, steps), CacheKey(p.0, p.1), LastRefresh(s, steps, p.0, p.1, since))
    decreases |steps|
  {
    if steps == [] {
    } else {
      var e := steps[0];
      assert e in steps && forall x | x in steps[1..] :: x in steps;
      EntryStep(s, e, pairs, p, since);
      hide KeysInjective, Touches, Next, Refreshes, EntrySince, CacheKey;
      EntryRun(Next(s, e), steps[1..], pairs, p, if Refreshes(s, e, p.0, p.1) then Some(s.now) else since);
    }
  }

  /** A cached entry is the row a table read finds for its pair. */
  lemma EntryIsRow(s: State, pairs: set<(string, string)>, p: (string, string))
    requires KeysInjective(pairs) && CacheOk(s) && RowsWithin(s, pairs) && PairsUnique(s.tables.rows) && p in pairs
    requires CacheKey(p.0, p.1) in s.cache
    ensures
      var i := FindRow(s.tables.rows, p.0, p.1);
      i < |s.tables.rows| && s.cache[CacheKey(p.0, p.1)].value == CachedOf(s.tables.rows[i])
  {
    var k := CacheKey(p.0, p.1);
    var i :| 0 <= i < |s.tables.rows| && Backs(s.tables.rows[i], k, s.cache[k].value);
    var r := s.tables.rows[i];
    assert (r.user, r.device) == p && IsFor(r, p.0, p.1);
    assert FindRow(s.tables.rows, p.0, p.1) == i;
  }

  /** The entry was written at most fifteen minutes ago. */
  predicate Recent(last: Option<int>, now: int)
  {
    last.Some? && now <= last.value + 900000
  }

  /** In every run, a pair's cache entry dates from its last refresh and holds its row. */
  lemma CachedEntry(pairs: set<(string, string)>, steps: seq<Step>, p: (string, string))
    requires KeysInjective(pairs) && p in pairs && forall e | e in steps :: Touches(e, pairs)
    ensures
      var s, key := Run(EMPTY, steps), CacheKey(p.0, p.1);
      var i := FindRow(s.tables.rows, p.0, p.1);
      && EntrySince(s, key, LastRefresh(EMPTY, steps, p.0, p.1, None))
      && (key in s.cache ==> i < |s.tables.rows| && s.cache[key].value == CachedOf(s.tables.rows[i]))
  {
    var s := Run(EMPTY, steps);
    assert EntrySince(EMPTY, CacheKey(p.0, p.1), None) && CacheOk(EMPTY) && RowsWithin(EMPTY, pairs);
    hide *;
    EntryRun(EMPTY, steps, pairs, p, None);
    CacheOkRun(EMPTY, steps, pairs);
    WebhookExactlyOnce(steps);
    if CacheKey(p.0, p.1) in s.cache {
      EntryIsRow(s, pairs, p);
    }
  }

  /** What the guard charges a pair: the tier of its subscription row while the entry is recent,
      and the trial tier otherwise, whatever the pair has paid for. */
  lemma TierCharged(pairs: set<(string, string)>, steps: seq<Step>, r: Guard.Request)
    requires KeysInjective(pairs) && forall e | e in steps :: Touches(e, pairs)
    requires r.bearer.Some? && (r.bearer.value.sub, r.bearer.value.deviceId) in pairs && !r.androidTelemetry
    ensures
      var user, device := r.bearer.value.sub, r.bearer.value.deviceId;
      var s := Run(EMPTY, steps);
      var i := FindRow(s.tables.rows, user, device);
      var tier := Guard.TierOf(r, Guard.Lookup(s.cache, r, s.now));
      if Recent(LastRefresh(EMPTY, steps, user, device, None), s.now)
      then i < |s.tables.rows| && tier == s.tables.rows[i].planTier
      else tier == "trial"
  {
    CachedEntry(pairs, steps, (r.bearer.value.sub, r.bearer.value.deviceId));
    hide Run, LastRefresh, FindRow, CacheKey, KeysInjective, Touches;
  }

  /** A subscriber is charged at the tier of its own row exactly while the cache entry is recent, or
      when that tier is the trial tier anyway. */
  lemma OwnTierExactlyWhen(pairs: set<(string, string)>, steps: seq<Step>, r: Guard.Request)
    requires KeysInjective(pairs) && forall e | e in steps :: Touches(e, pairs)
    requires r.bearer.Some? && (r.bearer.value.sub, r.bearer.value.deviceId) in pairs && !r.androidTelemetry
    requires FindRow(Run(EMPTY, steps).tables.rows, r.bearer.value.sub, r.bearer.value.deviceId)
           < |Run(EMPTY, steps).tables.rows|
    ensures
      var user, device := r.bearer.value.sub, r.bearer.value.deviceId;
      var s := Run(EMPTY, steps);
      var row := s.tables.rows[FindRow(s.tables.rows, user, device)];
      Guard.TierOf(r, Guard.Lookup(s.cache, r, s.now)) == row.planTier
      <==> Recent(LastRefresh(EMPTY, steps, user, device, None), s.now) || row.planTier == "trial"
  {
    TierCharged(pairs, steps, r);
    hide Run, LastRefresh, FindRow, KeysInjective, Touches;
  }

  /** Such a run for every tier but trial: the plan is delivered, and fifteen minutes pass. */
  lemma PaidChargedAsTrial(p: Payload, steps: seq<Step>, r: Guard.Request)
    requires steps == [Deliver(p, true), Tick(900001)] && p.planTier != "trial"
    requires r.bearer.Some? && !r.androidTelemetry
    requires r.bearer.value.sub == p.user && r.bearer.value.deviceId == p.device
    ensures
      var s := Run(EMPTY, steps);
      s.tables.rows == [RowOf(p, 0)] && Guard.TierOf(r, Guard.Lookup(s.cache, r, s.now)) == "trial"
  {
    FirstDelivery(p);
    var s := OneDelivery(p);
    assert steps[1..] == [Tick(900001)] && [Tick(900001)][1..] == [];
    assert Run(EMPTY, steps) == Run(s, steps[1..]) == Next(s, Tick(900001));
  }
}
