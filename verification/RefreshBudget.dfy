/** How many presentations of refresh tokens a device gets: whole runs of the token service seen by the
    limiter of one device's attempt counter. */
module RefreshBudget {
  import opened RedisStore
  import opened Tokens
  import opened TokenRuns
  import Limiter

  /** A presentation that reached the attempt counter, and whether it got past it. */
  datatype Attempt = Attempt(at: int, device: string, admitted: bool)

  datatype State = State(world: World, attempts: seq<Attempt>)

  /** Other handlers do not touch attempt counters, and time does not run backwards. */
  ghost predicate Enabled(st: State, e: Event)
  {
    e.Other? ==>
      var db, db0 := e.db, st.world.db;
      && db0.now <= db.now
      && forall d: string ::
           var k := "refresh_attempts:" + d;
           (k in db.counts <==> k in db0.counts) && (k in db.counts ==> db.counts[k] == db0.counts[k])
  }

  /** The presentation is counted: the secret is there and its token is good. */
  predicate Counted(s: Settings, w: World, e: Event)
  {
    e.Refreshing? && Answer(s, w, e).outcome !in {Failed(SecretMissing), Failed(Unauthorized)}
  }

  function Next(s: Settings, st: State, e: Event): State
  {
    State(TokenRuns.Next(s, st.world, e),
          if Counted(s, st.world, e) then
            var admitted := Answer(s, st.world, e).outcome != Failed(TooManyAttempts);
            st.attempts + [Attempt(st.world.db.now, e.token.deviceId, admitted)]
          else st.attempts)
  }

  ghost predicate Run(s: Settings, st: State, es: seq<Event>, t: State)
    decreases |es|
  {
    if es == [] then st == t
    else Enabled(st, es[0]) && Run(s, Next(s, st, es[0]), es[1..], t)
  }

  /** Presentations of a device's tokens that got past the counter in the half-open interval [from, to). */
  function AdmittedDuring(attempts: seq<Attempt>, device: string, from: int, to: int): nat
  {
    if attempts == [] then 0
    else
      var a := attempts[|attempts| - 1];
      AdmittedDuring(attempts[..|attempts| - 1], device, from, to)
      + if a.admitted && a.device == device && from <= a.at < to then 1 else 0
  }

  function RuleOf(device: string): Limiter.Rule
  {
    Limiter.Rule("refresh_attempts:" + device, 10, 60)
  }

  ghost predicate Covers(l: Limiter.State, st: State, device: string)
  {
    && l.db == st.world.db && !l.awaiting
    && forall from, to :: AdmittedDuring(st.attempts, device, from, to) <= Limiter.AdmittedDuring(l.hits, from, to)
  }

  lemma AttemptAppended(attempts: seq<Attempt>, a: Attempt, device: string, from: int, to: int)
    ensures AdmittedDuring(attempts + [a], device, from, to)
         == AdmittedDuring(attempts, device, from, to)
            + if a.admitted && a.device == device && from <= a.at < to then 1 else 0
  {
    assert (attempts + [a])[..|attempts|] == attempts;
  }

  /** A counted presentation does to the counter what one check of the limiter does, and is admitted when
      the check is. */
  lemma CountedIsChecked(s: Settings, w: World, e: Event)
    requires Counted(s, w, e)
    ensures
      var key, r := "refresh_attempts:" + e.token.deviceId, Answer(s, w, e);
      var (counted, allowed) := Limiter.RateCheck(w.db, key, 10, 60);
      r.db.counts == counted.counts && r.db.now == counted.now && (r.outcome != Failed(TooManyAttempts) <==> allowed)
  {
    hide RefreshKey, SlidingTtl, Verifies;
  }

  lemma OthersSpareCounter(s: Settings, st: State, e: Event, device: string)
    requires Enabled(st, e) && !(Counted(s, st.world, e) && e.token.deviceId == device)
    ensures
      var db, db0, key := Next(s, st, e).world.db, st.world.db, "refresh_attempts:" + device;
      && db0.now <= db.now
      && (key in db.counts <==> key in db0.counts)
      && (key in db.counts ==> db.counts[key] == db0.counts[key])
  {
    hide RefreshKey, SlidingTtl, Verifies, Selected;
    if e.Refreshing? {
      if Counted(s, st.world, e) {
        CountedIsChecked(s, st.world, e);
        var key, other := "refresh_attempts:" + device, "refresh_attempts:" + e.token.deviceId;
        assert key[17..] == device && other[17..] == e.token.deviceId;
        hide Answer, RefreshReply;
      }
    }
  }

  lemma CoversMore(st: State, t: State, device: string, l: Limiter.State, l': Limiter.State, a: Attempt)
    requires Covers(l, st, device) && l'.db == t.world.db && !l'.awaiting && t.attempts == st.attempts + [a]
    requires if a.device == device then
               |l'.hits| == |l.hits| + 1 && l'.hits[..|l.hits|] == l.hits
               && l'.hits[|l.hits|].at == a.at && (a.admitted ==> l'.hits[|l.hits|].admitted)
             else l'.hits == l.hits
    ensures Covers(l', t, device)
  {
    forall from, to
      ensures AdmittedDuring(t.attempts, device, from, to) <= Limiter.AdmittedDuring(l'.hits, from, to)
    {
      AttemptAppended(st.attempts, a, device, from, to);
    }
  }

  lemma NextStore(s: Settings, w: World, e: Event)
    requires e.Refreshing?
    ensures TokenRuns.Next(s, w, e).db == Answer(s, w, e).db
  {
    hide RefreshReply;
  }

  /** A counted presentation of this device, as steps of the limiter. */
  lemma CountedStep(s: Settings, st: State, e: Event, device: string, l: Limiter.State)
    returns (ls: seq<Limiter.Step>, l': Limiter.State)
    requires Counted(s, st.world, e) && e.token.deviceId == device && Covers(l, st, device)
    ensures Limiter.Run(RuleOf(device), l, ls, l') && Covers(l', Next(s, st, e), device)
  {
    var rule, t := RuleOf(device), Next(s, st, e);
    CountedIsChecked(s, st.world, e);
    NextStore(s, st.world, e);
    Limiter.CheckIsRequestThenExpiry(rule, l);
    var one := Limiter.Next(rule, l, Limiter.Request);
    var done := if one.awaiting then Limiter.Next(rule, one, Limiter.SetExpiry) else one;
    var checks := if one.awaiting then [Limiter.Request, Limiter.SetExpiry] else [Limiter.Request];
    l' := done.(db := t.world.db);
    assert Limiter.Run(rule, l', [], l') && [Limiter.Elsewhere(t.world.db)][1..] == [];
    assert Limiter.Run(rule, done, [Limiter.Elsewhere(t.world.db)], l');
    Limiter.RunConcat(rule, l, checks, done, [Limiter.Elsewhere(t.world.db)], l');
    ls := checks + [Limiter.Elsewhere(t.world.db)];
    hide Answer, TokenRuns.Next, Limiter.Run;
    CoversMore(st, t, device, l, l', t.attempts[|st.attempts|]);
  }

  lemma OtherStep(s: Settings, st: State, e: Event, device: string, l: Limiter.State)
    returns (ls: seq<Limiter.Step>, l': Limiter.State)
    requires Enabled(st, e) && !(Counted(s, st.world, e) && e.token.deviceId == device) && Covers(l, st, device)
    ensures Limiter.Run(RuleOf(device), l, ls, l') && Covers(l', Next(s, st, e), device)
  {
    var rule, t := RuleOf(device), Next(s, st, e);
    OthersSpareCounter(s, st, e, device);
    l' := l.(db := t.world.db);
    ls := [Limiter.Elsewhere(t.world.db)];
    assert ls[1..] == [] && Limiter.Run(rule, l', [], l');
    hide Answer, TokenRuns.Next;
    if Counted(s, st.world, e) {
      CoversMore(st, t, device, l, l', t.attempts[|st.attempts|]);
    }
  }

  lemma {:induction false} RunIsLimiterRun(s: Settings, st: State, es: seq<Event>, t: State, device: string,
                                           l: Limiter.State)
    returns (ls: seq<Limiter.Step>, l': Limiter.State)
    requires Run(s, st, es, t) && Covers(l, st, device)
    ensures Limiter.Run(RuleOf(device), l, ls, l') && Covers(l', t, device)
    decreases |es|
  {
    if es == [] {
      ls, l' := [], l;
    } else {
      var e := es[0];
      var a, m;
      if Counted(s, st.world, e) && e.token.deviceId == device {
        a, m := CountedStep(s, st, e, device, l);
      } else {
        a, m := OtherStep(s, st, e, device, l);
      }
      var b;
      b, l' := RunIsLimiterRun(s, Next(s, st, e), es[1..], t, device, m);
      Limiter.RunConcat(RuleOf(device), l, a, m, b, l');
      ls := a + b;
    }
  }

  lemma CoveredBudget(l: Limiter.State, ls: seq<Limiter.Step>, l': Limiter.State, t: State, device: string,
                      from: int, k: nat)
    requires Limiter.Initial(RuleOf(device), l) && Limiter.Run(RuleOf(device), l, ls, l') && Covers(l', t, device)
    ensures AdmittedDuring(t.attempts, device, from, from + k * 60000) <= 10 * (k + 1) - 1
  {
    hide Limiter.Run, Limiter.Initial, AdmittedDuring, Limiter.AdmittedDuring;
    var to := from + k * 60000;
    Limiter.FixedWindowBound(RuleOf(device), l, ls, l', from, k);
    assert AdmittedDuring(t.attempts, device, from, to) <= Limiter.AdmittedDuring(l'.hits, from, to);
  }

  /** In any k minutes of any run, at most 10 (k + 1) - 1 presentations for a device get past the attempt
      counter, whatever their tokens and fingerprints. */
  lemma RefreshAttemptsBounded(s: Settings, st: State, es: seq<Event>, t: State, device: string, from: int, k: nat)
    requires st.attempts == [] && "refresh_attempts:" + device !in st.world.db.counts
    requires Run(s, st, es, t)
    ensures AdmittedDuring(t.attempts, device, from, from + k * 60000) <= 10 * (k + 1) - 1
  {
    var l := Limiter.State(st.world.db, false, [], []);
    assert Covers(l, st, device) && Limiter.Initial(RuleOf(device), l);
    hide Run, Next, Covers, Limiter.Run, Limiter.Initial, AdmittedDuring, Limiter.AdmittedDuring;
    var ls, l' := RunIsLimiterRun(s, st, es, t, device, l);
    CoveredBudget(l, ls, l', t, device, from, k);
  }
}
