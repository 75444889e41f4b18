/** The subscription guard in front of the protected routes: token, device flags, cached
    subscription or paywall, and the limiter of the request's plan. Attestation and the paywall
    query are inputs; one dispatch is one atomic step. */
module Guard {
  import opened RedisStore
  import opened Tokens
  import Glob
  import Limiter
  import TokenRuns
  import Billing

  /** The bearer token is None when the header is missing or not a bearer header; the device
      header is already stripped, empty when absent. */
  datatype Request = Request(path: string, bearer: Option<Claims>, deviceHeader: string, androidTelemetry: bool)

  /** What the paywall query finds for a pair; a device never registered is an error. */
  datatype Paywall = Unregistered | Registered(premium: bool, trialExpired: bool)

  datatype Denial =
    | MissingBearer | InvalidToken | WrongDevice | DeviceRevoked | AttestationRequired
    | SubscriptionRequired | SubscriptionExpired | SubscriptionInactive | RateExceeded

  datatype Verdict = Unguarded | Forwarded(tier: string) | Denied(reason: Denial)

  const WINDOW := 60

  const ACCESSIBILITY := "android_accessibility"

  predicate NeedsGuard(path: string)
  {
    "/v1/signals" <= path || "/v1/security" <= path
  }

  /** The plan table; an unknown tier gets the trial limit. */
  function LimitOf(tier: string): (limit: nat)
    ensures limit >= 120
  {
    if tier == "paid_basic" then 600
    else if tier == "paid" then 1200
    else if tier == ACCESSIBILITY then 1800
    else 120
  }

  function RateKey(tier: string, subject: string, device: string): string
  {
    "rl:" + tier + ":" + subject + ":" + (if device == "" then "na" else device)
  }

  predicate Flagged(db: Db, device: string)
  {
    || (Live(db.texts, RevokedKey(device), db.now) && db.texts[RevokedKey(device)].value != "")
    || (Live(db.texts, StateKey(device), db.now) && db.texts[StateKey(device)].value == "blocked")
  }

  function PaywallDenial(p: Paywall): Option<Denial>
  {
    if p.Unregistered? then Some(AttestationRequired)
    else if p.trialExpired && !p.premium then Some(SubscriptionRequired)
    else None
  }

  function TierOf(r: Request, cached: Option<Billing.Cached>): string
  {
    if r.androidTelemetry then ACCESSIBILITY else if cached.Some? then cached.value.planTier else "trial"
  }

  function SubscriptionDenial(r: Request, cached: Option<Billing.Cached>, paywall: Paywall, now: int): Option<Denial>
  {
    match cached
    case None => PaywallDenial(paywall)
    case Some(c) =>
      if c.expiresAt.Some? && c.expiresAt.value < now then Some(SubscriptionExpired)
      else if c.status != "active" && c.status != "trial" then Some(SubscriptionInactive)
      else if r.androidTelemetry && c.status == "trial" then PaywallDenial(paywall)
      else None
  }

  /** The first check that fails before the limiter. */
  function FirstDenial(s: Settings, db: Db, signed: set<Claims>, r: Request, cached: Option<Billing.Cached>,
                       paywall: Paywall)
    : (denial: Option<Denial>)
    ensures r.bearer.None? ==> denial == Some(MissingBearer)
  {
    if r.bearer.None? then Some(MissingBearer)
    else if !Verifies(s, signed, r.bearer.value, Access, db.now) then Some(InvalidToken)
    else if r.deviceHeader != "" && r.deviceHeader != r.bearer.value.deviceId then Some(WrongDevice)
    else if Flagged(db, r.bearer.value.deviceId) then Some(DeviceRevoked)
    else SubscriptionDenial(r, cached, paywall, db.now)
  }

  function Serve(s: Settings, db: Db, signed: set<Claims>, r: Request, cached: Option<Billing.Cached>, paywall: Paywall)
    : (Db, Verdict)
  {
    if !NeedsGuard(r.path) then (db, Unguarded)
    else
      match FirstDenial(s, db, signed, r, cached, paywall)
      case Some(reason) => (db, Denied(reason))
      case None =>
        var tier := TierOf(r, cached);
        var key := RateKey(tier, r.bearer.value.sub, r.bearer.value.deviceId);
        var (counted, allowed) := Limiter.RateCheck(db, key, LimitOf(tier), WINDOW);
        (counted, if allowed then Forwarded(tier) else Denied(RateExceeded))
  }

  /** The cache hash the guard reads for a request. */
  function Lookup(cache: map<string, Timed<Billing.Cached>>, r: Request, now: int): Option<Billing.Cached>
  {
    if r.bearer.None? then None
    else
      var k := Billing.CacheKey(r.bearer.value.sub, r.bearer.value.deviceId);
      if Live(cache, k, now) then Some(cache[k].value) else None
  }

  /** The subscription checks: the plan tier to charge, or why not. */
  method CheckSubscription(cached: Option<Billing.Cached>, r: Request, paywall: Paywall, now: int)
    returns (denial: Option<Denial>, planTier: string)
    ensures denial == SubscriptionDenial(r, cached, paywall, now)
    ensures denial.None? ==> planTier == TierOf(r, cached)
  {
    var status;
    planTier := "trial";
    if cached.None? {
      denial := PaywallDenial(paywall);
      if denial.Some? {
        return;
      }
      status := "trial";
    } else {
      var data := cached.value;
      status := data.status;
      if data.expiresAt.Some? && data.expiresAt.value < now {
        return Some(SubscriptionExpired), planTier;
      }
      if status != "active" && status != "trial" {
        return Some(SubscriptionInactive), planTier;
      }
      planTier := data.planTier;
    }
    denial := None;
    if r.androidTelemetry {
      planTier := ACCESSIBILITY;
      if status == "trial" {
        denial := PaywallDenial(paywall);
      }
    }
  }

  method Dispatch(tokens: TokenService, cache: map<string, Timed<Billing.Cached>>, r: Request, paywall: Paywall)
    returns (verdict: Verdict)
    modifies tokens.redis
    ensures
      var before := old(tokens.redis.Snapshot());
      (tokens.redis.Snapshot(), verdict)
      == Serve(tokens.settings, before, tokens.signed, r, Lookup(cache, r, before.now), paywall)
    ensures tokens.signed == old(tokens.signed)
  {
    if !NeedsGuard(r.path) {
      return Unguarded;
    }
    if r.bearer.None? {
      return Denied(MissingBearer);
    }
    var redis, claims := tokens.redis, r.bearer.value;
    if !Verifies(tokens.settings, tokens.signed, claims, Access, redis.now) {
      return Denied(InvalidToken);
    }
    var device := if r.deviceHeader != "" then r.deviceHeader else claims.deviceId;
    if claims.deviceId != device {
      return Denied(WrongDevice);
    }
    var revoked := Live(redis.texts, RevokedKey(device), redis.now) && redis.texts[RevokedKey(device)].value != "";
    if revoked || (Live(redis.texts, StateKey(device), redis.now) && redis.texts[StateKey(device)].value == "blocked") {
      return Denied(DeviceRevoked);
    }
    var denial, planTier := CheckSubscription(Lookup(cache, r, redis.now), r, paywall, redis.now);
    if denial.Some? {
      return Denied(denial.value);
    }
    var allowed := Limiter.CheckRateLimit(redis, RateKey(planTier, claims.sub, device), LimitOf(planTier), WINDOW);
    verdict := if allowed then Forwarded(planTier) else Denied(RateExceeded);
  }

  /** The guarded routes are those under the two protected prefixes. */
  lemma GuardedPaths(path: string)
    ensures NeedsGuard(path) <==> exists rest :: path == "/v1/signals" + rest || path == "/v1/security" + rest
  {
    if "/v1/signals" <= path {
      assert path == "/v1/signals" + path[11..];
    }
    if "/v1/security" <= path {
      assert path == "/v1/security" + path[12..];
    }
  }

  /** A bearer token counts as invalid exactly when it was never signed, is not an access token, is past
      its exp by more than the skew, or was issued further in the future than the skew. */
  lemma InvalidTokenExactlyWhen(s: Settings, db: Db, signed: set<Claims>, r: Request, cached: Option<Billing.Cached>,
                                paywall: Paywall)
    requires NeedsGuard(r.path)
    ensures
      var (after, verdict) := Serve(s, db, signed, r, cached, paywall);
      var clock, skew := db.now / 1000, if s.skewSeconds > 0 then s.skewSeconds else 0;
      && (verdict == Denied(MissingBearer) <==> r.bearer == None)
      && (verdict == Denied(InvalidToken) <==>
          && r.bearer.Some?
          && var token := r.bearer.value;
          token !in signed || token.typ != Access || token.exp + skew < clock || clock + skew < token.issued)
      && (verdict == Denied(InvalidToken) ==> after == db)
  {
    hide Flagged, TierOf, RateKey, LimitOf;
  }

  /** Exactly when a guarded request goes through: its token is a signed access token that is neither
      expired nor from the future (up to the skew) and is for the device named, the device is not
      flagged, the pair is entitled, and the plan's counter is below its limit. A request refused
      earlier than the limiter costs nothing. */
  lemma ForwardedExactlyWhen(s: Settings, db: Db, signed: set<Claims>, r: Request, cached: Option<Billing.Cached>,
                             paywall: Paywall)
    requires NeedsGuard(r.path)
    ensures
      var (after, verdict) := Serve(s, db, signed, r, cached, paywall);
      var clock, skew := db.now / 1000, if s.skewSeconds > 0 then s.skewSeconds else 0;
      && (verdict.Forwarded? <==>
          && r.bearer.Some?
          && var token := r.bearer.value;
          && token in signed && token.typ == Access && clock <= token.exp + skew && token.issued <= clock + skew
          && (r.deviceHeader == "" || r.deviceHeader == token.deviceId)
          && var revoked, state := "revoked:device:" + token.deviceId, "device:" + token.deviceId + ":state";
          && (Live(db.texts, revoked, db.now) ==> db.texts[revoked].value == "")
          && (Live(db.texts, state, db.now) ==> db.texts[state].value != "blocked")
          && (cached.Some? ==> cached.value.status in {"active", "trial"})
          && (cached.Some? && cached.value.expiresAt.Some? ==> db.now <= cached.value.expiresAt.value)
          && (cached.None? || (r.androidTelemetry && cached.value.status == "trial") ==>
              paywall.Registered? && (paywall.trialExpired ==> paywall.premium))
          && var key := RateKey(TierOf(r, cached), token.sub, token.deviceId);
          (Live(db.counts, key, db.now) ==> db.counts[key].value < LimitOf(TierOf(r, cached))))
      && (verdict.Forwarded? ==> verdict.tier == TierOf(r, cached))
      && (verdict.Denied? && verdict.reason != RateExceeded ==> after == db)
      && after.texts == db.texts && after.now == db.now && after.channel == db.channel
  {
    hide TierOf, RateKey, LimitOf;
    assert RevokedKey("") == "revoked:device:" && StateKey("") == "device::state";
  }

  /** The plan table, and the tier a request is charged at. */
  lemma PlanTable(r: Request, cached: Option<Billing.Cached>)
    ensures LimitOf("trial") == 120 && LimitOf("paid_basic") == 600 && LimitOf("paid") == 1200
    ensures LimitOf("android_accessibility") == 1800
    ensures forall tier | tier !in {"paid_basic", "paid", "android_accessibility"} :: LimitOf(tier) == 120
    ensures r.androidTelemetry ==> TierOf(r, cached) == "android_accessibility"
    ensures !r.androidTelemetry && cached == None ==> TierOf(r, cached) == "trial"
    ensures !r.androidTelemetry && cached.Some? ==> TierOf(r, cached) == cached.value.planTier
  {
    assert "trial"[0] != "paid"[0] && "paid" != "paid_basic";
  }

  /** For tiers and subjects without colons, two requests share a counter only if they agree on tier,
      subject and device, the empty device id counting as "na". */
  lemma CountersAreSeparate(tier: string, subject: string, device: string, tier': string, subject': string,
                            device': string)
    requires Glob.NoColon(tier) && Glob.NoColon(tier') && Glob.NoColon(subject) && Glob.NoColon(subject')
    ensures RateKey(tier, subject, device) == RateKey(tier', subject', device')
       <==> tier == tier' && subject == subject'
            && (device == device' || (device == "" && device' == "na") || (device == "na" && device' == ""))
  {
    var d, d' := if device == "" then "na" else device, if device' == "" then "na" else device';
    var k, k' := RateKey(tier, subject, device), RateKey(tier', subject', device');
    assert k[3..] == tier + ":" + (subject + ":" + d) && k'[3..] == tier' + ":" + (subject' + ":" + d');
    if k == k' {
      Glob.FirstColon(tier, subject + ":" + d, tier', subject' + ":" + d');
      Glob.FirstColon(subject, d, subject', d');
    }
  }

  /** A request changes no counter but its own pair's. */
  lemma ChargesOwnCounter(s: Settings, db: Db, signed: set<Claims>, r: Request, cached: Option<Billing.Cached>,
                          paywall: Paywall, key: string)
    requires r.bearer.Some? ==> key != RateKey(TierOf(r, cached), r.bearer.value.sub, r.bearer.value.deviceId)
    ensures
      var after := Serve(s, db, signed, r, cached, paywall).0;
      (key in after.counts <==> key in db.counts) && (key in after.counts ==> after.counts[key] == db.counts[key])
  {
    hide FirstDenial, TierOf, RateKey, LimitOf;
  }

  // Whole runs: guarded requests among logins, refreshes, revocations, passing time and any
  // other handler.

  /** A request that reached the limiter. */
  datatype Entry = Entry(at: int, tier: string, subject: string, device: string, forwarded: bool)

  datatype State = State(world: TokenRuns.World, log: seq<Entry>)

  datatype Step =
    | Dispatching(r: Request, cached: Option<Billing.Cached>, paywall: Paywall)
    | System(e: TokenRuns.Event)

  predicate FlaggedUntil(db: Db, device: string, until: int)
  {
    var k := RevokedKey(device);
    && k in db.texts && db.texts[k].value != ""
    && (db.texts[k].deadline.None? || until <= db.texts[k].deadline.value)
  }

  /** Other handlers do not touch plan counters and do not lift or shorten a device flag. */
  ghost predicate Enabled(st: State, e: Step)
  {
    e.System? && e.e.Other? ==>
      var db, db0 := e.e.db, st.world.db;
      && db0.now <= db.now
      && (forall k | "rl:" <= k ::
            (k in db.counts <==> k in db0.counts) && (k in db.counts ==> db.counts[k] == db0.counts[k]))
      && (forall d, until: int | FlaggedUntil(db0, d, until) :: FlaggedUntil(db, d, until))
  }

  function Next(s: Settings, st: State, e: Step): State
  {
    match e
    case System(ev) => st.(world := TokenRuns.Next(s, st.world, ev))
    case Dispatching(r, cached, paywall) =>
      var (db, verdict) := Serve(s, st.world.db, st.world.signed, r, cached, paywall);
      State(st.world.(db := db),
            if r.bearer.Some? && (verdict.Forwarded? || verdict == Denied(RateExceeded)) then
              var claims := r.bearer.value;
              st.log + [Entry(st.world.db.now, TierOf(r, cached), claims.sub, claims.deviceId, verdict.Forwarded?)]
            else st.log)
  }

  ghost predicate Run(s: Settings, st: State, steps: seq<Step>, t: State)
    decreases |steps|
  {
    if steps == [] then st == t
    else Enabled(st, steps[0]) && Run(s, Next(s, st, steps[0]), steps[1..], t)
  }

  // A flagged device stays out.

  lemma RefreshSparesFlags(s: Settings, db: Db, signed: set<Claims>, token: Claims, fp: string, aj: string, rj: string,
                           device: string, until: int)
    requires FlaggedUntil(db, device, until) && until <= db.now + 3600000
    ensures
      var after := RefreshReply(s, db, signed, token, fp, aj, rj).db;
      FlaggedUntil(after, device, until) && after.now == db.now
  {
    RefreshOutcome(s, db, signed, token, fp, aj, rj);
    TokenRuns.OtherKeysOutside(device);
    assert RevokedKey(device)[2] == 'v';
    hide RefreshReply, SlidingTtl, Ttl, Live, Verifies;
  }

  /** The revoke pattern starts with a literal, so it selects nothing outside refresh keys. */
  lemma RevokeSparesFlags(db: Db, user: string, device: string, key: string)
    requires !(TokenRuns.NAMESPACE <= key)
    ensures key !in Selected(db, user, device)
  {
    assert PairPrefix(user, device) + "*" == TokenRuns.NAMESPACE + (user + ":" + device + ":*");
    if key in Selected(db, user, device) {
      Glob.LiteralPrefix(TokenRuns.NAMESPACE, user + ":" + device + ":*", key);
    }
  }

  lemma ServeSparesTexts(s: Settings, db: Db, signed: set<Claims>, r: Request, cached: Option<Billing.Cached>,
                         paywall: Paywall)
    ensures
      var after := Serve(s, db, signed, r, cached, paywall).0;
      after.texts == db.texts && after.now == db.now
  {
    hide FirstDenial, TierOf, RateKey, LimitOf;
  }

  lemma RevokeKeepsFlag(db: Db, user: string, d: string, publishBlock: bool, device: string, until: int)
    requires FlaggedUntil(db, device, until) && until <= db.now + 3600000
    ensures FlaggedUntil(RevokeEffect(db, user, d, publishBlock), device, until)
    ensures RevokeEffect(db, user, d, publishBlock).now == db.now
  {
    TokenRuns.OtherKeysOutside(device);
    RevokeSparesFlags(db, user, d, RevokedKey(device));
    assert RevokedKey(device)[0] == 'r' && StateKey(d)[0] == 'd' && OverlayKey(d)[0] == 'f';
    hide Selected;
  }

  lemma IssueKeepsFlag(s: Settings, db: Db, signed: set<Claims>, user: string, d: string, fp: string, aj: string,
                       rj: string, device: string, until: int)
    requires FlaggedUntil(db, device, until)
    ensures
      var after := IssueReply(s, db, signed, user, d, fp, aj, rj).db;
      FlaggedUntil(after, device, until) && after.now == db.now
  {
    assert RevokedKey(device)[2] == 'v';
  }

  lemma FlagSurvivesStep(s: Settings, st: State, e: Step, device: string, until: int)
    requires Enabled(st, e) && FlaggedUntil(st.world.db, device, until)
    requires until <= st.world.db.now + 3600000
    ensures FlaggedUntil(Next(s, st, e).world.db, device, until)
    ensures st.world.db.now <= Next(s, st, e).world.db.now
  {
    hide Serve, RefreshReply, RevokeEffect, IssueReply;
    var db, signed := st.world.db, st.world.signed;
    match e
    case Dispatching(r, cached, paywall) => ServeSparesTexts(s, db, signed, r, cached, paywall);
    case System(Refreshing(token, fp, aj, rj)) => RefreshSparesFlags(s, db, signed, token, fp, aj, rj, device, until);
    case System(Issue(user, d, fp, aj, rj)) => IssueKeepsFlag(s, db, signed, user, d, fp, aj, rj, device, until);
    case System(Revoke(user, d, publishBlock)) => RevokeKeepsFlag(db, user, d, publishBlock, device, until);
    case _ =>
  }

  lemma {:induction false} FlagSurvivesRun(s: Settings, st: State, steps: seq<Step>, t: State, device: string,
                                           until: int)
    requires Run(s, st, steps, t) && FlaggedUntil(st.world.db, device, until)
    requires until <= st.world.db.now + 3600000
    ensures FlaggedUntil(t.world.db, device, until)
    decreases |steps|
  {
    if steps == [] {
    } else {
      FlagSurvivesStep(s, st, steps[0], device, until);
      FlagSurvivesRun(s, Next(s, st, steps[0]), steps[1..], t, device, until);
    }
  }

  /** After a revocation, whatever else happens, no guarded request for the device goes through
      for an hour, even with an access token that is still valid. */
  lemma RevokedDeviceIsShutOut(s: Settings, st: State, user: string, device: string, publishBlock: bool,
                               steps: seq<Step>, t: State, r: Request, cached: Option<Billing.Cached>, paywall: Paywall)
    requires Run(s, Next(s, st, System(TokenRuns.Revoke(user, device, publishBlock))), steps, t)
    requires t.world.db.now <= st.world.db.now + 3600000
    requires r.bearer.Some? && r.bearer.value.deviceId == device && NeedsGuard(r.path)
    ensures Serve(s, t.world.db, t.world.signed, r, cached, paywall).1.Denied?
    ensures Serve(s, t.world.db, t.world.signed, r, cached, paywall).0 == t.world.db
  {
    var until := st.world.db.now + 3600000;
    var after := Next(s, st, System(TokenRuns.Revoke(user, device, publishBlock)));
    assert RevokedKey(device)[0] == 'r' && OverlayKey(device)[0] == 'f';
    FlagSurvivesRun(s, after, steps, t, device, until);
  }

  /** So does the detection of a reused refresh token. */
  lemma ReuseShutsDeviceOut(s: Settings, st: State, e: TokenRuns.Event, steps: seq<Step>, t: State,
                            r: Request, cached: Option<Billing.Cached>, paywall: Paywall)
    requires e.Refreshing? && TokenRuns.Answer(s, st.world, e).outcome == Failed(ReusedOrRevoked)
    requires Run(s, Next(s, st, System(e)), steps, t) && t.world.db.now <= st.world.db.now + 3600000
    requires r.bearer.Some? && r.bearer.value.deviceId == e.token.deviceId && NeedsGuard(r.path)
    ensures Serve(s, t.world.db, t.world.signed, r, cached, paywall).1.Denied?
  {
    var db := st.world.db;
    RefreshOutcome(s, db, st.world.signed, e.token, e.fingerprint, e.accessJti, e.refreshJti);
    hide RefreshReply;
    FlagSurvivesRun(s, Next(s, st, System(e)), steps, t, e.token.deviceId, db.now + 3600000);
    hide Run, Next;
  }

  // An access token works until its exp, and not past the skew.

  lemma SignedGrows(s: Settings, st: State, e: Step)
    requires Enabled(st, e)
    ensures st.world.signed <= Next(s, st, e).world.signed
    ensures st.world.db.now <= Next(s, st, e).world.db.now
  {
    hide Serve, FirstDenial, RefreshKey, SlidingTtl, Verifies, RateKey, Selected;
    match e
    case Dispatching(r, cached, paywall) => ServeSparesTexts(s, st.world.db, st.world.signed, r, cached, paywall);
    case System(Refreshing(token, fp, aj, rj)) => RefreshOutcome(s, st.world.db, st.world.signed, token, fp, aj, rj);
    case _ =>
  }

  lemma {:induction false} SignedGrowsInRun(s: Settings, st: State, steps: seq<Step>, t: State)
    requires Run(s, st, steps, t)
    ensures st.world.signed <= t.world.signed && st.world.db.now <= t.world.db.now
    decreases |steps|
  {
    if steps == [] {
    } else {
      SignedGrows(s, st, steps[0]);
      SignedGrowsInRun(s, Next(s, st, steps[0]), steps[1..], t);
    }
  }

  /** What a granting handler hands out besides the refresh token. */
  lemma GrantedAccess(s: Settings, w: TokenRuns.World, e: TokenRuns.Event)
    requires (e.Issue? || e.Refreshing?) && TokenRuns.Answer(s, w, e).outcome.Granted?
    ensures
      var r := TokenRuns.Answer(s, w, e);
      var access := r.outcome.access;
      && access in r.signed && access.typ == Access
      && access.sub == (if e.Issue? then e.user else e.token.sub)
      && access.deviceId == (if e.Issue? then e.device else e.token.deviceId)
      && access.issued == w.db.now / 1000 && access.exp == (w.db.now + s.accessMinutes * 60000) / 1000
  {
    hide RefreshKey, SlidingTtl, Verifies;
  }

  lemma GrantIsSigned(s: Settings, w: TokenRuns.World, e: TokenRuns.Event)
    requires (e.Issue? || e.Refreshing?) && TokenRuns.Answer(s, w, e).outcome.Granted?
    requires e.Refreshing? ==> e.token.jti in w.origins
    ensures TokenRuns.Next(s, w, e).signed == TokenRuns.Answer(s, w, e).signed
  {
    hide RefreshReply, IssueReply;
  }

  /** The access token a login or refresh grants is never refused as missing, invalid or for the wrong
      device, at any later moment of any run until its exp, which is `accessMinutes` after minting. */
  lemma AccessTokenWorks(s: Settings, st: State, grant: TokenRuns.Event, steps: seq<Step>, t: State, r: Request,
                         cached: Option<Billing.Cached>, paywall: Paywall)
    requires TokenRuns.Reachable(s, st.world) && (grant.Issue? || grant.Refreshing?)
    requires TokenRuns.Answer(s, st.world, grant).outcome.Granted?
    requires Run(s, Next(s, st, System(grant)), steps, t)
    requires r.bearer == Some(TokenRuns.Answer(s, st.world, grant).outcome.access)
    requires r.deviceHeader in {"", if grant.Issue? then grant.device else grant.token.deviceId}
    requires t.world.db.now / 1000 <= (st.world.db.now + s.accessMinutes * 60000) / 1000
    ensures Serve(s, t.world.db, t.world.signed, r, cached, paywall).1
            !in {Denied(MissingBearer), Denied(InvalidToken), Denied(WrongDevice)}
  {
    if grant.Refreshing? {
      TokenRuns.ReachableInv(s, st.world);
      TokenRuns.SigningNeedsOwnUnspentToken(s, st.world, grant);
    }
    GrantedAccess(s, st.world, grant);
    GrantIsSigned(s, st.world, grant);
    SignedGrows(s, st, System(grant));
    SignedGrowsInRun(s, Next(s, st, System(grant)), steps, t);
    hide TokenRuns.Answer, TokenRuns.Next, Run, TokenRuns.Reachable, SubscriptionDenial;
  }

  /** Past its exp and the skew an access token opens no guarded route, whatever the rest of the state. */
  lemma ExpiredTokenIsRefused(s: Settings, db: Db, signed: set<Claims>, r: Request, cached: Option<Billing.Cached>,
                              paywall: Paywall)
    requires NeedsGuard(r.path) && r.bearer.Some?
    requires r.bearer.value.exp + (if s.skewSeconds > 0 then s.skewSeconds else 0) < db.now / 1000
    ensures Serve(s, db, signed, r, cached, paywall) == (db, Denied(InvalidToken))
  {
    InvalidTokenExactlyWhen(s, db, signed, r, cached, paywall);
  }

  // What a plan buys.

  predicate IsOf(h: Entry, tier: string, subject: string, device: string)
  {
    h.tier == tier && h.subject == subject && h.device == device
  }

  /** Forwarded requests of a pair under a tier in the half-open interval [from, to). */
  function ForwardedDuring(log: seq<Entry>, tier: string, subject: string, device: string, from: int, to: int): nat
  {
    if log == [] then 0
    else
      var h := log[|log| - 1];
      ForwardedDuring(log[..|log| - 1], tier, subject, device, from, to)
      + if h.forwarded && IsOf(h, tier, subject, device) && from <= h.at < to then 1 else 0
  }

  /** The counter a request is charged to. */
  function ChargedKey(e: Step): string
    requires e.Dispatching? && e.r.bearer.Some?
  {
    RateKey(TierOf(e.r, e.cached), e.r.bearer.value.sub, e.r.bearer.value.deviceId)
  }

  function RuleOf(tier: string, subject: string, device: string): Limiter.Rule
  {
    Limiter.Rule(RateKey(tier, subject, device), LimitOf(tier), WINDOW)
  }

  /** The limiter's own machine has seen everything the guard forwarded. */
  ghost predicate Covers(l: Limiter.State, st: State, tier: string, subject: string, device: string)
  {
    && l.db == st.world.db && !l.awaiting
    && forall from, to ::
      ForwardedDuring(st.log, tier, subject, device, from, to) <= Limiter.AdmittedDuring(l.hits, from, to)
  }

  lemma CoversRequest(st: State, t: State, tier: string, subject: string, device: string, l: Limiter.State,
                      l': Limiter.State)
    requires Covers(l, st, tier, subject, device) && l'.db == t.world.db && !l'.awaiting
    requires |t.log| == |st.log| + 1 && t.log[..|st.log|] == st.log
    requires |l'.hits| == |l.hits| + 1 && l'.hits[..|l.hits|] == l.hits
    requires
      var h := t.log[|st.log|];
      h.forwarded && IsOf(h, tier, subject, device) ==>
        l'.hits[|l.hits|].at == h.at && l'.hits[|l.hits|].admitted
    ensures Covers(l', t, tier, subject, device)
  {
  }

  lemma CoversOther(st: State, t: State, tier: string, subject: string, device: string, l: Limiter.State,
                    l': Limiter.State)
    requires Covers(l, st, tier, subject, device) && l'.db == t.world.db && !l'.awaiting && l'.hits == l.hits
    requires t.log == st.log
          || (|t.log| == |st.log| + 1 && t.log[..|st.log|] == st.log
              && var h := t.log[|st.log|];
              !IsOf(h, tier, subject, device))
    ensures Covers(l', t, tier, subject, device)
  {
  }

  lemma RefreshSparesCounters(s: Settings, db: Db, signed: set<Claims>, token: Claims, fp: string, aj: string,
                              rj: string, key: string)
    requires "rl:" <= key
    ensures
      var after := RefreshReply(s, db, signed, token, fp, aj, rj).db;
      && after.now == db.now
      && (key in after.counts <==> key in db.counts)
      && (key in after.counts ==> after.counts[key] == db.counts[key])
  {
    assert AttemptsKey(token.deviceId)[1] == 'e';
  }

  lemma OthersSpareKey(s: Settings, st: State, e: Step, tier: string, subject: string, device: string)
    requires Enabled(st, e)
    requires
      var t := Next(s, st, e);
      t.log == st.log || ChargedKey(e) != RateKey(tier, subject, device)
    ensures
      var db, db0, key := Next(s, st, e).world.db, st.world.db, RateKey(tier, subject, device);
      && db0.now <= db.now
      && (key in db.counts <==> key in db0.counts)
      && (key in db.counts ==> db.counts[key] == db0.counts[key])
  {
    assert "rl:" <= RateKey(tier, subject, device);
    if e.System? && e.e.Refreshing? {
      RefreshSparesCounters(s, st.world.db, st.world.signed, e.e.token, e.e.fingerprint, e.e.accessJti, e.e.refreshJti,
                            RateKey(tier, subject, device));
      hide RefreshReply;
    }
  }

  /** Each step of the system is a short run of the limiter for one plan key. */
  lemma StepIsLimiterRun(s: Settings, st: State, e: Step, tier: string, subject: string, device: string,
                         l: Limiter.State)
    returns (ls: seq<Limiter.Step>, l': Limiter.State)
    requires Enabled(st, e) && Covers(l, st, tier, subject, device)
    ensures Limiter.Run(RuleOf(tier, subject, device), l, ls, l')
    ensures Covers(l', Next(s, st, e), tier, subject, device)
  {
    var rule := RuleOf(tier, subject, device);
    var t := Next(s, st, e);
    if t.log != st.log && ChargedKey(e) == rule.key {
      Limiter.CheckIsRequestThenExpiry(rule, l);
      var one := Limiter.Next(rule, l, Limiter.Request);
      l' := if one.awaiting then Limiter.Next(rule, one, Limiter.SetExpiry) else one;
      ls := if one.awaiting then [Limiter.Request, Limiter.SetExpiry] else [Limiter.Request];
      CoversRequest(st, t, tier, subject, device, l, l');
    } else {
      l' := l.(db := t.world.db);
      ls := [Limiter.Elsewhere(t.world.db)];
      assert ls[1..] == [] && Limiter.Run(rule, l', [], l');
      OthersSpareKey(s, st, e, tier, subject, device);
      CoversOther(st, t, tier, subject, device, l, l');
    }
  }

  lemma {:induction false} RunIsLimiterRun(s: Settings, st: State, steps: seq<Step>, t: State,
                                           tier: string, subject: string, device: string, l: Limiter.State)
    returns (ls: seq<Limiter.Step>, l': Limiter.State)
    requires Run(s, st, steps, t) && Covers(l, st, tier, subject, device)
    ensures Limiter.Run(RuleOf(tier, subject, device), l, ls, l') && Covers(l', t, tier, subject, device)
    decreases |steps|
  {
    if steps == [] {
      ls, l' := [], l;
    } else {
      var a, m := StepIsLimiterRun(s, st, steps[0], tier, subject, device, l);
      var b;
      b, l' := RunIsLimiterRun(s, Next(s, st, steps[0]), steps[1..], t, tier, subject, device, m);
      Limiter.RunConcat(RuleOf(tier, subject, device), l, a, m, b, l');
      ls := a + b;
    }
  }

  lemma CoveredBudget(l: Limiter.State, ls: seq<Limiter.Step>, l': Limiter.State, t: State, tier: string,
                      subject: string, device: string, from: int, k: nat)
    requires Limiter.Initial(RuleOf(tier, subject, device), l)
    requires Limiter.Run(RuleOf(tier, subject, device), l, ls, l') && Covers(l', t, tier, subject, device)
    ensures ForwardedDuring(t.log, tier, subject, device, from, from + k * 60000) <= (k + 1) * LimitOf(tier) - 1
  {
    hide Limiter.Run, Limiter.Initial, ForwardedDuring, Limiter.AdmittedDuring, RateKey, LimitOf;
    var to := from + k * 60000;
    Limiter.FixedWindowBound(RuleOf(tier, subject, device), l, ls, l', from, k);
    assert ForwardedDuring(t.log, tier, subject, device, from, to) <= Limiter.AdmittedDuring(l'.hits, from, to);
  }

  /** What a plan buys: in any k minutes of any run, the guard forwards at most k + 1 times the
      tier's limit, less one, for a pair under that tier. */
  lemma PlanBudget(s: Settings, st: State, steps: seq<Step>, t: State, tier: string, subject: string, device: string,
                   from: int, k: nat)
    requires st.log == [] && RateKey(tier, subject, device) !in st.world.db.counts
    requires Run(s, st, steps, t)
    ensures ForwardedDuring(t.log, tier, subject, device, from, from + k * 60000) <= (k + 1) * LimitOf(tier) - 1
  {
    var l := Limiter.State(st.world.db, false, [], []);
    assert Covers(l, st, tier, subject, device) && Limiter.Initial(RuleOf(tier, subject, device), l);
    hide Run, Next, RateKey, LimitOf, ForwardedDuring, Covers, Limiter.Initial, Limiter.Run, Limiter.AdmittedDuring;
    var ls, l' := RunIsLimiterRun(s, st, steps, t, tier, subject, device, l);
    CoveredBudget(l, ls, l', t, tier, subject, device, from, k);
  }
}
