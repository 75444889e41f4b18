/** When honest clients are always served: exactly when a fresh token's lifetime does not exceed the
    cap on sessions. Otherwise a rotated key can lapse before its own token does. */
module HonestClients {
  import opened RedisStore
  import opened Glob
  import opened Tokens
  import opened TokenRuns

  /** A handler grants a token; later, strictly before its exp, it is presented with its own
      fingerprint and within the attempt limit, and was not presented or revoked meanwhile. */
  ghost predicate HonestUse(s: Settings, w: World, grant: Event, es: seq<Event>, t: World, e: Event)
  {
    && HasSecret(s) && Reachable(s, w) && Possible(w, grant) && (grant.Issue? || grant.Refreshing?)
    && Answer(s, w, grant).outcome.Granted? && Run(s, Next(s, w, grant), es, t)
    && e.Refreshing? && e.token == Answer(s, w, grant).outcome.refresh && e.fingerprint == grant.fingerprint
    && (forall e' | e' in es ::
          Spares(e', e.token.jti, RefreshKey(e.token.sub, e.token.deviceId, e.token.jti, HashFp(s, e.fingerprint))))
    && t.db.now < e.token.exp * 1000 && WithinLimit(t.db, e.token.deviceId)
  }

  ghost predicate AlwaysHonoured(s: Settings)
  {
    forall w, grant, es, t, e | HonestUse(s, w, grant, es, t, e) :: Answer(s, t, e).outcome.Granted?
  }

  // The failing run: log in, rotate once, wait past the cap, present.

  const NO_ONE := World(Db(0, map[], map[], []), {}, [], [], map[], [])

  const LOGIN := Issue("u", "d", "f", "a", "b")

  function FirstToken(s: Settings): Claims
  {
    RefreshClaims(s, "u", "d", "b", 0)
  }

  function SecondToken(s: Settings): Claims
  {
    RefreshClaims(s, "u", "d", "c", 0)
  }

  function Rotation(s: Settings): Event
  {
    Refreshing(FirstToken(s), "f", "a", "c")
  }

  function Presentation(s: Settings): Event
  {
    Refreshing(SecondToken(s), "f", "a", "e")
  }

  function LoggedIn(s: Settings): World
  {
    Next(s, NO_ONE, LOGIN)
  }

  function RotatedOnce(s: Settings): World
  {
    Next(s, LoggedIn(s), Rotation(s))
  }

  function KeyFor(s: Settings, jti: string): string
    requires HasSecret(s)
  {
    RefreshKey("u", "d", jti, HashFp(s, "f"))
  }

  /** With a positive base lifetime no uuid in play is taken, and the runs start from nothing. */
  lemma NoOneReachable(s: Settings)
    requires HexDigests(s)
    ensures Reachable(s, NO_ONE) && Possible(NO_ONE, LOGIN)
  {
    assert Initial(NO_ONE) && Run(s, NO_ONE, [], NO_ONE);
  }

  lemma AfterLogin(s: Settings)
    requires HasSecret(s) && s.baseMinutes > 0
    ensures
      var w := LoggedIn(s);
      && Answer(s, NO_ONE, LOGIN).outcome.Granted? && Answer(s, NO_ONE, LOGIN).outcome.refresh == FirstToken(s)
      && w.db == WithText(NO_ONE.db, KeyFor(s, "b"), "1", s.baseMinutes * 60)
      && FirstToken(s) in w.signed && "b" in w.origins && |w.origins| == 1
  {
  }

  lemma TokenTimes(s: Settings)
    requires s.baseMinutes > 0
    ensures FirstToken(s).exp == s.baseMinutes * 60 == SecondToken(s).exp
    ensures FirstToken(s).issued == 0 == SecondToken(s).issued
  {
  }

  /** Whatever the leeway, the first token verifies right after the login. */
  lemma FirstVerifies(s: Settings)
    requires HasSecret(s) && s.baseMinutes > 0
    ensures Verifies(s, LoggedIn(s).signed, FirstToken(s), Refresh, 0)
    ensures Live(LoggedIn(s).db.texts, KeyFor(s, "b"), 0) && WithinLimit(LoggedIn(s).db, "d")
  {
    AfterLogin(s);
    TokenTimes(s);
    hide LoggedIn;
  }

  lemma RotationSigns(s: Settings)
    requires HasSecret(s) && s.baseMinutes > 0
    ensures Signs(Answer(s, LoggedIn(s), Rotation(s)).outcome) && LoggedIn(s).db.now == 0
  {
    AfterLogin(s);
    FirstVerifies(s);
    hide LoggedIn, Answer;
    KeyDecides(s, LoggedIn(s), Rotation(s));
  }

  lemma RotationPossible(s: Settings)
    requires HasSecret(s) && s.baseMinutes > 0
    ensures Possible(LoggedIn(s), Rotation(s))
  {
    AfterLogin(s);
    assert forall j | j in LoggedIn(s).origins :: j == "b";
  }

  /** With a cap of zero or less the rotation itself fails: it deletes the old key, signs a new
      pair, and the store refuses the new key. */
  lemma NoCapFails(s: Settings)
    requires HexDigests(s) && HasSecret(s) && s.baseMinutes > 0 && s.maxMinutes <= 0
    ensures HonestUse(s, NO_ONE, LOGIN, [], LoggedIn(s), Rotation(s))
    ensures !Answer(s, LoggedIn(s), Rotation(s)).outcome.Granted?
  {
    NoOneReachable(s);
    AfterLogin(s);
    FirstVerifies(s);
    TokenTimes(s);
    RotationSigns(s);
    RefreshCases(s, LoggedIn(s), Rotation(s));
    assert Run(s, LoggedIn(s), [], LoggedIn(s));
    hide Answer, LoggedIn, FirstToken, Reachable, Run;
    assert SlidingTtl(s, Ttl(LoggedIn(s).db, KeyFor(s, "b"))) <= s.maxMinutes * 60;
  }

  /** What the rotation leaves: a key that lives at most to the cap, and one counted attempt. */
  lemma AfterRotation(s: Settings)
    requires HexDigests(s) && HasSecret(s) && 0 < s.baseMinutes && 0 < s.maxMinutes
    ensures
      var r := Answer(s, LoggedIn(s), Rotation(s));
      && r.outcome.Granted? && r.outcome.refresh == SecondToken(s) && SecondToken(s) in r.signed
      && r.db.now == 0 && KeyFor(s, "c") in r.db.texts
      && r.db.texts[KeyFor(s, "c")].deadline.Some?
      && r.db.texts[KeyFor(s, "c")].deadline.value <= s.maxMinutes * 60000
  {
    RotationSigns(s);
    RefreshCases(s, LoggedIn(s), Rotation(s));
    hide Answer, LoggedIn, RefreshKey;
    var ttl := SlidingTtl(s, Ttl(LoggedIn(s).db, KeyFor(s, "b")));
    assert 0 < ttl <= s.maxMinutes * 60;
  }

  lemma OneAttempt(s: Settings, now: int)
    requires HasSecret(s) && s.baseMinutes > 0
    ensures
      var db := Answer(s, LoggedIn(s), Rotation(s)).db;
      Live(db.counts, AttemptsKey("d"), now) ==> db.counts[AttemptsKey("d")].value == 1
  {
    AfterLogin(s);
    FirstVerifies(s);
    hide LoggedIn, FirstToken, SlidingTtl;
  }

  lemma RotationKept(s: Settings)
    requires HasSecret(s) && s.baseMinutes > 0 && Answer(s, LoggedIn(s), Rotation(s)).outcome.Granted?
    ensures
      var r := Answer(s, LoggedIn(s), Rotation(s));
      RotatedOnce(s).db == r.db && RotatedOnce(s).signed == r.signed
  {
    AfterLogin(s);
    hide Answer, LoggedIn;
  }

  /** With a positive cap below the base lifetime: the second token's key lapses just after the cap,
      while the token itself is good for longer. */
  lemma LowCapFails(s: Settings, wait: nat, t: World)
    requires HexDigests(s) && HasSecret(s) && 0 < s.maxMinutes < s.baseMinutes
    requires wait == s.maxMinutes * 60000 + 1 && t == Next(s, RotatedOnce(s), Tick(wait))
    ensures HonestUse(s, LoggedIn(s), Rotation(s), [Tick(wait)], t, Presentation(s))
    ensures Answer(s, t, Presentation(s)).outcome == Failed(ReusedOrRevoked)
  {
    NoOneReachable(s);
    ReachableStep(s, NO_ONE, LOGIN);
    RotationPossible(s);
    AfterRotation(s);
    RotationKept(s);
    OneAttempt(s, wait);
    TokenTimes(s);
    hide Answer, LoggedIn, FirstToken, SecondToken, Reachable, HexDigests, RefreshKey;
    assert Run(s, t, [], t) && [Tick(wait)][1..] == [];
    assert Run(s, RotatedOnce(s), [Tick(wait)], t);
    assert Verifies(s, t.signed, SecondToken(s), Refresh, wait);
    KeyDecides(s, t, Presentation(s));
  }

  /** Nothing is granted without a positive base lifetime. */
  lemma GrantNeedsLifetime(s: Settings, w: World, grant: Event)
    requires Reachable(s, w) && Possible(w, grant) && (grant.Issue? || grant.Refreshing?)
    requires Answer(s, w, grant).outcome.Granted?
    ensures s.baseMinutes > 0
  {
    GrantedTokenHasKey(s, w, grant);
    ReachableStep(s, w, grant);
    ReachableInv(s, Next(s, w, grant));
  }

  /** Every honest use of every run is served exactly when the base lifetime does not exceed the
      cap, or no token is ever granted. */
  lemma HonouredExactlyWhen(s: Settings)
    requires HexDigests(s)
    ensures AlwaysHonoured(s) <==> s.baseMinutes <= s.maxMinutes || s.baseMinutes <= 0 || !HasSecret(s)
  {
    if s.baseMinutes <= s.maxMinutes || s.baseMinutes <= 0 || !HasSecret(s) {
      forall w, grant, es, t, e | HonestUse(s, w, grant, es, t, e)
        ensures Answer(s, t, e).outcome.Granted?
      {
        GrantNeedsLifetime(s, w, grant);
        GrantedTokenIsHonoured(s, w, grant, es, t, e);
      }
    } else if s.maxMinutes <= 0 {
      NoCapFails(s);
    } else {
      var wait := s.maxMinutes * 60000 + 1;
      LowCapFails(s, wait, Next(s, RotatedOnce(s), Tick(wait)));
    }
  }
}
