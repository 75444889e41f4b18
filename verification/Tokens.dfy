/** Refresh tokens: issue, rotate on use with a sliding lifetime, detect reuse, revoke by
    key prefix. JWTs are unforgeable claim records, the keyed fingerprint hash is a parameter,
    and every fresh uuid is an argument. Each handler is one atomic step. */
module Tokens {
  import opened RedisStore
  import opened Glob
  import opened Numbers
  import Limiter

  datatype TokenType = Access | Refresh

  /** The claims that matter; iat and nbf are always minted equal. Instants are in seconds. */
  datatype Claims = Claims(sub: string, deviceId: string, jti: string, typ: TokenType, issued: int, exp: int)

  datatype Settings = Settings(
    secret: Option<string>,
    mac: (string, string) -> string,
    accessMinutes: int,
    baseMinutes: int,
    extendMinutes: int,
    maxMinutes: int,
    skewSeconds: int)

  datatype Failure = SecretMissing | Unauthorized | TooManyAttempts | ReusedOrRevoked | StoreRejected

  datatype Outcome = Granted(access: Claims, refresh: Claims) | Failed(reason: Failure)

  /** What a handler leaves behind: the server, all tokens ever signed, and the answer. */
  datatype Reply = Reply(db: Db, signed: set<Claims>, outcome: Outcome)

  function RefreshKey(user: string, device: string, jti: string, fpHash: string): string
  {
    "refresh:" + user + ":" + device + ":" + jti + ":" + fpHash
  }

  function PairPrefix(user: string, device: string): string
  {
    "refresh:" + user + ":" + device + ":"
  }

  function AttemptsKey(device: string): string { "refresh_attempts:" + device }

  function RevokedKey(device: string): string { "revoked:device:" + device }

  function StateKey(device: string): string { "device:" + device + ":state" }

  function OverlayKey(device: string): string { "force_overlay:" + device }

  predicate HasSecret(s: Settings)
  {
    s.secret.Some? && s.secret.value != ""
  }

  function HashFp(s: Settings, fingerprint: string): string
    requires HasSecret(s)
  {
    s.mac(s.secret.value, fingerprint)
  }

  function AccessClaims(s: Settings, user: string, device: string, jti: string, now: nat): Claims
  {
    Claims(user, device, jti, Access, now / 1000, (now + s.accessMinutes * 60000) / 1000)
  }

  function RefreshClaims(s: Settings, user: string, device: string, jti: string, now: nat): Claims
  {
    Claims(user, device, jti, Refresh, now / 1000, (now + s.baseMinutes * 60000) / 1000)
  }

  /** Signature, expiry with leeway, type, and not issued in the future. */
  predicate Verifies(s: Settings, signed: set<Claims>, token: Claims, expected: TokenType, now: nat)
  {
    var leeway := if s.skewSeconds > 0 then s.skewSeconds else 0;
    && token in signed
    && now / 1000 - leeway <= token.exp
    && token.typ == expected
    && token.issued - leeway <= now / 1000
  }

  /** The lifetime given to a rotated key, in seconds, from the reported TTL of the old one. */
  function SlidingTtl(s: Settings, ttl: int): int
  {
    var base := s.baseMinutes * 60;
    var existing := if ttl > 0 then ttl else base;
    Min(s.maxMinutes * 60, Max(base, existing + s.extendMinutes * 60))
  }

  function IssueReply(s: Settings, db: Db, signed: set<Claims>, user: string, device: string, fingerprint: string,
                      accessJti: string, refreshJti: string): Reply
  {
    if !HasSecret(s) then Reply(db, signed, Failed(SecretMissing))
    else
      var access := AccessClaims(s, user, device, accessJti, db.now);
      var refresh := RefreshClaims(s, user, device, refreshJti, db.now);
      var ttl := s.baseMinutes * 60;
      if ttl <= 0 then Reply(db, signed + {access, refresh}, Failed(StoreRejected))
      else
        Reply(WithText(db, RefreshKey(user, device, refreshJti, HashFp(s, fingerprint)), "1", ttl),
              signed + {access, refresh}, Granted(access, refresh))
  }

  /** The second half of a rotation, once the old key is gone. */
  function Rotated(s: Settings, db: Db, signed: set<Claims>, token: Claims, fpHash: string, ttl: int,
                   accessJti: string, refreshJti: string): Reply
  {
    var access := AccessClaims(s, token.sub, token.deviceId, accessJti, db.now);
    var refresh := RefreshClaims(s, token.sub, token.deviceId, refreshJti, db.now);
    if ttl <= 0 then Reply(db, signed + {access, refresh}, Failed(StoreRejected))
    else
      Reply(WithText(db, RefreshKey(token.sub, token.deviceId, refreshJti, fpHash), "1", ttl),
            signed + {access, refresh}, Granted(access, refresh))
  }

  function RefreshReply(s: Settings, db: Db, signed: set<Claims>, token: Claims, fingerprint: string,
                        accessJti: string, refreshJti: string): Reply
  {
    if !HasSecret(s) then Reply(db, signed, Failed(SecretMissing))
    else if !Verifies(s, signed, token, Refresh, db.now) then Reply(db, signed, Failed(Unauthorized))
    else
      var (counted, allowed) := Limiter.RateCheck(db, AttemptsKey(token.deviceId), 10, 60);
      if !allowed then Reply(counted, signed, Failed(TooManyAttempts))
      else
        var fpHash := HashFp(s, fingerprint);
        var key := RefreshKey(token.sub, token.deviceId, token.jti, fpHash);
        var ttl := Ttl(counted, key);
        if ttl == -2 then
          Reply(WithText(counted, RevokedKey(token.deviceId), "1", 3600), signed, Failed(ReusedOrRevoked))
        else
          Rotated(s, Without(counted, {key}), signed, token, fpHash, SlidingTtl(s, ttl), accessJti, refreshJti)
  }

  /** The handler got as far as signing a new pair; the store may still have refused the key. */
  predicate Signs(o: Outcome)
  {
    o.Granted? || o == Failed(StoreRejected)
  }

  /** What a refresh can do to the text keys: nothing, or the reuse flag, or the exchange. */
  lemma RefreshOutcome(s: Settings, db: Db, signed: set<Claims>, token: Claims, fp: string, aj: string, rj: string)
    ensures
      var r := RefreshReply(s, db, signed, token, fp, aj, rj);
      && r.db.now == db.now
      && (r.outcome == Failed(ReusedOrRevoked) ==>
          r.db.texts == db.texts[RevokedKey(token.deviceId) := Timed("1", Some(db.now + 3600000))])
      && (!Signs(r.outcome) ==> r.signed == signed && (r.outcome != Failed(ReusedOrRevoked) ==> r.db.texts == db.texts))
      && (Signs(r.outcome) ==>
          && HasSecret(s) && Verifies(s, signed, token, Refresh, db.now)
          && var h := HashFp(s, fp);
          var key := RefreshKey(token.sub, token.deviceId, token.jti, h);
          var c := RefreshClaims(s, token.sub, token.deviceId, rj, db.now);
          var ttl := SlidingTtl(s, Ttl(db, key));
          && Live(db.texts, key, db.now)
          && r.signed == signed + {AccessClaims(s, token.sub, token.deviceId, aj, db.now), c}
          && (r.outcome.Granted? <==> ttl > 0) && (r.outcome.Granted? ==> r.outcome.refresh == c)
          && r.db.texts == if ttl <= 0 then db.texts - {key} else
                             (db.texts - {key})[RefreshKey(c.sub, c.deviceId, c.jti, h) :=
                               Timed("1", Some(db.now + ttl * 1000))])
  {
    hide RefreshKey, RevokedKey, AttemptsKey, SlidingTtl, Verifies;
  }

  /** The keys the revoke pattern of a pair matches, lapsed ones included. */
  function Selected(db: Db, user: string, device: string): set<string>
  {
    set k | k in db.texts && Matches(PairPrefix(user, device) + "*", k)
  }

  function RevokeEffect(db: Db, user: string, device: string, publishBlock: bool): Db
  {
    var revoked := Without(db, Selected(db, user, device));
    var told := if publishBlock then Published(revoked, "block:" + device + ":logout") else revoked;
    WithText(WithText(WithText(told, StateKey(device), "blocked", 3600),
                      RevokedKey(device), "1", 3600),
             OverlayKey(device), "1", 3600)
  }

  /** A full iteration, from cursor 0 back to cursor 0, as the slots each call visits: every key
      present throughout is in a slot that some call visits, perhaps in several. */
  ghost predicate ScanContract(db: Db, slots: seq<set<string>>)
  {
    slots != [] && forall k | k in db.texts :: exists b :: b in slots && k in b
  }

  /** Whether a key the pattern matches is left after the loop: it was there from the start, or another
      task wrote it, and from then on no call visited it and no other task removed it. */
  predicate LeftFrom(slots: seq<set<string>>, others: seq<Interference>, k: string, from: nat)
    requires |slots| == |others|
  {
    forall j | from <= j < |slots| :: k !in slots[j] && k !in others[j].removes
  }

  predicate WrittenAndLeft(slots: seq<set<string>>, others: seq<Interference>, k: string, i: nat)
    requires |slots| == |others|
  {
    i < |slots| && k in others[i].writes && k !in slots[i] && LeftFrom(slots, others, k, i + 1)
  }

  function Removal(db: Db, pattern: string, slot: set<string>): set<string>
  {
    set k | k in slot && k in db.texts && Matches(pattern, k)
  }

  /** The store after a SCAN loop that deletes what it is given: before each call other tasks
      interfere, then the matching keys of the visited slots go. */
  function Swept(db: Db, pattern: string, slots: seq<set<string>>, others: seq<Interference>): Db
    requires |slots| == |others|
  {
    if slots == [] then db
    else
      var n := |slots| - 1;
      var met := Disturbed(Swept(db, pattern, slots[..n], others[..n]), others[n]);
      Without(met, Removal(met, pattern, slots[n]))
  }

  /** One call and the deletion of what it yields: the lapsed matching keys it drops and the live
      ones it yields are all the matching keys of its slots. */
  lemma ScanRemoves(db: Db, pattern: string, slot: set<string>, yielded: set<string>)
    requires yielded == set k | k in slot && Live(db.texts, k, db.now) && Matches(pattern, k)
    ensures Without(Without(db, LapsedIn(db.texts, db.now, pattern, slot)), yielded)
         == Without(db, Removal(db, pattern, slot))
  {
    hide Matches;
    assert LapsedIn(db.texts, db.now, pattern, slot) + yielded == Removal(db, pattern, slot);
    assert db.texts - LapsedIn(db.texts, db.now, pattern, slot) - yielded
        == db.texts - Removal(db, pattern, slot);
  }

  lemma {:induction false} LeftWhenKept(db: Db, pattern: string, slots: seq<set<string>>, others: seq<Interference>,
                                        k: string)
    requires |slots| == |others| && k in db.texts && LeftFrom(slots, others, k, 0)
    ensures k in Swept(db, pattern, slots, others).texts
  {
    if slots == [] {
    } else {
      var n := |slots| - 1;
      LeftWhenKept(db, pattern, slots[..n], others[..n], k);
    }
  }

  lemma {:induction false} LeftWhenWritten(db: Db, pattern: string, slots: seq<set<string>>,
                                           others: seq<Interference>, k: string, i: nat)
    requires |slots| == |others| && WrittenAndLeft(slots, others, k, i)
    ensures k in Swept(db, pattern, slots, others).texts
  {
    var n := |slots| - 1;
    if i < n {
      LeftWhenWritten(db, pattern, slots[..n], others[..n], k, i);
    }
  }

  /** A key left after the last call was not visited by it, and was there before or written then. */
  lemma LeftByLast(db: Db, pattern: string, slots: seq<set<string>>, others: seq<Interference>, k: string, n: nat)
    requires |slots| == |others| == n + 1
    requires Matches(pattern, k) && k in Swept(db, pattern, slots, others).texts
    ensures k !in slots[n]
    ensures k in others[n].writes
            || (k in Swept(db, pattern, slots[..n], others[..n]).texts && k !in others[n].removes)
  {
    hide Matches;
  }

  lemma LeftLonger(slots: seq<set<string>>, others: seq<Interference>, k: string, n: nat)
    requires |slots| == |others| == n + 1 && k !in slots[n] && k !in others[n].removes
    ensures LeftFrom(slots[..n], others[..n], k, 0) ==> LeftFrom(slots, others, k, 0)
    ensures forall i | WrittenAndLeft(slots[..n], others[..n], k, i) :: WrittenAndLeft(slots, others, k, i)
  {
  }

  lemma {:induction false} OriginOfLeft(db: Db, pattern: string, slots: seq<set<string>>, others: seq<Interference>,
                                        k: string)
    requires |slots| == |others| && Matches(pattern, k) && k in Swept(db, pattern, slots, others).texts
    ensures (k in db.texts && LeftFrom(slots, others, k, 0)) || exists i :: WrittenAndLeft(slots, others, k, i)
  {
    if slots == [] {
    } else {
      var n := |slots| - 1;
      LeftByLast(db, pattern, slots, others, k, n);
      if k in others[n].writes {
        assert WrittenAndLeft(slots, others, k, n);
      } else {
        hide Matches, Swept, LeftFrom, WrittenAndLeft;
        OriginOfLeft(db, pattern, slots[..n], others[..n], k);
        LeftLonger(slots, others, k, n);
      }
    }
  }

  /** Which keys of the pair can survive a revocation that other tasks interleave with: exactly those
      there from the start or written by another task, and neither visited nor removed after that. */
  lemma SurvivorsExactly(db: Db, pattern: string, slots: seq<set<string>>, others: seq<Interference>, k: string)
    requires |slots| == |others| && Matches(pattern, k)
    ensures k in Swept(db, pattern, slots, others).texts
       <==> (k in db.texts && LeftFrom(slots, others, k, 0)) || exists i :: WrittenAndLeft(slots, others, k, i)
  {
    if k in Swept(db, pattern, slots, others).texts {
      OriginOfLeft(db, pattern, slots, others, k);
    } else {
      if k in db.texts && LeftFrom(slots, others, k, 0) {
        LeftWhenKept(db, pattern, slots, others, k);
      }
      if i :| WrittenAndLeft(slots, others, k, i) {
        LeftWhenWritten(db, pattern, slots, others, k, i);
      }
    }
  }

  /** So a full iteration deletes every key of the pair that no other task writes meanwhile. */
  lemma PresentKeysAreDeleted(db: Db, pattern: string, slots: seq<set<string>>, others: seq<Interference>, k: string)
    requires |slots| == |others| && Matches(pattern, k) && forall o | o in others :: k !in o.writes
    requires k in db.texts && (forall o | o in others :: k !in o.removes) ==> exists b :: b in slots && k in b
    ensures k !in Swept(db, pattern, slots, others).texts
  {
    SurvivorsExactly(db, pattern, slots, others, k);
    hide Matches, Swept;
    assert forall i | 0 <= i < |others| :: others[i] in others;
  }

  /** And touches nothing else. */
  lemma {:induction false} SweptSparesOthers(db: Db, pattern: string, slots: seq<set<string>>,
                                             others: seq<Interference>, k: string)
    requires |slots| == |others| && !Matches(pattern, k)
    requires forall o | o in others :: k !in o.writes && k !in o.removes
    ensures
      var after := Swept(db, pattern, slots, others);
      && (k in after.texts <==> k in db.texts) && (k in after.texts ==> after.texts[k] == db.texts[k])
      && after.now == db.now && after.counts == db.counts && after.channel == db.channel
  {
    hide Matches;
    if slots == [] {
    } else {
      var n := |slots| - 1;
      assert others[n] in others && forall o | o in others[..n] :: o in others;
      SweptSparesOthers(db, pattern, slots[..n], others[..n], k);
    }
  }

  // Without interference.

  const QUIET := Interference(map[], {})

  /** What the calls so far have met. */
  function Met(db: Db, pattern: string, slots: seq<set<string>>): set<string>
  {
    set b, k | b in slots && k in b && k in db.texts && Matches(pattern, k) :: k
  }

  lemma MetMore(db: Db, pattern: string, slots: seq<set<string>>, n: nat)
    requires |slots| == n + 1
    ensures Met(db, pattern, slots) == Met(db, pattern, slots[..n]) + Removal(db, pattern, slots[n])
  {
    hide Matches;
    assert slots == slots[..n] + [slots[n]];
  }

  /** A quiet call removes the matching keys of its slot, given what is left to remove. */
  lemma QuietCall(db: Db, pattern: string, gone: set<string>, slot: set<string>)
    ensures
      var met := Disturbed(Without(db, gone), QUIET);
      Without(met, Removal(met, pattern, slot)) == Without(db, gone + Removal(db, pattern, slot))
  {
    hide Matches;
    var left := db.texts - gone;
    assert left - {} + map[] == left;
    assert left - Removal(Without(db, gone), pattern, slot) == db.texts - (gone + Removal(db, pattern, slot));
  }

  lemma {:induction false} SweptQuietly(db: Db, pattern: string, slots: seq<set<string>>, others: seq<Interference>)
    requires |slots| == |others| && forall o | o in others :: o == QUIET
    ensures Swept(db, pattern, slots, others) == Without(db, Met(db, pattern, slots))
  {
    if slots == [] {
      assert db.texts - Met(db, pattern, slots) == db.texts;
    } else {
      var n := |slots| - 1;
      assert others[n] in others && forall o | o in others[..n] :: o in others;
      hide Matches, Met, Removal, Disturbed, Without;
      SweptQuietly(db, pattern, slots[..n], others[..n]);
      QuietCall(db, pattern, Met(db, pattern, slots[..n]), slots[n]);
      MetMore(db, pattern, slots, n);
    }
  }

  lemma MetAll(db: Db, user: string, device: string, slots: seq<set<string>>)
    requires ScanContract(db, slots)
    ensures Met(db, PairPrefix(user, device) + "*", slots) == Selected(db, user, device)
  {
    hide Matches;
  }

  /** One more call of the loop. */
  lemma SweptMore(db: Db, pattern: string, slots: seq<set<string>>, others: seq<Interference>, n: nat)
    requires n < |slots| == |others|
    ensures
      var met := Disturbed(Swept(db, pattern, slots[..n], others[..n]), others[n]);
      Swept(db, pattern, slots[..n + 1], others[..n + 1]) == Without(met, Removal(met, pattern, slots[n]))
  {
    assert slots[..n + 1][..n] == slots[..n] && others[..n + 1][..n] == others[..n];
    hide Matches, Removal, Disturbed, Without;
  }

  /** The order of a revocation: the publish first, then the three flags. */
  function RevokeJournal(device: string, publishBlock: bool): seq<Command>
  {
    (if publishBlock then [Announced("block:" + device + ":logout")] else [])
    + [Wrote("device:" + device + ":state"), Wrote("revoked:device:" + device), Wrote("force_overlay:" + device)]
  }

  lemma NothingYielded(db: Db)
    ensures Without(db, {}) == db
  {
    assert db.texts - {} == db.texts;
  }

  class TokenService {
    const settings: Settings
    const redis: Redis
    /** Everything the signing key has signed; nothing else verifies. */
    var signed: set<Claims>

    constructor (settings: Settings, redis: Redis)
      ensures this.settings == settings && this.redis == redis && signed == {}
    {
      this.settings, this.redis := settings, redis;
      signed := {};
    }

    method IssueTokens(user: string, device: string, fingerprint: string, accessJti: string, refreshJti: string)
      returns (outcome: Outcome)
      modifies this, redis
      ensures Reply(redis.Snapshot(), signed, outcome)
           == IssueReply(settings, old(redis.Snapshot()), old(signed), user, device, fingerprint, accessJti, refreshJti)
    {
      if !HasSecret(settings) {
        return Failed(SecretMissing);
      }
      var fpHash := HashFp(settings, fingerprint);
      var access := AccessClaims(settings, user, device, accessJti, redis.now);
      var refresh := RefreshClaims(settings, user, device, refreshJti, redis.now);
      signed := signed + {access, refresh};
      var ttlSeconds := settings.baseMinutes * 60;
      var ok := redis.Set(RefreshKey(user, device, refreshJti, fpHash), "1", ttlSeconds);
      outcome := if ok then Granted(access, refresh) else Failed(StoreRejected);
    }

    method RefreshTokens(token: Claims, fingerprint: string, accessJti: string, refreshJti: string)
      returns (outcome: Outcome)
      modifies this, redis
      ensures Reply(redis.Snapshot(), signed, outcome)
           == RefreshReply(settings, old(redis.Snapshot()), old(signed), token, fingerprint, accessJti, refreshJti)
    {
      if !HasSecret(settings) {
        return Failed(SecretMissing);
      }
      if !Verifies(settings, signed, token, Refresh, redis.now) {
        return Failed(Unauthorized);
      }
      var fpHash := HashFp(settings, fingerprint);
      var allowed := Limiter.CheckRateLimit(redis, AttemptsKey(token.deviceId), 10, 60);
      if !allowed {
        return Failed(TooManyAttempts);
      }
      var key := RefreshKey(token.sub, token.deviceId, token.jti, fpHash);
      var ttlSeconds := redis.TimeToLive(key);
      if ttlSeconds == -2 {
        var _ := redis.Set(RevokedKey(token.deviceId), "1", 3600);
        return Failed(ReusedOrRevoked);
      }
      redis.Delete({key});
      var newTtl := SlidingTtl(settings, ttlSeconds);
      var access := AccessClaims(settings, token.sub, token.deviceId, accessJti, redis.now);
      var refresh := RefreshClaims(settings, token.sub, token.deviceId, refreshJti, redis.now);
      signed := signed + {access, refresh};
      var ok := redis.Set(RefreshKey(token.sub, token.deviceId, refreshJti, fpHash), "1", newTtl);
      outcome := if ok then Granted(access, refresh) else Failed(StoreRejected);
    }

    /** One call of the loop, after what other tasks did: the keys it yields are deleted. */
    method SweepOnce(pattern: string, slot: set<string>, other: Interference)
      modifies redis`texts
      ensures
        var met := Disturbed(old(redis.Snapshot()), other);
        redis.Snapshot() == Without(met, Removal(met, pattern, slot))
    {
      hide Matches, Removal, Live, LapsedIn, Without, Disturbed;
      redis.Disturb(other);
      ghost var met := redis.Snapshot();
      var keys := redis.Scan(pattern, slot);
      ScanRemoves(met, pattern, slot, keys);
      if keys != {} {
        redis.Delete(keys);
      } else {
        NothingYielded(redis.Snapshot());
      }
    }

    /** The SCAN loop, whatever slots the server visits in each call and whatever other tasks do to
        the keys before each call. */
    method RevokeDeviceTokens(user: string, device: string, slots: seq<set<string>>, others: seq<Interference>)
      requires slots != [] && |slots| == |others|
      modifies redis`texts
      ensures redis.Snapshot() == Swept(old(redis.Snapshot()), PairPrefix(user, device) + "*", slots, others)
    {
      ghost var before := redis.Snapshot();
      var pattern := PairPrefix(user, device) + "*";
      var cursor, calls := 0, 0;
      assert Swept(before, pattern, slots[..0], others[..0]) == before;
      hide *;
      while calls == 0 || cursor != 0
        invariant calls <= |slots| && cursor == (if calls == |slots| then 0 else calls)
        invariant redis.Snapshot() == Swept(before, pattern, slots[..calls], others[..calls])
        decreases |slots| - calls
      {
        SweptMore(before, pattern, slots, others, calls);
        SweepOnce(pattern, slots[calls], others[calls]);
        calls := calls + 1;
        cursor := if calls < |slots| then calls else 0;
      }
      assert slots[..|slots|] == slots && others[..|slots|] == others;
    }

    method RevokeAndBlock(user: string, device: string, publishBlock: bool, slots: seq<set<string>>)
      requires ScanContract(redis.Snapshot(), slots)
      modifies redis
      ensures redis.Snapshot() == RevokeEffect(old(redis.Snapshot()), user, device, publishBlock)
      ensures redis.journal == old(redis.journal) + RevokeJournal(device, publishBlock)
    {
      var others := seq(|slots|, _ => QUIET);
      SweptQuietly(redis.Snapshot(), PairPrefix(user, device) + "*", slots, others);
      MetAll(redis.Snapshot(), user, device, slots);
      RevokeDeviceTokens(user, device, slots, others);
      if publishBlock {
        redis.Publish("block:" + device + ":logout");
      }
      var _ := redis.Set(StateKey(device), "blocked", 3600);
      var _ := redis.Set(RevokedKey(device), "1", 3600);
      var _ := redis.Set(OverlayKey(device), "1", 3600);
    }
  }

  // What the key layout and the revoke pattern guarantee.

  /** The last two fields of a key are recoverable whatever the ids contain. */
  lemma KeyFields(u: string, d: string, j: string, f: string, u': string, d': string, j': string, f': string)
    requires NoColon(j) && NoColon(f) && NoColon(j') && NoColon(f')
    requires RefreshKey(u, d, j, f) == RefreshKey(u', d', j', f')
    ensures j == j' && f == f' && PairPrefix(u, d) == PairPrefix(u', d')
  {
    var a, b := PairPrefix(u, d), PairPrefix(u', d');
    assert RefreshKey(u, d, j, f) == (a + j) + ":" + f && RefreshKey(u', d', j', f') == (b + j') + ":" + f';
    LastColon(a + j, f, b + j', f');
    var c, e := "refresh:" + u + ":" + d, "refresh:" + u' + ":" + d';
    assert a + j == c + ":" + j && b + j' == e + ":" + j';
    LastColon(c, j, e, j');
  }

  lemma PairFields(u: string, d: string, u': string, d': string)
    requires NoColon(u) && NoColon(u') && PairPrefix(u, d) == PairPrefix(u', d')
    ensures u == u' && d == d'
  {
    var a, b := PairPrefix(u, d), PairPrefix(u', d');
    assert a[8..] == u + ":" + (d + ":") && b[8..] == u' + ":" + (d' + ":");
    FirstColon(u, d + ":", u', d' + ":");
    assert d == (d + ":")[..|d|] && d' == (d' + ":")[..|d'|];
  }

  lemma PrefixOfPair(u: string, d: string, u': string, d': string, tail: string)
    requires NoColon(u) && NoColon(d) && NoColon(u') && NoColon(d')
    ensures PairPrefix(u, d) <= PairPrefix(u', d') + tail <==> u == u' && d == d'
  {
    var p, k := PairPrefix(u, d), PairPrefix(u', d') + tail;
    if p <= k {
      var rest := k[|p|..];
      assert k == p + rest;
      assert (p + rest)[8..] == u + ":" + (d + ":" + rest);
      assert k[8..] == u' + ":" + (d' + ":" + tail);
      hide PairPrefix;
      FirstColon(u, d + ":" + rest, u', d' + ":" + tail);
      FirstColon(d, rest, d', tail);
    }
  }

  lemma PlainPattern(u: string, d: string)
    requires Plain(u) && Plain(d)
    ensures Plain(PairPrefix(u, d))
  {
    assert Plain("refresh:") && Plain(":");
  }

  /** For ids without colons, and a pair without glob characters, the revoke pattern selects
      exactly the keys of that pair. */
  lemma PatternSelectsExactlyThePair(u: string, d: string, u': string, d': string, j: string, f: string)
    requires NoColon(u) && NoColon(d) && NoColon(u') && NoColon(d') && Plain(u) && Plain(d)
    ensures Matches(PairPrefix(u, d) + "*", RefreshKey(u', d', j, f)) <==> u == u' && d == d'
  {
    assert RefreshKey(u', d', j, f) == PairPrefix(u', d') + (j + ":" + f);
    hide PairPrefix, RefreshKey, Matches;
    PlainPattern(u, d);
    PlainPrefix(PairPrefix(u, d), RefreshKey(u', d', j, f));
    PrefixOfPair(u, d, u', d', j + ":" + f);
  }

  /** Without '[' and '\' in the ids the pattern at least selects all keys of its own pair. */
  lemma PatternSelectsOwnKeys(u: string, d: string, j: string, f: string)
    requires SelfMatching(u) && SelfMatching(d)
    ensures Matches(PairPrefix(u, d) + "*", RefreshKey(u, d, j, f))
  {
    assert SelfMatching("refresh:") && SelfMatching(":");
    OwnPrefix(PairPrefix(u, d), j + ":" + f);
    assert RefreshKey(u, d, j, f) == PairPrefix(u, d) + (j + ":" + f);
  }

  lemma {:induction false} CommonLiteral(lit: string, p: string, s: string)
    requires Plain(lit)
    ensures Matches(lit + p, lit + s) <==> Matches(p, s)
  {
    if lit == "" {
      assert lit + p == p && lit + s == s;
    } else {
      assert lit[0] in lit && forall c | c in lit[1..] :: c in lit;
      assert (lit + p)[1..] == lit[1..] + p && (lit + s)[1..] == lit[1..] + s;
      CommonLiteral(lit[1..], p, s);
    }
  }

  lemma StarSelectsAnother()
    ensures Matches("*:*", "d:j:f")
  {
    StarMatchesAll("j:f");
    assert Matches(":*", ":j:f") by { assert ":*"[1..] == "*" && ":j:f"[1..] == "j:f"; }
    assert Matches("*:*", ":j:f") by { assert "*:*"[1..] == ":*"; }
    assert Matches("*:*", "d:j:f") by { assert "d:j:f"[1..] == ":j:f"; }
  }

  lemma BackslashMissesItself()
    ensures !Matches("\\d:*", "\\d:j:f")
  {
  }

  /** Neither condition can be dropped: a star in the device id selects other devices, and a
      backslash makes the pattern miss the device's own keys. */
  lemma GlobCharactersBreakRevocation()
    ensures Matches(PairPrefix("u", "*") + "*", RefreshKey("u", "d", "j", "f"))
    ensures !Matches(PairPrefix("u", "\\d") + "*", RefreshKey("u", "\\d", "j", "f"))
  {
    hide Matches;
    var own := "refresh:u:";
    assert PairPrefix("u", "*") + "*" == own + "*:*" && RefreshKey("u", "d", "j", "f") == own + "d:j:f";
    StarSelectsAnother();
    CommonLiteral(own, "*:*", "d:j:f");
    assert PairPrefix("u", "\\d") + "*" == own + "\\d:*" && RefreshKey("u", "\\d", "j", "f") == own + "\\d:j:f";
    BackslashMissesItself();
    CommonLiteral(own, "\\d:*", "\\d:j:f");
  }

  /** A rotated key lives to the end of its token's exp, whatever lifetime was left on the old
      key, exactly when the base lifetime does not exceed the cap. */
  lemma RotatedKeyOutlivesToken(s: Settings, now: nat)
    ensures
      (forall ttl: int :: RefreshClaims(s, "", "", "", now).exp * 1000 <= now + SlidingTtl(s, ttl) * 1000)
      <==> s.baseMinutes <= s.maxMinutes
  {
    var exp := RefreshClaims(s, "", "", "", now).exp;
    if s.baseMinutes <= s.maxMinutes {
      forall ttl: int
        ensures exp * 1000 <= now + SlidingTtl(s, ttl) * 1000
      {
        assert s.baseMinutes * 60 <= SlidingTtl(s, ttl);
      }
    } else {
      assert SlidingTtl(s, 1) <= s.maxMinutes * 60;
      assert now + SlidingTtl(s, 1) * 1000 < exp * 1000;
    }
  }

  /** With base <= cap and a non-negative extension, the new lifetime is what was left plus the
      extension, raised to the base and cut at the cap; a key that reports no time left counts as
      having the whole base left. */
  lemma SlidingTtlBounds(s: Settings, ttl: int)
    requires s.baseMinutes <= s.maxMinutes && s.extendMinutes >= 0
    ensures
      var base, cap, extend := s.baseMinutes * 60, s.maxMinutes * 60, s.extendMinutes * 60;
      var next := SlidingTtl(s, ttl);
      && base <= next <= cap
      && (0 < ttl <= cap ==> ttl <= next)
      && (0 < ttl <= base - extend ==> next == base)
      && (0 < ttl && base - extend <= ttl <= cap - extend ==> next == ttl + extend)
      && (0 < ttl && cap - extend <= ttl ==> next == cap)
      && (ttl <= 0 ==> next == SlidingTtl(s, base))
  {
  }

  // What each handler refuses, in terms of its inputs.

  /** Both handlers need a non-empty fingerprint secret, and without one they do nothing. */
  lemma SecretMissingExactlyWhen(s: Settings, db: Db, signed: set<Claims>, user: string, device: string,
                                 token: Claims, fp: string, aj: string, rj: string)
    ensures
      var missing := s.secret == None || s.secret == Some("");
      var issued := IssueReply(s, db, signed, user, device, fp, aj, rj);
      var refreshed := RefreshReply(s, db, signed, token, fp, aj, rj);
      && (issued.outcome == Failed(SecretMissing) <==> missing)
      && (refreshed.outcome == Failed(SecretMissing) <==> missing)
      && (missing ==> issued.db == refreshed.db == db && issued.signed == refreshed.signed == signed)
  {
    hide Verifies, RefreshKey, SlidingTtl;
  }

  /** A refresh is unauthorised exactly when its token was never signed, is not a refresh token, is
      past its exp by more than the skew, or was issued further in the future than the skew; the
      handler then does nothing. */
  lemma UnauthorizedExactlyWhen(s: Settings, db: Db, signed: set<Claims>, token: Claims, fp: string, aj: string,
                                rj: string)
    requires s.secret.Some? && s.secret.value != ""
    ensures
      var r := RefreshReply(s, db, signed, token, fp, aj, rj);
      var clock, skew := db.now / 1000, if s.skewSeconds > 0 then s.skewSeconds else 0;
      && (r.outcome == Failed(Unauthorized) <==>
          token !in signed || token.typ != Refresh || token.exp + skew < clock || clock + skew < token.issued)
      && (r.outcome == Failed(Unauthorized) ==> r.db == db && r.signed == signed)
  {
    hide RefreshKey, SlidingTtl;
  }

  /** An authorised presentation is refused for its number exactly when the device's live counter
      already stands at ten; each one counts, and the first starts a window of sixty seconds. */
  lemma TooManyExactlyWhen(s: Settings, db: Db, signed: set<Claims>, token: Claims, fp: string, aj: string, rj: string)
    requires s.secret.Some? && s.secret.value != ""
    requires RefreshReply(s, db, signed, token, fp, aj, rj).outcome != Failed(Unauthorized)
    ensures
      var r := RefreshReply(s, db, signed, token, fp, aj, rj);
      var key := "refresh_attempts:" + token.deviceId;
      && (r.outcome == Failed(TooManyAttempts) <==> Live(db.counts, key, db.now) && db.counts[key].value >= 10)
      && (r.outcome == Failed(TooManyAttempts) ==> r.db.texts == db.texts && r.signed == signed)
      && r.db.counts == db.counts[key :=
           if Live(db.counts, key, db.now) && db.counts[key].value != 0
           then Timed(db.counts[key].value + 1, db.counts[key].deadline)
           else Timed(1, Some(db.now + 60000))]
  {
    hide Verifies, RefreshKey, SlidingTtl;
  }

  /** A revocation flags its own device for an hour under the three keys the other handlers read,
      and leaves every other key that its pattern does not match as it was. */
  lemma RevokeFlagsItsDevice(db: Db, user: string, device: string, publishBlock: bool)
    ensures
      var after := RevokeEffect(db, user, device, publishBlock);
      var hour := Some(db.now + 3600000);
      var state, revoked := "device:" + device + ":state", "revoked:device:" + device;
      var overlay := "force_overlay:" + device;
      && state in after.texts && after.texts[state] == Timed("blocked", hour)
      && revoked in after.texts && after.texts[revoked] == Timed("1", hour)
      && overlay in after.texts && after.texts[overlay] == Timed("1", hour)
      && (forall k | k != state && k != revoked && k != overlay ::
            && (k in after.texts <==> k in db.texts && !Matches("refresh:" + user + ":" + device + ":" + "*", k))
            && (k in after.texts ==> after.texts[k] == db.texts[k]))
      && after.channel == db.channel + (if publishBlock then ["block:" + device + ":logout"] else [])
      && after.counts == db.counts && after.now == db.now
  {
    hide Matches;
    assert StateKey(device)[0] == 'd' && RevokedKey(device)[0] == 'r' && OverlayKey(device)[0] == 'f';
  }
}
