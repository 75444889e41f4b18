/** Whole runs of the token service: logins, refreshes (accepted or refused), revocations,
    passing time, and every other handler of the system touching the same server. */
module TokenRuns {
  import opened RedisStore
  import opened Glob
  import opened Tokens

  datatype Login = Login(user: string, device: string, fpHash: string)

  /** Where a refresh token comes from: the login it descends from, and its claims. */
  datatype Origin = Origin(login: nat, claims: Claims, fpHash: string)

  /** The server, the signed tokens, and the history: logins so far with the fingerprint each was
      made with, the origin of every refresh token by jti, and the jtis accepted by refresh so
      far, in order. */
  datatype World = World(
    db: Db,
    signed: set<Claims>,
    logins: seq<Login>,
    fingerprints: seq<string>,
    origins: map<string, Origin>,
    accepted: seq<string>)

  datatype Event =
    | Issue(user: string, device: string, fingerprint: string, accessJti: string, refreshJti: string)
    | Refreshing(token: Claims, fingerprint: string, accessJti: string, refreshJti: string)
    | Revoke(user: string, device: string, publishBlock: bool)
    | Tick(ms: nat)
    | Other(db: Db)

  const NAMESPACE := "refresh:"

  predicate Fresh(w: World, jti: string)
  {
    NoColon(jti) && jti !in w.origins
  }

  /** Uuids are fresh, and other handlers stay out of the refresh: namespace. */
  ghost predicate Possible(w: World, e: Event)
  {
    match e
    case Issue(_, _, _, _, jti) => Fresh(w, jti)
    case Refreshing(_, _, _, jti) => Fresh(w, jti)
    case Revoke(_, _, _) => true
    case Tick(_) => true
    case Other(db) =>
      && db.now == w.db.now
      && (forall k | NAMESPACE <= k :: k in db.texts <==> k in w.db.texts)
      && (forall k | NAMESPACE <= k && k in db.texts :: db.texts[k] == w.db.texts[k])
  }

  function Answer(s: Settings, w: World, e: Event): Reply
    requires e.Issue? || e.Refreshing?
  {
    match e
    case Issue(user, device, fp, aj, rj) => IssueReply(s, w.db, w.signed, user, device, fp, aj, rj)
    case Refreshing(token, fp, aj, rj) => RefreshReply(s, w.db, w.signed, token, fp, aj, rj)
  }

  /** The world with the new refresh token on record. */
  function Minted(w: World, r: Reply, jti: string, origin: Origin): World
  {
    w.(db := r.db, signed := r.signed, origins := w.origins[jti := origin])
  }

  function Next(s: Settings, w: World, e: Event): World
  {
    match e
    case Issue(user, device, fp, aj, rj) =>
      var r := Answer(s, w, e);
      if !Signs(r.outcome) then w.(db := r.db)
      else
        var h := HashFp(s, fp);
        Minted(w.(logins := w.logins + [Login(user, device, h)], fingerprints := w.fingerprints + [fp]), r, rj,
               Origin(|w.logins|, RefreshClaims(s, user, device, rj, w.db.now), h))
    case Refreshing(token, fp, aj, rj) =>
      var r := Answer(s, w, e);
      if !Signs(r.outcome) || token.jti !in w.origins then w.(db := r.db)
      else
        Minted(w.(accepted := w.accepted + [token.jti]), r, rj,
               Origin(w.origins[token.jti].login, RefreshClaims(s, token.sub, token.deviceId, rj, w.db.now),
                      HashFp(s, fp)))
    case Revoke(user, device, publishBlock) => w.(db := RevokeEffect(w.db, user, device, publishBlock))
    case Tick(ms) => w.(db := w.db.(now := w.db.now + ms))
    case Other(db) => w.(db := db)
  }

  ghost predicate Run(s: Settings, w: World, es: seq<Event>, t: World)
    decreases |es|
  {
    if es == [] then w == t
    else Possible(w, es[0]) && Run(s, Next(s, w, es[0]), es[1..], t)
  }

  /** No refresh token has been signed yet, and no refresh: key exists. */
  ghost predicate Initial(w: World)
  {
    && w.signed == {} && w.logins == [] && w.fingerprints == [] && w.origins == map[] && w.accepted == []
    && forall k | NAMESPACE <= k :: k !in w.db.texts
  }

  // The invariant of every run.

  function KeyOf(o: Origin): string
  {
    RefreshKey(o.claims.sub, o.claims.deviceId, o.claims.jti, o.fpHash)
  }

  predicate Present(w: World, jti: string)
  {
    jti in w.origins && KeyOf(w.origins[jti]) in w.db.texts
  }

  ghost predicate HexDigests(s: Settings)
  {
    forall secret, fp :: NoColon(s.mac(secret, fp))
  }

  /** Every signed refresh token has an origin that agrees with its login. */
  ghost predicate OriginsOk(w: World)
  {
    && (forall c | c in w.signed && c.typ == Refresh :: c.jti in w.origins && w.origins[c.jti].claims == c)
    && (forall j | j in w.origins ::
          var o := w.origins[j];
          && o.claims.jti == j && o.claims.typ == Refresh && o.claims in w.signed
          && NoColon(j) && NoColon(o.fpHash)
          && o.login < |w.logins|
          && w.logins[o.login] == Login(o.claims.sub, o.claims.deviceId, o.fpHash))
  }

  ghost predicate Owned(w: World, key: string)
  {
    exists j :: j in w.origins && KeyOf(w.origins[j]) == key
  }

  /** Refresh keys belong to tokens, at most one per login; spent tokens have none. */
  ghost predicate KeysOk(w: World)
  {
    && (forall k | k in w.db.texts && NAMESPACE <= k :: Owned(w, k))
    && (forall j, j' | Present(w, j) && Present(w, j') && w.origins[j].login == w.origins[j'].login :: j == j')
    && (forall j | j in w.accepted :: j in w.origins && !Present(w, j))
    && (forall a, b | 0 <= a < b < |w.accepted| :: w.accepted[a] != w.accepted[b])
  }

  /** A key always has a deadline, and with base <= cap it is not before its token's exp. */
  ghost predicate DeadlinesOk(s: Settings, w: World)
  {
    forall j | Present(w, j) ::
      var entry := w.db.texts[KeyOf(w.origins[j])];
      && s.baseMinutes > 0
      && entry.deadline.Some?
      && (s.baseMinutes <= s.maxMinutes ==> w.origins[j].claims.exp * 1000 <= entry.deadline.value)
  }

  /** No token was issued in the future. */
  ghost predicate IssuedOk(w: World)
  {
    forall j | j in w.origins :: w.origins[j].claims.issued <= w.db.now / 1000
  }

  ghost predicate Inv(s: Settings, w: World)
  {
    OriginsOk(w) && KeysOk(w) && DeadlinesOk(s, w) && IssuedOk(w)
  }

  /** The refresh: keys of `db` are among those of `db0`, unchanged. */
  ghost predicate Shrinks(db0: Db, db: Db)
  {
    forall k | NAMESPACE <= k && k in db.texts :: k in db0.texts && db.texts[k] == db0.texts[k]
  }

  lemma KeyInNamespace(o: Origin)
    ensures NAMESPACE <= KeyOf(o)
  {
  }

  lemma OtherKeysOutside(device: string)
    ensures !(NAMESPACE <= RevokedKey(device))
    ensures !(NAMESPACE <= StateKey(device))
    ensures !(NAMESPACE <= OverlayKey(device))
  {
    assert RevokedKey(device)[2] == 'v' && StateKey(device)[0] == 'd' && OverlayKey(device)[0] == 'f';
  }

  /** A key names one token and one fingerprint hash. */
  lemma KeyNamesToken(w: World, j: string, c: Claims, h: string)
    requires OriginsOk(w) && j in w.origins && NoColon(c.jti) && NoColon(h)
    requires KeyOf(w.origins[j]) == RefreshKey(c.sub, c.deviceId, c.jti, h)
    ensures j == c.jti && w.origins[j].fpHash == h
  {
    var o := w.origins[j];
    KeyFields(o.claims.sub, o.claims.deviceId, o.claims.jti, o.fpHash, c.sub, c.deviceId, c.jti, h);
  }

  lemma InvShrinks(s: Settings, w: World, db: Db)
    requires Inv(s, w) && Shrinks(w.db, db) && w.db.now <= db.now
    ensures Inv(s, w.(db := db))
  {
    var t := w.(db := db);
    forall j | j in w.origins
      ensures Present(t, j) ==> Present(w, j) && db.texts[KeyOf(w.origins[j])] == w.db.texts[KeyOf(w.origins[j])]
    {
      KeyInNamespace(w.origins[j]);
    }
    forall k | k in db.texts && NAMESPACE <= k
      ensures Owned(t, k)
    {
      assert Owned(w, k);
    }
  }

  lemma InvAccepted(s: Settings, w: World, j: string)
    requires Inv(s, w) && j in w.origins && !Present(w, j) && j !in w.accepted
    ensures Inv(s, w.(accepted := w.accepted + [j]))
  {
    var t := w.(accepted := w.accepted + [j]);
    assert forall i | i in w.origins :: Present(t, i) == Present(w, i);
    assert forall k | k in w.db.texts && NAMESPACE <= k :: Owned(w, k) && Owned(t, k);
    assert KeysOk(t);
    assert DeadlinesOk(s, t);
  }

  /** Spending a token: its key goes, and it is recorded as accepted. */
  lemma InvSpent(s: Settings, w: World, j: string)
    requires Inv(s, w) && Present(w, j)
    ensures Inv(s, w.(db := Without(w.db, {KeyOf(w.origins[j])}), accepted := w.accepted + [j]))
  {
    var t := w.(db := Without(w.db, {KeyOf(w.origins[j])}));
    InvShrinks(s, w, t.db);
    InvAccepted(s, t, j);
  }

  lemma InvLogin(s: Settings, w: World, l: Login, fp: string)
    requires Inv(s, w)
    ensures Inv(s, w.(logins := w.logins + [l], fingerprints := w.fingerprints + [fp]))
  {
    var t := w.(logins := w.logins + [l], fingerprints := w.fingerprints + [fp]);
    assert forall i | i in w.origins :: Present(t, i) == Present(w, i);
    assert forall k | k in w.db.texts && NAMESPACE <= k :: Owned(w, k) && Owned(t, k);
  }

  /** Minting: a fresh token for a login without a live key. */
  ghost predicate MintOk(s: Settings, w: World, r: Reply, jti: string, o: Origin, access: Claims)
  {
    && Fresh(w, jti) && NoColon(o.fpHash)
    && o.login < |w.logins| && w.logins[o.login] == Login(o.claims.sub, o.claims.deviceId, o.fpHash)
    && o.claims.jti == jti && o.claims.typ == Refresh && access.typ == Access
    && r.signed == w.signed + {access, o.claims}
    && o.claims.issued <= w.db.now / 1000 && w.db.now == r.db.now
    && forall j | Present(w, j) :: w.origins[j].login != o.login
  }

  /** The refresh: keys are the old ones, plus perhaps the key of the minted token. */
  ghost predicate KeyWritten(s: Settings, db0: Db, db: Db, o: Origin)
  {
    && (forall k | NAMESPACE <= k && k in db.texts && k != KeyOf(o) :: k in db0.texts && db.texts[k] == db0.texts[k])
    && (KeyOf(o) in db.texts ==>
        var d := db.texts[KeyOf(o)].deadline;
        && s.baseMinutes > 0 && d.Some?
        && (s.baseMinutes <= s.maxMinutes ==> o.claims.exp * 1000 <= d.value))
  }

  lemma MintedKeyIsNew(s: Settings, w: World, r: Reply, jti: string, o: Origin, access: Claims, j: string)
    requires OriginsOk(w) && MintOk(s, w, r, jti, o, access) && KeyWritten(s, w.db, r.db, o) && j in w.origins
    ensures KeyOf(w.origins[j]) != KeyOf(o)
    ensures Present(Minted(w, r, jti, o), j) ==>
              Present(w, j) && r.db.texts[KeyOf(w.origins[j])] == w.db.texts[KeyOf(w.origins[j])]
  {
    KeyInNamespace(w.origins[j]);
    if KeyOf(w.origins[j]) == KeyOf(o) {
      KeyNamesToken(w, j, o.claims, o.fpHash);
    }
  }

  lemma MintedKeepsOrigins(s: Settings, w: World, r: Reply, jti: string, o: Origin, access: Claims)
    requires OriginsOk(w) && MintOk(s, w, r, jti, o, access)
    ensures OriginsOk(Minted(w, r, jti, o))
  {
  }

  lemma MintedKeepsKeys(s: Settings, w: World, r: Reply, jti: string, o: Origin, access: Claims)
    requires OriginsOk(w) && KeysOk(w) && MintOk(s, w, r, jti, o, access) && KeyWritten(s, w.db, r.db, o)
    ensures KeysOk(Minted(w, r, jti, o))
  {
    var t := Minted(w, r, jti, o);
    forall j, j' | Present(t, j) && Present(t, j') && t.origins[j].login == t.origins[j'].login
      ensures j == j'
    {
      if j != jti { MintedKeyIsNew(s, w, r, jti, o, access, j); }
      if j' != jti { MintedKeyIsNew(s, w, r, jti, o, access, j'); }
    }
    forall j | j in w.accepted
      ensures !Present(t, j)
    {
      MintedKeyIsNew(s, w, r, jti, o, access, j);
    }
    forall k | k in r.db.texts && NAMESPACE <= k
      ensures Owned(t, k)
    {
      if k == KeyOf(o) {
        assert t.origins[jti] == o;
      } else {
        assert Owned(w, k);
        var j :| j in w.origins && KeyOf(w.origins[j]) == k;
        assert t.origins[j] == w.origins[j];
      }
    }
  }

  lemma MintedKeepsDeadlines(s: Settings, w: World, r: Reply, jti: string, o: Origin, access: Claims)
    requires OriginsOk(w) && DeadlinesOk(s, w) && MintOk(s, w, r, jti, o, access) && KeyWritten(s, w.db, r.db, o)
    ensures DeadlinesOk(s, Minted(w, r, jti, o))
  {
    var t := Minted(w, r, jti, o);
    forall j | Present(t, j)
      ensures
        var entry := t.db.texts[KeyOf(t.origins[j])];
        && s.baseMinutes > 0
        && entry.deadline.Some?
        && (s.baseMinutes <= s.maxMinutes ==> t.origins[j].claims.exp * 1000 <= entry.deadline.value)
    {
      if j != jti {
        MintedKeyIsNew(s, w, r, jti, o, access, j);
      }
    }
  }

  lemma InvMinted(s: Settings, w: World, r: Reply, jti: string, o: Origin, access: Claims)
    requires Inv(s, w) && MintOk(s, w, r, jti, o, access) && KeyWritten(s, w.db, r.db, o)
    ensures Inv(s, Minted(w, r, jti, o))
  {
    MintedKeepsOrigins(s, w, r, jti, o, access);
    MintedKeepsKeys(s, w, r, jti, o, access);
    MintedKeepsDeadlines(s, w, r, jti, o, access);
  }

  /** What a refresh does to the refresh: keys: nothing unless it signs; if it signs, the
      presented key was live, it is deleted, and the new key may be written. */
  lemma RefreshCases(s: Settings, w: World, e: Event)
    requires e.Refreshing? && HexDigests(s)
    ensures
      var r := Answer(s, w, e);
      && (!Signs(r.outcome) ==> Shrinks(w.db, r.db) && Shrinks(r.db, w.db) && r.signed == w.signed)
      && r.db.now == w.db.now
      && (Signs(r.outcome) ==>
          HasSecret(s) &&
          var h := HashFp(s, e.fingerprint);
          var key := RefreshKey(e.token.sub, e.token.deviceId, e.token.jti, h);
          var c := RefreshClaims(s, e.token.sub, e.token.deviceId, e.refreshJti, w.db.now);
          && e.token in w.signed && e.token.typ == Refresh && NoColon(h)
          && Live(w.db.texts, key, w.db.now)
          && r.signed == w.signed + {AccessClaims(s, e.token.sub, e.token.deviceId, e.accessJti, w.db.now), c}
          && var ttl := SlidingTtl(s, Ttl(w.db, key));
          && (r.outcome.Granted? <==> ttl > 0) && (r.outcome.Granted? ==> r.outcome.refresh == c)
          && r.db.texts == if ttl <= 0 then w.db.texts - {key} else
                             (w.db.texts - {key})[RefreshKey(c.sub, c.deviceId, c.jti, h) :=
                               Timed("1", Some(w.db.now + ttl * 1000))])
  {
    OtherKeysOutside(e.token.deviceId);
    RefreshOutcome(s, w.db, w.signed, e.token, e.fingerprint, e.accessJti, e.refreshJti);
    hide RefreshReply, RefreshKey, RevokedKey, SlidingTtl, AccessClaims, RefreshClaims;
  }

  /** The live refresh: keys belong to their own tokens: whoever gets past the key check holds
      an unspent token and the fingerprint of its login. */
  lemma LiveKeyBelongs(s: Settings, w: World, token: Claims, h: string)
    requires Inv(s, w) && token in w.signed && token.typ == Refresh && NoColon(h)
    requires RefreshKey(token.sub, token.deviceId, token.jti, h) in w.db.texts
    ensures token.jti in w.origins && w.origins[token.jti].claims == token
    ensures w.origins[token.jti].fpHash == h && Present(w, token.jti)
  {
    var key := RefreshKey(token.sub, token.deviceId, token.jti, h);
    assert NAMESPACE <= key && Owned(w, key);
    var j :| j in w.origins && KeyOf(w.origins[j]) == key;
    KeyNamesToken(w, j, token, h);
  }

  /** The exchange as two moves: the presented token is spent, then a new one is minted. */
  lemma ExchangeKeepsInv(s: Settings, w: World, e: Event, v: World, o: Origin, access: Claims)
    requires e.Refreshing? && HexDigests(s) && Inv(s, v) && Signs(Answer(s, w, e).outcome) && Fresh(v, e.refreshJti)
    requires Present(w, e.token.jti) && w.origins[e.token.jti].claims == e.token
    requires w.origins[e.token.jti].fpHash == HashFp(s, e.fingerprint)
    requires v == w.(db := Without(w.db, {KeyOf(w.origins[e.token.jti])}), accepted := w.accepted + [e.token.jti])
    requires o.claims == RefreshClaims(s, e.token.sub, e.token.deviceId, e.refreshJti, w.db.now)
    requires o.login == w.origins[e.token.jti].login && o.fpHash == HashFp(s, e.fingerprint)
    requires access == AccessClaims(s, e.token.sub, e.token.deviceId, e.accessJti, w.db.now)
    requires forall j | Present(v, j) :: v.origins[j].login != o.login
    requires s.baseMinutes > 0
    ensures Inv(s, Minted(v, Answer(s, w, e), e.refreshJti, o))
  {
    var r := Answer(s, w, e);
    RefreshCases(s, w, e);
    hide Answer, Live, Ttl;
    assert MintOk(s, v, r, e.refreshJti, o, access);
    assert KeyWritten(s, v.db, r.db, o);
    hide *;
    InvMinted(s, v, r, e.refreshJti, o, access);
  }

  lemma RefreshKeepsInv(s: Settings, w: World, e: Event)
    requires e.Refreshing? && HexDigests(s) && Inv(s, w) && Possible(w, e)
    ensures Inv(s, Next(s, w, e))
  {
    var r := Answer(s, w, e);
    RefreshCases(s, w, e);
    hide Answer, Live, Ttl, SlidingTtl;
    if !Signs(r.outcome) {
      InvShrinks(s, w, r.db);
    } else {
      var h := HashFp(s, e.fingerprint);
      var jti := e.token.jti;
      LiveKeyBelongs(s, w, e.token, h);
      var key := KeyOf(w.origins[jti]);
      var v := w.(db := Without(w.db, {key}), accepted := w.accepted + [jti]);
      InvSpent(s, w, jti);
      var c := RefreshClaims(s, e.token.sub, e.token.deviceId, e.refreshJti, w.db.now);
      var o := Origin(w.origins[jti].login, c, h);
      assert Next(s, w, e) == Minted(v, r, e.refreshJti, o);
      assert forall j | Present(v, j) :: Present(w, j) && j != jti;
      ExchangeKeepsInv(s, w, e, v, o, AccessClaims(s, c.sub, c.deviceId, e.accessJti, w.db.now));
    }
  }

  lemma FreshKeyAbsent(s: Settings, w: World, o: Origin)
    requires Inv(s, w) && Fresh(w, o.claims.jti) && NoColon(o.fpHash)
    ensures KeyOf(o) !in w.db.texts
  {
    KeyInNamespace(o);
    if Owned(w, KeyOf(o)) {
      var j :| j in w.origins && KeyOf(w.origins[j]) == KeyOf(o);
      KeyNamesToken(w, j, o.claims, o.fpHash);
    }
  }

  lemma IssueCases(s: Settings, w: World, e: Event, o: Origin)
    requires e.Issue? && HexDigests(s) && Inv(s, w) && Possible(w, e) && HasSecret(s)
    requires o.login == |w.logins| && o.fpHash == HashFp(s, e.fingerprint)
    requires o.claims == RefreshClaims(s, e.user, e.device, e.refreshJti, w.db.now)
    ensures
      var r := Answer(s, w, e);
      && Signs(r.outcome) && NoColon(o.fpHash)
      && r.signed == w.signed + {AccessClaims(s, e.user, e.device, e.accessJti, w.db.now), o.claims}
      && KeyWritten(s, w.db, r.db, o) && r.db.now == w.db.now
  {
    FreshKeyAbsent(s, w, o);
  }

  lemma IssueKeepsInv(s: Settings, w: World, e: Event)
    requires e.Issue? && HexDigests(s) && Inv(s, w) && Possible(w, e)
    ensures Inv(s, Next(s, w, e))
  {
    var r := Answer(s, w, e);
    if !HasSecret(s) {
      InvShrinks(s, w, r.db);
    } else {
      var h := HashFp(s, e.fingerprint);
      var v := w.(logins := w.logins + [Login(e.user, e.device, h)], fingerprints := w.fingerprints + [e.fingerprint]);
      var o := Origin(|w.logins|, RefreshClaims(s, e.user, e.device, e.refreshJti, w.db.now), h);
      IssueCases(s, w, e, o);
      InvLogin(s, w, Login(e.user, e.device, h), e.fingerprint);
      assert forall j | Present(v, j) :: v.origins[j].login < |w.logins|;
      InvMinted(s, v, r, e.refreshJti, o, AccessClaims(s, e.user, e.device, e.accessJti, w.db.now));
    }
  }

  lemma RevokeShrinks(db: Db, user: string, device: string, publishBlock: bool)
    ensures Shrinks(db, RevokeEffect(db, user, device, publishBlock))
    ensures forall k | NAMESPACE <= k && k in RevokeEffect(db, user, device, publishBlock).texts ::
              !Matches(PairPrefix(user, device) + "*", k)
  {
    OtherKeysOutside(device);
  }

  lemma InvStep(s: Settings, w: World, e: Event)
    requires HexDigests(s) && Inv(s, w) && Possible(w, e)
    ensures Inv(s, Next(s, w, e))
  {
    if e.Issue? {
      IssueKeepsInv(s, w, e);
    } else if e.Refreshing? {
      RefreshKeepsInv(s, w, e);
    } else {
      if e.Revoke? {
        RevokeShrinks(w.db, e.user, e.device, e.publishBlock);
      }
      InvShrinks(s, w, Next(s, w, e).db);
    }
  }

  lemma {:induction false} InvRun(s: Settings, w: World, es: seq<Event>, t: World)
    requires HexDigests(s) && Inv(s, w) && Run(s, w, es, t)
    ensures Inv(s, t)
    decreases |es|
  {
    if es == [] {
    } else {
      InvStep(s, w, es[0]);
      InvRun(s, Next(s, w, es[0]), es[1..], t);
    }
  }

  ghost predicate Reachable(s: Settings, w: World)
  {
    HexDigests(s) && exists i, es :: Initial(i) && Run(s, i, es, w)
  }

  lemma ReachableInv(s: Settings, w: World)
    requires Reachable(s, w)
    ensures Inv(s, w)
  {
    var i, es :| Initial(i) && Run(s, i, es, w);
    InvRun(s, i, es, w);
  }

  // Lineage.

  function LiveKeys(w: World): set<string>
  {
    set k | k in w.db.texts && NAMESPACE <= k && Live(w.db.texts, k, w.db.now)
  }

  /** In every reachable world each live key is the key of one token, with the user, device and
      fingerprint hash of the login it descends from, and no other token of that login has a
      live key. */
  lemma Lineage(s: Settings, w: World, k: string) returns (j: string)
    requires Reachable(s, w) && k in LiveKeys(w)
    ensures j in w.origins && k == KeyOf(w.origins[j]) && w.origins[j].login < |w.logins|
    ensures
      var l := w.logins[w.origins[j].login];
      k == RefreshKey(l.user, l.device, j, l.fpHash)
    ensures forall j' | j' in w.origins && w.origins[j'].login == w.origins[j].login ::
              KeyOf(w.origins[j']) in LiveKeys(w) ==> j' == j
  {
    ReachableInv(s, w);
    assert Owned(w, k);
    j :| j in w.origins && KeyOf(w.origins[j]) == k;
    assert Present(w, j);
  }

  ghost predicate HoldsFor(w: World, key: string, login: nat)
  {
    exists j :: j in w.origins && KeyOf(w.origins[j]) == key && w.origins[j].login == login
  }

  lemma OneKeyPerLogin(w: World, k: string, k': string, login: nat)
    requires KeysOk(w) && k in w.db.texts && k' in w.db.texts && HoldsFor(w, k, login) && HoldsFor(w, k', login)
    ensures k == k'
  {
    var a :| a in w.origins && KeyOf(w.origins[a]) == k && w.origins[a].login == login;
    var b :| b in w.origins && KeyOf(w.origins[b]) == k' && w.origins[b].login == login;
    assert Present(w, a) && Present(w, b);
  }

  lemma {:induction false} CountByLogin(w: World, keys: set<string>, n: nat)
    requires KeysOk(w) && keys <= w.db.texts.Keys
    requires forall k | k in keys :: exists i: nat :: i < n && HoldsFor(w, k, i)
    ensures |keys| <= n
  {
    hide KeysOk, HoldsFor;
    if n == 0 {
      assert keys == {};
    } else if exists k :: k in keys && HoldsFor(w, k, n - 1) {
      var k :| k in keys && HoldsFor(w, k, n - 1);
      forall k' | k' in keys - {k}
        ensures exists i: nat :: i < n - 1 && HoldsFor(w, k', i)
      {
        var i: nat :| i < n && HoldsFor(w, k', i);
        if i == n - 1 {
          OneKeyPerLogin(w, k, k', i);
        }
      }
      CountByLogin(w, keys - {k}, n - 1);
    } else {
      CountByLogin(w, keys, n - 1);
    }
  }

  /** Live keys never outnumber logins. */
  lemma LiveKeysAtMostLogins(s: Settings, w: World)
    requires Reachable(s, w)
    ensures |LiveKeys(w)| <= |w.logins|
  {
    ReachableInv(s, w);
    forall k | k in LiveKeys(w)
      ensures exists i: nat :: i < |w.logins| && HoldsFor(w, k, i)
    {
      var j := Lineage(s, w, k);
      assert HoldsFor(w, k, w.origins[j].login);
    }
    CountByLogin(w, LiveKeys(w), |w.logins|);
  }

  // Single use, revocation, and the honest client.

  lemma OldKeyUnderRefresh(s: Settings, w: World, e: Event, j: string)
    requires e.Refreshing? && HexDigests(s) && OriginsOk(w) && Possible(w, e) && j in w.origins
    ensures
      var t := Next(s, w, e);
      var k := KeyOf(w.origins[j]);
      && j in t.origins && t.origins[j] == w.origins[j]
      && (k in t.db.texts ==> k in w.db.texts && t.db.texts[k] == w.db.texts[k])
  {
    KeyInNamespace(w.origins[j]);
    RefreshCases(s, w, e);
    hide RefreshReply, SlidingTtl, Ttl, Live;
    if HasSecret(s) {
      var h := HashFp(s, e.fingerprint);
      if KeyOf(w.origins[j]) == RefreshKey(e.token.sub, e.token.deviceId, e.refreshJti, h) {
        KeyNamesToken(w, j, RefreshClaims(s, e.token.sub, e.token.deviceId, e.refreshJti, w.db.now), h);
      }
    }
  }

  lemma OldKeyUnderIssue(s: Settings, w: World, e: Event, j: string)
    requires e.Issue? && HexDigests(s) && OriginsOk(w) && Possible(w, e) && j in w.origins
    ensures
      var t := Next(s, w, e);
      var k := KeyOf(w.origins[j]);
      && j in t.origins && t.origins[j] == w.origins[j]
      && (k in t.db.texts <==> k in w.db.texts) && (k in t.db.texts ==> t.db.texts[k] == w.db.texts[k])
  {
    if HasSecret(s) {
      var h := HashFp(s, e.fingerprint);
      if KeyOf(w.origins[j]) == RefreshKey(e.user, e.device, e.refreshJti, h) {
        KeyNamesToken(w, j, RefreshClaims(s, e.user, e.device, e.refreshJti, w.db.now), h);
      }
    }
  }

  /** No step writes the key of an existing token, and origins are never forgotten. */
  lemma OldKeysNotRewritten(s: Settings, w: World, e: Event, j: string)
    requires HexDigests(s) && Inv(s, w) && Possible(w, e) && j in w.origins
    ensures
      var t := Next(s, w, e);
      var k := KeyOf(w.origins[j]);
      && j in t.origins && t.origins[j] == w.origins[j]
      && (k in t.db.texts ==> k in w.db.texts && t.db.texts[k] == w.db.texts[k])
  {
    hide RefreshReply, IssueReply, OriginsOk, KeysOk, DeadlinesOk, IssuedOk;
    KeyInNamespace(w.origins[j]);
    match e
    case Refreshing(_, _, _, _) => OldKeyUnderRefresh(s, w, e, j);
    case Issue(_, _, _, _, _) => OldKeyUnderIssue(s, w, e, j);
    case Revoke(user, device, publishBlock) => RevokeShrinks(w.db, user, device, publishBlock);
    case _ =>
  }

  /** A refresh that signs is one that presents a live, unspent token with the fingerprint of
      its login. */
  lemma SigningNeedsOwnUnspentToken(s: Settings, w: World, e: Event)
    requires HexDigests(s) && Inv(s, w) && e.Refreshing? && Signs(Answer(s, w, e).outcome)
    ensures e.token.jti in w.origins && w.origins[e.token.jti].claims == e.token
    ensures HashFp(s, e.fingerprint) == w.origins[e.token.jti].fpHash
    ensures Present(w, e.token.jti) && e.token.jti !in w.accepted
    ensures Possible(w, e) ==> !Present(Next(s, w, e), e.token.jti)
  {
    RefreshCases(s, w, e);
    LiveKeyBelongs(s, w, e.token, HashFp(s, e.fingerprint));
    var o := w.origins[e.token.jti];
    if Possible(w, e) {
      var c := RefreshClaims(s, e.token.sub, e.token.deviceId, e.refreshJti, w.db.now);
      if KeyOf(o) == RefreshKey(c.sub, c.deviceId, c.jti, o.fpHash) {
        KeyNamesToken(w, e.token.jti, c, o.fpHash);
      }
    }
  }

  /** What a step records as accepted. */
  lemma AcceptedStep(s: Settings, w: World, e: Event)
    ensures Next(s, w, e).accepted == w.accepted
            || (e.Refreshing? && Signs(Answer(s, w, e).outcome) && Next(s, w, e).accepted == w.accepted + [e.token.jti])
  {
    hide Answer;
  }

  lemma DeadStep(s: Settings, w: World, e: Event, j: string)
    requires HexDigests(s) && Inv(s, w) && Possible(w, e) && j in w.origins && !Present(w, j)
    ensures
      var t := Next(s, w, e);
      && j in t.origins && t.origins[j] == w.origins[j] && !Present(t, j)
      && (j in t.accepted <==> j in w.accepted)
  {
    OldKeysNotRewritten(s, w, e, j);
    AcceptedStep(s, w, e);
    if e.Refreshing? && Signs(Answer(s, w, e).outcome) {
      SigningNeedsOwnUnspentToken(s, w, e);
    }
    hide Next, Answer, Inv, Possible;
  }

  /** A token without a key stays without one and is never accepted again. */
  lemma {:induction false} DeadStaysDead(s: Settings, w: World, es: seq<Event>, t: World, j: string)
    requires HexDigests(s) && Inv(s, w) && Run(s, w, es, t) && j in w.origins && !Present(w, j)
    ensures Inv(s, t) && j in t.origins && t.origins[j] == w.origins[j] && !Present(t, j)
    ensures j in t.accepted <==> j in w.accepted
    decreases |es|
  {
    if es == [] {
    } else {
      var v := Next(s, w, es[0]);
      InvStep(s, w, es[0]);
      DeadStep(s, w, es[0], j);
      hide Next, Inv, Present, HexDigests, Possible;
      DeadStaysDead(s, v, es[1..], t, j);
    }
  }

  /** Single use: once a token has been accepted, no later presentation of it signs anything. */
  lemma SingleUse(s: Settings, w: World, e: Event, es: seq<Event>, t: World, again: Event)
    requires Reachable(s, w) && e.Refreshing? && Possible(w, e) && Signs(Answer(s, w, e).outcome)
    requires Run(s, Next(s, w, e), es, t)
    requires again.Refreshing? && again.token == e.token
    ensures !Signs(Answer(s, t, again).outcome)
  {
    ReachableInv(s, w);
    InvStep(s, w, e);
    SigningNeedsOwnUnspentToken(s, w, e);
    OldKeysNotRewritten(s, w, e, e.token.jti);
    DeadStaysDead(s, Next(s, w, e), es, t, e.token.jti);
    if Signs(Answer(s, t, again).outcome) {
      SigningNeedsOwnUnspentToken(s, t, again);
    }
  }

  predicate WithinLimit(db: Db, device: string)
  {
    Live(db.counts, AttemptsKey(device), db.now) ==> db.counts[AttemptsKey(device)].value < 10
  }

  /** Past the other checks, a refresh signs exactly when the presented token's key is live, and counts
      as reuse otherwise. */
  lemma KeyDecides(s: Settings, w: World, e: Event)
    requires e.Refreshing? && HasSecret(s)
    requires Verifies(s, w.signed, e.token, Refresh, w.db.now) && WithinLimit(w.db, e.token.deviceId)
    ensures Signs(Answer(s, w, e).outcome)
       <==> Live(w.db.texts, RefreshKey(e.token.sub, e.token.deviceId, e.token.jti, HashFp(s, e.fingerprint)), w.db.now)
    ensures !Signs(Answer(s, w, e).outcome) ==> Answer(s, w, e).outcome == Failed(ReusedOrRevoked)
  {
    hide SlidingTtl, Verifies, RefreshKey;
  }

  /** Reuse detection: an accepted token, presented again in time and within the attempt
      limit, is refused and blocks its device for an hour. */
  lemma ReuseFlagsDevice(s: Settings, w: World, e: Event)
    requires Reachable(s, w) && e.Refreshing? && HasSecret(s)
    requires e.token.jti in w.accepted && Verifies(s, w.signed, e.token, Refresh, w.db.now)
    requires WithinLimit(w.db, e.token.deviceId)
    ensures
      var r := Answer(s, w, e);
      && r.outcome == Failed(ReusedOrRevoked)
      && RevokedKey(e.token.deviceId) in r.db.texts
      && r.db.texts[RevokedKey(e.token.deviceId)] == Timed("1", Some(w.db.now + 3600000))
  {
    ReachableInv(s, w);
    KeyDecides(s, w, e);
    RefreshOutcome(s, w.db, w.signed, e.token, e.fingerprint, e.accessJti, e.refreshJti);
    hide RefreshReply, RefreshKey, Verifies, Inv;
    if Signs(Answer(s, w, e).outcome) {
      SigningNeedsOwnUnspentToken(s, w, e);
    }
  }

  /** A revocation removes exactly the refresh: keys its pattern matches, and no attempt counter. */
  lemma RevokeFate(db: Db, user: string, device: string, publishBlock: bool, k: string)
    requires NAMESPACE <= k
    ensures
      var after := RevokeEffect(db, user, device, publishBlock);
      && after.counts == db.counts && after.now == db.now
      && (k in after.texts <==> k in db.texts && !Matches(PairPrefix(user, device) + "*", k))
      && (k in after.texts ==> after.texts[k] == db.texts[k])
  {
    OtherKeysOutside(device);
  }

  /** Token j is exchanged by no presentation in any later run, and never recorded as accepted. */
  ghost predicate NeverAcceptedAgain(s: Settings, w: World, j: string)
  {
    forall es, t, e: Event | Run(s, w, es, t) && e.Refreshing? && e.token.jti == j ::
      !Signs(Answer(s, t, e).outcome) && (j in t.accepted <==> j in w.accepted)
  }

  lemma DeadIsNeverAccepted(s: Settings, w: World, j: string)
    requires HexDigests(s) && Inv(s, w) && j in w.origins && !Present(w, j)
    ensures NeverAcceptedAgain(s, w, j)
  {
    forall es, t, e: Event | Run(s, w, es, t) && e.Refreshing? && e.token.jti == j
      ensures !Signs(Answer(s, t, e).outcome) && (j in t.accepted <==> j in w.accepted)
    {
      DeadStaysDead(s, w, es, t, j);
      hide Answer, Inv, Run, Present;
      if Signs(Answer(s, t, e).outcome) {
        SigningNeedsOwnUnspentToken(s, t, e);
      }
    }
  }

  /** No resurrection: a token whose key the revoke pattern matches is never accepted after the
      revocation, in any later run, also long after the one-hour flags are gone. */
  lemma NoResurrection(s: Settings, w: World, user: string, device: string, publishBlock: bool, j: string)
    requires Reachable(s, w) && j in w.origins
    requires Matches(PairPrefix(user, device) + "*", KeyOf(w.origins[j]))
    ensures NeverAcceptedAgain(s, Next(s, w, Revoke(user, device, publishBlock)), j)
  {
    var revoke := Revoke(user, device, publishBlock);
    ReachableInv(s, w);
    InvStep(s, w, revoke);
    KeyInNamespace(w.origins[j]);
    RevokeFate(w.db, user, device, publishBlock, KeyOf(w.origins[j]));
    DeadIsNeverAccepted(s, Next(s, w, revoke), j);
  }

  /** For ids without '[' and '\' those are all tokens of the pair. */
  lemma PairIsRevokedForGood(s: Settings, w: World, user: string, device: string, publishBlock: bool, j: string)
    requires Reachable(s, w) && SelfMatching(user) && SelfMatching(device)
    requires j in w.origins && w.origins[j].claims.sub == user && w.origins[j].claims.deviceId == device
    ensures NeverAcceptedAgain(s, Next(s, w, Revoke(user, device, publishBlock)), j)
  {
    PatternSelectsOwnKeys(user, device, j, w.origins[j].fpHash);
    ReachableInv(s, w);
    NoResurrection(s, w, user, device, publishBlock, j);
  }

  /** A presentation that gets past every check, down to its live key. */
  predicate Exchangeable(s: Settings, w: World, j: string, e: Event)
  {
    && HasSecret(s) && j in w.origins && KeyOf(w.origins[j]) in LiveKeys(w)
    && e.Refreshing? && e.token == w.origins[j].claims && HashFp(s, e.fingerprint) == w.origins[j].fpHash
    && Verifies(s, w.signed, e.token, Refresh, w.db.now) && WithinLimit(w.db, e.token.deviceId)
  }

  /** The revoke pattern alone decides: a token that could be exchanged just before a revocation
      is never accepted again in any later run exactly when the pattern matches its key. */
  lemma RevocationDecides(s: Settings, w: World, user: string, device: string, publishBlock: bool, j: string, e: Event)
    requires Reachable(s, w) && Exchangeable(s, w, j, e)
    ensures Signs(Answer(s, w, e).outcome)
    ensures NeverAcceptedAgain(s, Next(s, w, Revoke(user, device, publishBlock)), j)
       <==> Matches(PairPrefix(user, device) + "*", KeyOf(w.origins[j]))
  {
    var t := Next(s, w, Revoke(user, device, publishBlock));
    KeyDecides(s, w, e);
    if Matches(PairPrefix(user, device) + "*", KeyOf(w.origins[j])) {
      NoResurrection(s, w, user, device, publishBlock, j);
    } else {
      ReachableInv(s, w);
      KeyInNamespace(w.origins[j]);
      RevokeFate(w.db, user, device, publishBlock, KeyOf(w.origins[j]));
      KeyDecides(s, t, e);
      hide Answer;
      assert Run(s, t, [], t);
    }
  }

  /** The event neither presents token j nor revokes its key. */
  predicate Spares(e: Event, j: string, key: string)
  {
    match e
    case Refreshing(token, _, _, _) => token.jti != j
    case Revoke(user, device, _) => !Matches(PairPrefix(user, device) + "*", key)
    case _ => true
  }

  lemma SparedByRefresh(s: Settings, w: World, e: Event, j: string)
    requires e.Refreshing? && HexDigests(s) && OriginsOk(w) && Present(w, j) && e.token.jti != j
    ensures KeyOf(w.origins[j]) in Answer(s, w, e).db.texts
  {
    KeyInNamespace(w.origins[j]);
    RefreshCases(s, w, e);
    hide Answer, SlidingTtl, Ttl, Live;
    if Signs(Answer(s, w, e).outcome) {
      var h := HashFp(s, e.fingerprint);
      if KeyOf(w.origins[j]) == RefreshKey(e.token.sub, e.token.deviceId, e.token.jti, h) {
        KeyNamesToken(w, j, e.token, h);
      }
    }
  }

  lemma SparedKeyStays(s: Settings, w: World, e: Event, j: string)
    requires HexDigests(s) && Inv(s, w) && Possible(w, e) && Present(w, j)
    requires Spares(e, j, KeyOf(w.origins[j]))
    ensures
      var t := Next(s, w, e);
      Present(t, j) && t.origins[j] == w.origins[j]
  {
    var k := KeyOf(w.origins[j]);
    KeyInNamespace(w.origins[j]);
    hide RefreshReply, IssueReply, RevokeEffect, OriginsOk, KeysOk, DeadlinesOk, IssuedOk;
    OldKeysNotRewritten(s, w, e, j);
    match e
    case Refreshing(_, _, _, _) => SparedByRefresh(s, w, e, j);
    case Issue(_, _, _, _, _) => OldKeyUnderIssue(s, w, e, j);
    case Revoke(user, device, publishBlock) => RevokeFate(w.db, user, device, publishBlock, k);
    case _ =>
  }

  lemma {:induction false} SparedKeyStaysInRun(s: Settings, w: World, es: seq<Event>, t: World, j: string)
    requires HexDigests(s) && Inv(s, w) && Run(s, w, es, t) && Present(w, j)
    requires forall e | e in es :: Spares(e, j, KeyOf(w.origins[j]))
    ensures Inv(s, t) && Present(t, j) && t.origins[j] == w.origins[j]
    decreases |es|
  {
    if es == [] {
    } else {
      assert es[0] in es;
      InvStep(s, w, es[0]);
      SparedKeyStays(s, w, es[0], j);
      SparedKeyStaysInRun(s, Next(s, w, es[0]), es[1..], t, j);
    }
  }

  /** Tokens handed out come with their key. */
  lemma GrantedTokenHasKey(s: Settings, w: World, e: Event)
    requires Reachable(s, w) && Possible(w, e) && (e.Issue? || e.Refreshing?)
    requires Answer(s, w, e).outcome.Granted?
    ensures
      var t := Next(s, w, e);
      && HasSecret(s) && Answer(s, w, e).outcome.refresh.jti == e.refreshJti
      && Present(t, e.refreshJti) && t.origins[e.refreshJti].claims == Answer(s, w, e).outcome.refresh
      && t.origins[e.refreshJti].fpHash == HashFp(s, e.fingerprint)
  {
    hide SlidingTtl, Ttl, RefreshReply, Inv;
    if e.Refreshing? {
      ReachableInv(s, w);
      RefreshCases(s, w, e);
      SigningNeedsOwnUnspentToken(s, w, e);
    }
    hide Reachable;
  }

  lemma KeptTokenIsUsable(s: Settings, t: World, j: string)
    requires s.baseMinutes <= s.maxMinutes && Inv(s, t) && Present(t, j)
    requires t.db.now < t.origins[j].claims.exp * 1000
    ensures s.baseMinutes > 0
    ensures Live(t.db.texts, KeyOf(t.origins[j]), t.db.now)
    ensures Verifies(s, t.signed, t.origins[j].claims, Refresh, t.db.now)
  {
  }

  lemma LiveKeyIsExchanged(s: Settings, w: World, e: Event)
    requires e.Refreshing? && HasSecret(s) && 0 < s.baseMinutes <= s.maxMinutes
    requires Verifies(s, w.signed, e.token, Refresh, w.db.now) && WithinLimit(w.db, e.token.deviceId)
    requires
      var key := RefreshKey(e.token.sub, e.token.deviceId, e.token.jti, HashFp(s, e.fingerprint));
      Live(w.db.texts, key, w.db.now)
    ensures Answer(s, w, e).outcome.Granted?
    ensures forall k | !(NAMESPACE <= k) ::
              (k in Answer(s, w, e).db.texts <==> k in w.db.texts)
              && (k in w.db.texts ==> Answer(s, w, e).db.texts[k] == w.db.texts[k])
  {
    var h := HashFp(s, e.fingerprint);
    assert NAMESPACE <= RefreshKey(e.token.sub, e.token.deviceId, e.refreshJti, h);
    assert NAMESPACE <= RefreshKey(e.token.sub, e.token.deviceId, e.token.jti, h);
  }

  /** The honest client: with base lifetime <= cap, a token that still has its key (as every
      granted one does), first presented strictly before its exp, with its own fingerprint,
      unrevoked, and within the attempt limit, is always exchanged, and no flag is written. */
  lemma HonestClientSucceeds(s: Settings, w: World, es: seq<Event>, t: World, j: string, e: Event)
    requires s.baseMinutes <= s.maxMinutes && HasSecret(s)
    requires Reachable(s, w) && Present(w, j) && Run(s, w, es, t)
    requires forall e' | e' in es :: Spares(e', j, KeyOf(w.origins[j]))
    requires e.Refreshing? && e.token == w.origins[j].claims && HashFp(s, e.fingerprint) == w.origins[j].fpHash
    requires t.db.now < e.token.exp * 1000 && WithinLimit(t.db, e.token.deviceId)
    ensures Answer(s, t, e).outcome.Granted?
    ensures forall k | !(NAMESPACE <= k) ::
              (k in Answer(s, t, e).db.texts <==> k in t.db.texts)
              && (k in t.db.texts ==> Answer(s, t, e).db.texts[k] == t.db.texts[k])
  {
    ReachableInv(s, w);
    SparedKeyStaysInRun(s, w, es, t, j);
    KeptTokenIsUsable(s, t, j);
    LiveKeyIsExchanged(s, t, e);
  }

  lemma {:induction false} RunThenStep(s: Settings, i: World, es: seq<Event>, w: World, e: Event)
    requires Run(s, i, es, w) && Possible(w, e)
    ensures Run(s, i, es + [e], Next(s, w, e))
    decreases |es|
  {
    if es == [] {
      assert Run(s, Next(s, w, e), [], Next(s, w, e));
      assert (es + [e])[1..] == [];
    } else {
      assert (es + [e])[1..] == es[1..] + [e];
      RunThenStep(s, Next(s, i, es[0]), es[1..], w, e);
    }
  }

  lemma ReachableStep(s: Settings, w: World, e: Event)
    requires Reachable(s, w) && Possible(w, e)
    ensures Reachable(s, Next(s, w, e))
  {
    var i, es :| Initial(i) && Run(s, i, es, w);
    RunThenStep(s, i, es, w, e);
    assert Run(s, i, es + [e], Next(s, w, e));
  }

  /** The same from the caller's side: what a handler granted can be exchanged at any later
      moment before its exp, if it was not presented or revoked meanwhile. */
  lemma GrantedTokenIsHonoured(s: Settings, w: World, grant: Event, es: seq<Event>, t: World, e: Event)
    requires s.baseMinutes <= s.maxMinutes
    requires Reachable(s, w) && Possible(w, grant) && (grant.Issue? || grant.Refreshing?)
    requires Answer(s, w, grant).outcome.Granted? && Run(s, Next(s, w, grant), es, t)
    requires e.Refreshing? && e.token == Answer(s, w, grant).outcome.refresh && e.fingerprint == grant.fingerprint
    requires
      var key := RefreshKey(e.token.sub, e.token.deviceId, e.token.jti, HashFp(s, e.fingerprint));
      forall e' | e' in es :: Spares(e', e.token.jti, key)
    requires t.db.now < e.token.exp * 1000 && WithinLimit(t.db, e.token.deviceId)
    ensures Answer(s, t, e).outcome.Granted?
    ensures RevokedKey(e.token.deviceId) in Answer(s, t, e).db.texts <==> RevokedKey(e.token.deviceId) in t.db.texts
  {
    hide Answer, Next, Run, Present, Reachable, Possible, HasSecret, WithinLimit;
    GrantedTokenHasKey(s, w, grant);
    ReachableStep(s, w, grant);
    HonestClientSucceeds(s, Next(s, w, grant), es, t, e.token.jti, e);
    OtherKeysOutside(e.token.deviceId);
  }

  // Whose fingerprint.

  ghost predicate InjectiveMac(s: Settings)
  {
    forall secret, a, b | s.mac(secret, a) == s.mac(secret, b) :: a == b
  }

  predicate StoresHash(s: Settings, l: Login, fingerprint: string)
  {
    s.secret.Some? && l.fpHash == s.mac(s.secret.value, fingerprint)
  }

  /** Every login stores the keyed hash of the fingerprint it was made with. */
  ghost predicate FingerprintsOk(s: Settings, w: World)
  {
    && |w.fingerprints| == |w.logins|
    && forall i | 0 <= i < |w.logins| :: StoresHash(s, w.logins[i], w.fingerprints[i])
  }

  /** Only a login adds to the logins, and it records its own fingerprint. */
  lemma LoginsStep(s: Settings, w: World, e: Event)
    ensures
      var t := Next(s, w, e);
      || (t.logins == w.logins && t.fingerprints == w.fingerprints)
      || (&& e.Issue? && HasSecret(s)
          && t.logins == w.logins + [Login(e.user, e.device, HashFp(s, e.fingerprint))]
          && t.fingerprints == w.fingerprints + [e.fingerprint])
  {
    hide RefreshReply, RevokeEffect, RefreshKey;
  }

  lemma NewLoginStoresHash(s: Settings, e: Event)
    requires e.Issue? && HasSecret(s)
    ensures StoresHash(s, Login(e.user, e.device, HashFp(s, e.fingerprint)), e.fingerprint)
  {
  }

  lemma FingerprintsStep(s: Settings, w: World, e: Event)
    requires FingerprintsOk(s, w)
    ensures FingerprintsOk(s, Next(s, w, e))
  {
    LoginsStep(s, w, e);
    if e.Issue? && HasSecret(s) {
      NewLoginStoresHash(s, e);
    }
    hide Next, StoresHash, HasSecret, HashFp;
  }

  lemma {:induction false} FingerprintsRun(s: Settings, w: World, es: seq<Event>, t: World)
    requires FingerprintsOk(s, w) && Run(s, w, es, t)
    ensures FingerprintsOk(s, t)
    decreases |es|
  {
    if es == [] {
    } else {
      FingerprintsStep(s, w, es[0]);
      FingerprintsRun(s, Next(s, w, es[0]), es[1..], t);
    }
  }

  lemma ReachableFingerprints(s: Settings, w: World)
    requires Reachable(s, w)
    ensures FingerprintsOk(s, w)
  {
    var i, es :| Initial(i) && Run(s, i, es, w);
    FingerprintsRun(s, i, es, w);
  }

  /** The stored hash of a token's origin is the keyed hash of its login's fingerprint. */
  lemma OriginFingerprint(s: Settings, w: World, j: string)
    requires Reachable(s, w) && j in w.origins
    ensures w.origins[j].login < |w.fingerprints| && s.secret.Some?
    ensures w.origins[j].fpHash == s.mac(s.secret.value, w.fingerprints[w.origins[j].login])
  {
    ReachableInv(s, w);
    ReachableFingerprints(s, w);
  }

  lemma SigningNeedsSecret(s: Settings, w: World, e: Event)
    requires e.Refreshing? && Signs(Answer(s, w, e).outcome)
    ensures HasSecret(s)
  {
    hide RefreshKey, SlidingTtl, Verifies;
  }

  /** Every refresh that signs presents the very fingerprint its token's login was made with. */
  lemma SigningNeedsOwnFingerprint(s: Settings, w: World, e: Event)
    requires Reachable(s, w) && InjectiveMac(s) && e.Refreshing? && Signs(Answer(s, w, e).outcome)
    ensures e.token.jti in w.origins && w.origins[e.token.jti].login < |w.fingerprints|
    ensures e.fingerprint == w.fingerprints[w.origins[e.token.jti].login]
  {
    ReachableInv(s, w);
    SigningNeedsOwnUnspentToken(s, w, e);
    OriginFingerprint(s, w, e.token.jti);
    SigningNeedsSecret(s, w, e);
    assert HashFp(s, e.fingerprint) == s.mac(s.secret.value, e.fingerprint);
  }

  /** For a token that still has its live key, and past the other checks, the fingerprint decides: the
      login's own is exchanged, and any other is refused as reuse and flags the device for an hour. */
  lemma FingerprintDecides(s: Settings, w: World, e: Event)
    requires Reachable(s, w) && InjectiveMac(s) && e.Refreshing? && HasSecret(s)
    requires e.token.jti in w.origins && KeyOf(w.origins[e.token.jti]) in LiveKeys(w)
    requires Verifies(s, w.signed, e.token, Refresh, w.db.now) && WithinLimit(w.db, e.token.deviceId)
    ensures w.origins[e.token.jti].login < |w.fingerprints|
    ensures
      var r := Answer(s, w, e);
      var revoked := "revoked:device:" + e.token.deviceId;
      if e.fingerprint == w.fingerprints[w.origins[e.token.jti].login] then Signs(r.outcome)
      else
        && r.outcome == Failed(ReusedOrRevoked)
        && revoked in r.db.texts && r.db.texts[revoked] == Timed("1", Some(w.db.now + 3600000))
  {
    var o := w.origins[e.token.jti];
    ReachableInv(s, w);
    OriginFingerprint(s, w, e.token.jti);
    KeyDecides(s, w, e);
    RefreshOutcome(s, w.db, w.signed, e.token, e.fingerprint, e.accessJti, e.refreshJti);
    hide RefreshReply;
    if e.fingerprint == w.fingerprints[o.login] {
      assert HashFp(s, e.fingerprint) == s.mac(s.secret.value, e.fingerprint);
    } else if Signs(Answer(s, w, e).outcome) {
      SigningNeedsOwnFingerprint(s, w, e);
    }
  }
}
