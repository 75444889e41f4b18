/** The billing webhook, its event and subscription tables, and the Redis cache in front of the
    subscription table. Instants are milliseconds; each handler is one atomic step. */
module Billing {
  import opened RedisStore
  import opened Glob

  const DAY := 24 * 3600 * 1000
  const CACHE_TTL := 900 * 1000

  datatype Payload = Payload(
    provider: string,
    eventId: string,
    user: string,
    device: string,
    planCode: string,
    planTier: string,
    status: string,
    expiresAt: Option<int>,
    autoRenew: bool,
    body: string)

  datatype Event = Event(provider: string, eventId: string, body: string)

  datatype Row = Row(
    user: string,
    device: string,
    planCode: string,
    planTier: string,
    status: string,
    expiresAt: Option<int>,
    autoRenew: bool)

  datatype Cached = Cached(status: string, planTier: string, planCode: string, expiresAt: Option<int>)

  datatype Tables = Tables(events: seq<Event>, rows: seq<Row>)

  datatype State = State(now: int, tables: Tables, cache: map<string, Timed<Cached>>)

  datatype View = View(
    user: string,
    device: string,
    planCode: string,
    status: string,
    planTier: string,
    expiresAt: Option<int>)

  datatype Response = Found(view: View) | Unauthorized | NotFound | MultipleRows

  function CacheKey(user: string, device: string): string
  {
    "sub:" + user + ":" + device
  }

  /** The signature check, for a keyed hash given as a function of the body. */
  predicate VerifySignature(mac: string -> string, signature: Option<string>, body: string)
  {
    signature.Some? && signature.value != "" && mac(body) == signature.value
  }

  predicate IsFor(r: Row, user: string, device: string)
  {
    r.user == user && r.device == device
  }

  /** scalar_one_or_none over a pair: how many rows match, and the first of them. */
  function CountRows(rows: seq<Row>, user: string, device: string): nat
  {
    if rows == [] then 0 else CountRows(rows[1..], user, device) + if IsFor(rows[0], user, device) then 1 else 0
  }

  function FindRow(rows: seq<Row>, user: string, device: string): (i: nat)
    ensures i <= |rows|
    ensures i < |rows| ==> IsFor(rows[i], user, device)
    ensures forall j | 0 <= j < i :: !IsFor(rows[j], user, device)
  {
    if rows == [] || IsFor(rows[0], user, device) then 0 else 1 + FindRow(rows[1..], user, device)
  }

  function ViewOf(r: Row): View
  {
    View(r.user, r.device, r.planCode, r.status, r.planTier, r.expiresAt)
  }

  function CachedOf(r: Row): Cached
  {
    Cached(r.status, r.planTier, r.planCode, r.expiresAt)
  }

  predicate HasEvent(events: seq<Event>, eventId: string)
  {
    exists i :: 0 <= i < |events| && events[i].eventId == eventId
  }

  /** The row an event asks for; without an expiry it runs for seven days. */
  function RowOf(p: Payload, now: int): Row
  {
    Row(p.user, p.device, p.planCode, p.planTier, p.status,
        if p.expiresAt.Some? then p.expiresAt else Some(now + 7 * DAY), p.autoRenew)
  }

  function Upsert(rows: seq<Row>, r: Row): seq<Row>
  {
    var i := FindRow(rows, r.user, r.device);
    if i < |rows| then rows[i := r] else rows + [r]
  }

  function EventOf(p: Payload): Event
  {
    Event(p.provider, p.eventId, p.body)
  }

  /** One committed event. */
  function Apply(t: Tables, p: Payload, now: int): Tables
  {
    Tables(t.events + [EventOf(p)], Upsert(t.rows, RowOf(p, now)))
  }

  function Cache(s: State, r: Row): State
  {
    s.(cache := s.cache[CacheKey(r.user, r.device) := Timed(CachedOf(r), Some(s.now + CACHE_TTL))])
  }

  /** The answer the subscription table gives. */
  function TableAnswer(t: Tables, user: string, device: string): Response
  {
    if CountRows(t.rows, user, device) > 1 then MultipleRows
    else
      var i := FindRow(t.rows, user, device);
      if i < |t.rows| then Found(ViewOf(t.rows[i])) else NotFound
  }

  function Webhook(s: State, p: Payload, authentic: bool): (State, Response)
  {
    if !authentic then (s, Unauthorized)
    else if HasEvent(s.tables.events, p.eventId) then (s, TableAnswer(s.tables, p.user, p.device))
    else if CountRows(s.tables.rows, p.user, p.device) > 1 then (s, MultipleRows)
    else
      var r := RowOf(p, s.now);
      (Cache(s.(tables := Apply(s.tables, p, s.now)), r), Found(ViewOf(r)))
  }

  predicate CacheHit(s: State, user: string, device: string)
  {
    var k := CacheKey(user, device);
    Live(s.cache, k, s.now) && s.cache[k].value.planTier != ""
  }

  function GetSubscription(s: State, user: string, device: string): (State, Response)
  {
    if CacheHit(s, user, device) then
      var c := s.cache[CacheKey(user, device)].value;
      (s, Found(View(user, device, c.planCode, c.status, c.planTier, c.expiresAt)))
    else
      var answer := TableAnswer(s.tables, user, device);
      var i := FindRow(s.tables.rows, user, device);
      (if answer.Found? && i < |s.tables.rows| then Cache(s, s.tables.rows[i]) else s, answer)
  }

  class BillingService {
    var now: int
    var events: seq<Event>
    var rows: seq<Row>
    var cache: map<string, Timed<Cached>>

    ghost function Snapshot(): State
      reads this
    {
      State(now, Tables(events, rows), cache)
    }

    constructor (start: int)
      ensures Snapshot() == State(start, Tables([], []), map[])
    {
      now, events, rows, cache := start, [], [], map[];
    }

    /** SELECT over the subscription table by pair. */
    method Select(user: string, device: string) returns (count: nat, first: nat)
      ensures count == CountRows(rows, user, device) && first == FindRow(rows, user, device)
    {
      count, first := 0, |rows|;
      var i := |rows|;
      while i > 0
        invariant 0 <= i <= |rows|
        invariant count == CountRows(rows[i..], user, device) && first == i + FindRow(rows[i..], user, device)
      {
        i := i - 1;
        assert rows[i..][1..] == rows[i + 1..];
        if IsFor(rows[i], user, device) {
          count, first := count + 1, i;
        }
      }
      assert rows[0..] == rows;
    }

    method BillingWebhook(p: Payload, mac: string -> string, signature: Option<string>, rawBody: string)
      returns (r: Response)
      modifies this
      ensures (Snapshot(), r) == Webhook(old(Snapshot()), p, VerifySignature(mac, signature, rawBody))
      ensures r == Unauthorized <==> signature == None || signature == Some("") || signature != Some(mac(rawBody))
      ensures r == Unauthorized ==> Snapshot() == old(Snapshot())
    {
      if !VerifySignature(mac, signature, rawBody) {
        return Unauthorized;
      }
      var count, i := Select(p.user, p.device);
      if exists k :: 0 <= k < |events| && events[k].eventId == p.eventId {
        return if count > 1 then MultipleRows else if i < |rows| then Found(ViewOf(rows[i])) else NotFound;
      }
      if count > 1 {
        return MultipleRows;
      }
      events := events + [EventOf(p)];
      var expiresAt := if p.expiresAt.Some? then p.expiresAt else Some(now + 7 * DAY);
      var row := Row(p.user, p.device, p.planCode, p.planTier, p.status, expiresAt, p.autoRenew);
      if i < |rows| {
        rows := rows[i := row];
      } else {
        rows := rows + [row];
      }
      cache := cache[CacheKey(p.user, p.device) :=
        Timed(Cached(p.status, p.planTier, p.planCode, expiresAt), Some(now + CACHE_TTL))];
      r := Found(ViewOf(row));
    }

    method ReadSubscription(user: string, device: string) returns (r: Response)
      modifies this
      ensures (Snapshot(), r) == GetSubscription(old(Snapshot()), user, device)
    {
      var key := CacheKey(user, device);
      if Live(cache, key, now) && cache[key].value.planTier != "" {
        var c := cache[key].value;
        return Found(View(user, device, c.planCode, c.status, c.planTier, c.expiresAt));
      }
      var count, i := Select(user, device);
      if count > 1 {
        return MultipleRows;
      }
      if i == |rows| {
        return NotFound;
      }
      cache := cache[key := Timed(CachedOf(rows[i]), Some(now + CACHE_TTL))];
      r := Found(ViewOf(rows[i]));
    }
  }

  // Runs of deliveries, reads and passing time.

  datatype Step =
    | Deliver(p: Payload, authentic: bool)
    | Read(user: string, device: string)
    | Tick(ms: nat)

  function Next(s: State, e: Step): State
  {
    match e
    case Deliver(p, authentic) => Webhook(s, p, authentic).0
    case Read(user, device) => GetSubscription(s, user, device).0
    case Tick(ms) => s.(now := s.now + ms)
  }

  function Run(s: State, steps: seq<Step>): State
    decreases |steps|
  {
    if steps == [] then s else Run(Next(s, steps[0]), steps[1..])
  }

  const EMPTY := State(0, Tables([], []), map[])

  /** At most one row per pair. */
  ghost predicate PairsUnique(rows: seq<Row>)
  {
    forall i, j | 0 <= i < j < |rows| :: !IsFor(rows[i], rows[j].user, rows[j].device)
  }

  lemma {:induction false} UniqueCount(rows: seq<Row>, user: string, device: string)
    requires PairsUnique(rows)
    ensures CountRows(rows, user, device) == if FindRow(rows, user, device) < |rows| then 1 else 0
  {
    if rows == [] {
    } else {
      UniqueCount(rows[1..], user, device);
      assert forall k | 0 <= k < |rows| - 1 :: rows[1..][k] == rows[k + 1];
    }
  }

  lemma NextKeepsPairsUnique(s: State, e: Step)
    requires PairsUnique(s.tables.rows)
    ensures PairsUnique(Next(s, e).tables.rows)
  {
  }

  // Exactly once.

  /** A payload and the instant it was first delivered. */
  datatype Delivery = Delivery(p: Payload, at: int)

  /** The authentic deliveries whose event id was not seen before, with their own times. */
  function Firsts(steps: seq<Step>, seen: set<string>, now: int): seq<Delivery>
    decreases |steps|
  {
    if steps == [] then []
    else
      match steps[0]
      case Deliver(p, authentic) =>
        if authentic && p.eventId !in seen then [Delivery(p, now)] + Firsts(steps[1..], seen + {p.eventId}, now)
        else Firsts(steps[1..], seen, now)
      case Read(_, _) => Firsts(steps[1..], seen, now)
      case Tick(ms) => Firsts(steps[1..], seen, now + ms)
  }

  function ApplyAll(t: Tables, ds: seq<Delivery>): Tables
    decreases |ds|
  {
    if ds == [] then t else ApplyAll(Apply(t, ds[0].p, ds[0].at), ds[1..])
  }

  lemma EventAppended(events: seq<Event>, e: Event)
    ensures forall id :: HasEvent(events + [e], id) <==> HasEvent(events, id) || id == e.eventId
  {
    var more := events + [e];
    forall id
      ensures HasEvent(more, id) <==> HasEvent(events, id) || id == e.eventId
    {
      if HasEvent(events, id) {
        var i :| 0 <= i < |events| && events[i].eventId == id;
        assert more[i].eventId == id;
      }
      assert more[|events|] == e;
    }
  }

  /** A delivery is either the first authentic one of its event, and applied, or leaves the
      tables alone. */
  lemma DeliveryStep(s: State, p: Payload, authentic: bool, seen: set<string>)
    requires PairsUnique(s.tables.rows) && forall id :: id in seen <==> HasEvent(s.tables.events, id)
    ensures
      var t := Next(s, Deliver(p, authentic));
      if authentic && p.eventId !in seen then
        t.tables == Apply(s.tables, p, s.now)
        && forall id :: id in seen + {p.eventId} <==> HasEvent(t.tables.events, id)
      else t.tables == s.tables
  {
    UniqueCount(s.tables.rows, p.user, p.device);
    EventAppended(s.tables.events, EventOf(p));
    hide HasEvent, PairsUnique, CountRows, FindRow;
  }

  lemma NextTime(s: State, e: Step)
    ensures Next(s, e).now == if e.Tick? then s.now + e.ms else s.now
    ensures !e.Deliver? ==> Next(s, e).tables == s.tables
  {
  }

  lemma {:induction false} TablesAreFold(s: State, steps: seq<Step>, seen: set<string>)
    requires PairsUnique(s.tables.rows)
    requires forall id :: id in seen <==> HasEvent(s.tables.events, id)
    ensures Run(s, steps).tables == ApplyAll(s.tables, Firsts(steps, seen, s.now))
    ensures PairsUnique(Run(s, steps).tables.rows)
    decreases |steps|
  {
    if steps == [] {
    } else {
      var e := steps[0];
      var t := Next(s, e);
      NextKeepsPairsUnique(s, e);
      if e.Deliver? {
        DeliveryStep(s, e.p, e.authentic, seen);
      }
      NextTime(s, e);
      hide Next, HasEvent, PairsUnique, Apply;
      if e.Deliver? && e.authentic && e.p.eventId !in seen {
        TablesAreFold(t, steps[1..], seen + {e.p.eventId});
        var rest := Firsts(steps[1..], seen + {e.p.eventId}, s.now);
        assert ([Delivery(e.p, s.now)] + rest)[1..] == rest;
      } else {
        TablesAreFold(t, steps[1..], seen);
      }
    }
  }

  /** Exactly once: for any list of deliveries with duplicates, forgeries, reads and time in
      between, the tables are the fold over the first authentic delivery of each event id, at
      its own time, and there is one row per pair. */
  lemma WebhookExactlyOnce(steps: seq<Step>)
    ensures Run(EMPTY, steps).tables == ApplyAll(Tables([], []), Firsts(steps, {}, 0))
    ensures PairsUnique(Run(EMPTY, steps).tables.rows)
  {
    TablesAreFold(EMPTY, steps, {});
  }

  lemma {:induction false} ApplyAllAppend(t: Tables, ds: seq<Delivery>, d: Delivery)
    ensures ApplyAll(t, ds + [d]) == Apply(ApplyAll(t, ds), d.p, d.at)
    decreases |ds|
  {
    if ds == [] {
      assert [d][1..] == [] && ds + [d] == [d];
    } else {
      assert (ds + [d])[1..] == ds[1..] + [d];
      ApplyAllAppend(Apply(t, ds[0].p, ds[0].at), ds[1..], d);
    }
  }

  /** The last of these deliveries for a pair. */
  function LastFor(ds: seq<Delivery>, user: string, device: string): Option<Delivery>
  {
    if ds == [] then None
    else
      var d := ds[|ds| - 1];
      if d.p.user == user && d.p.device == device then Some(d) else LastFor(ds[..|ds| - 1], user, device)
  }

  lemma UpsertThenFind(rows: seq<Row>, r: Row, user: string, device: string)
    ensures
      var before, after := FindRow(rows, user, device), Upsert(rows, r);
      var found := FindRow(after, user, device);
      if IsFor(r, user, device) then found < |after| && after[found] == r
      else if before < |rows| then found < |after| && after[found] == rows[before]
      else found == |after|
  {
    var after := Upsert(rows, r);
    var n, found := FindRow(rows, r.user, r.device), FindRow(after, user, device);
    assert after[n] == r;
    assert forall i | 0 <= i < |rows| && i != n :: after[i] == rows[i];
    if IsFor(r, user, device) {
      assert found == n;
    } else {
      var before := FindRow(rows, user, device);
      if before < |rows| {
        assert n != before;
        assert found == before;
      }
    }
  }

  lemma {:induction false} FoldRow(ds: seq<Delivery>, user: string, device: string)
    ensures
      var rows := ApplyAll(Tables([], []), ds).rows;
      var i := FindRow(rows, user, device);
      match LastFor(ds, user, device)
      case None => i == |rows|
      case Some(d) => i < |rows| && rows[i] == RowOf(d.p, d.at)
  {
    if ds == [] {
    } else {
      var n := |ds| - 1;
      var d := ds[n];
      FoldRow(ds[..n], user, device);
      assert ds == ds[..n] + [d];
      ApplyAllAppend(Tables([], []), ds[..n], d);
      UpsertThenFind(ApplyAll(Tables([], []), ds[..n]).rows, RowOf(d.p, d.at), user, device);
    }
  }

  /** What a reader of the table sees in the end: the plan of the last first-delivered event for
      the pair, running to its own expiry or for seven days from that delivery. */
  lemma AnswerIsLatestEvent(steps: seq<Step>, user: string, device: string)
    ensures
      var answer := TableAnswer(Run(EMPTY, steps).tables, user, device);
      match LastFor(Firsts(steps, {}, 0), user, device)
      case None => answer == NotFound
      case Some(Delivery(p, at)) =>
        answer == Found(View(user, device, p.planCode, p.status, p.planTier,
                             Some(if p.expiresAt.Some? then p.expiresAt.value else at + 604800000)))
  {
    WebhookExactlyOnce(steps);
    FoldRow(Firsts(steps, {}, 0), user, device);
    UniqueCount(Run(EMPTY, steps).tables.rows, user, device);
  }

  // Signatures.

  /** What reaches the service: webhook posts with their signature header and raw body, and the rest. */
  datatype Post = Webhooked(p: Payload, signature: Option<string>, rawBody: string) | Plain(e: Step)

  /** The posts as the machine sees them: whether the header carries the body's keyed hash is all that
      is left of a signature. */
  function Checked(mac: string -> string, posts: seq<Post>): (steps: seq<Step>)
    ensures |steps| == |posts|
  {
    if posts == [] then []
    else
      [match posts[0]
       case Webhooked(p, signature, rawBody) => Deliver(p, VerifySignature(mac, signature, rawBody))
       case Plain(e) => e]
      + Checked(mac, posts[1..])
  }

  /** The post carries this payload and the keyed hash of its own body. */
  predicate SignedPost(mac: string -> string, post: Post, p: Payload)
  {
    post.Webhooked? && post.p == p && mac(post.rawBody) != "" && post.signature == Some(mac(post.rawBody))
  }

  predicate NoDeliveries(posts: seq<Post>)
  {
    forall i | 0 <= i < |posts| && posts[i].Plain? :: !posts[i].e.Deliver?
  }

  lemma {:induction false} FirstsWereSigned(mac: string -> string, posts: seq<Post>, seen: set<string>, now: int,
                                            i: nat)
    returns (k: nat)
    requires NoDeliveries(posts) && i < |Firsts(Checked(mac, posts), seen, now)|
    ensures k < |posts| && SignedPost(mac, posts[k], Firsts(Checked(mac, posts), seen, now)[i].p)
    decreases |posts|
  {
    var steps := Checked(mac, posts);
    assert steps[1..] == Checked(mac, posts[1..]);
    assert forall k | 0 <= k < |posts| - 1 :: posts[1..][k] == posts[k + 1];
    match steps[0]
    case Deliver(p, authentic) =>
      if authentic && p.eventId !in seen {
        if i == 0 {
          k := 0;
        } else {
          k := FirstsWereSigned(mac, posts[1..], seen + {p.eventId}, now, i - 1);
          k := k + 1;
        }
      } else {
        k := FirstsWereSigned(mac, posts[1..], seen, now, i);
        k := k + 1;
      }
    case Read(_, _) =>
      k := FirstsWereSigned(mac, posts[1..], seen, now, i);
      k := k + 1;
    case Tick(ms) =>
      k := FirstsWereSigned(mac, posts[1..], seen, now + ms, i);
      k := k + 1;
  }

  lemma {:induction false} FoldEvents(ds: seq<Delivery>)
    ensures |ApplyAll(Tables([], []), ds).events| == |ds|
    ensures forall i | 0 <= i < |ds| :: ApplyAll(Tables([], []), ds).events[i] == EventOf(ds[i].p)
  {
    if ds == [] {
    } else {
      var n := |ds| - 1;
      FoldEvents(ds[..n]);
      assert ds == ds[..n] + [ds[n]];
      ApplyAllAppend(Tables([], []), ds[..n], ds[n]);
    }
  }

  /** Every event in the table was delivered by a post signed with the keyed hash of its own body. */
  lemma EveryEventWasSigned(mac: string -> string, posts: seq<Post>, i: nat) returns (k: nat)
    requires NoDeliveries(posts) && i < |Run(EMPTY, Checked(mac, posts)).tables.events|
    ensures k < |posts| && posts[k].Webhooked? && posts[k].signature == Some(mac(posts[k].rawBody))
    ensures Run(EMPTY, Checked(mac, posts)).tables.events[i] == EventOf(posts[k].p)
  {
    var ds := Firsts(Checked(mac, posts), {}, 0);
    WebhookExactlyOnce(Checked(mac, posts));
    FoldEvents(ds);
    k := FirstsWereSigned(mac, posts, {}, 0, i);
  }

  lemma SignedIsRecorded(s: State, p: Payload)
    requires CountRows(s.tables.rows, p.user, p.device) <= 1
    ensures HasEvent(Next(s, Deliver(p, true)).tables.events, p.eventId)
  {
    EventAppended(s.tables.events, EventOf(p));
    hide HasEvent, FindRow, CountRows;
  }

  lemma EventsKept(s: State, e: Step, id: string)
    requires HasEvent(s.tables.events, id)
    ensures HasEvent(Next(s, e).tables.events, id)
  {
    if e.Deliver? {
      EventAppended(s.tables.events, EventOf(e.p));
    }
    hide HasEvent, FindRow, CountRows;
  }

  lemma {:induction false} EventsKeptInRun(s: State, steps: seq<Step>, id: string)
    requires HasEvent(s.tables.events, id)
    ensures HasEvent(Run(s, steps).tables.events, id)
    decreases |steps|
  {
    if steps == [] {
    } else {
      EventsKept(s, steps[0], id);
      EventsKeptInRun(Next(s, steps[0]), steps[1..], id);
    }
  }

  lemma {:induction false} SignedEventIsKept(s: State, steps: seq<Step>, k: nat)
    requires PairsUnique(s.tables.rows) && k < |steps| && steps[k].Deliver? && steps[k].authentic
    ensures HasEvent(Run(s, steps).tables.events, steps[k].p.eventId)
    decreases |steps|
  {
    NextKeepsPairsUnique(s, steps[0]);
    if k == 0 {
      UniqueCount(s.tables.rows, steps[0].p.user, steps[0].p.device);
      SignedIsRecorded(s, steps[0].p);
      EventsKeptInRun(Next(s, steps[0]), steps[1..], steps[0].p.eventId);
    } else {
      SignedEventIsKept(Next(s, steps[0]), steps[1..], k - 1);
    }
  }

  lemma {:induction false} CheckedAt(mac: string -> string, posts: seq<Post>, k: nat)
    requires k < |posts| && posts[k].Webhooked?
    ensures Checked(mac, posts)[k] == Deliver(posts[k].p, VerifySignature(mac, posts[k].signature, posts[k].rawBody))
  {
    if k == 0 {
    } else {
      CheckedAt(mac, posts[1..], k - 1);
    }
  }

  /** And every post so signed has its event recorded, as long as the hash is not the empty string. */
  lemma EverySignedPostCounts(mac: string -> string, posts: seq<Post>, k: nat)
    requires k < |posts| && posts[k].Webhooked?
    requires posts[k].signature == Some(mac(posts[k].rawBody)) && mac(posts[k].rawBody) != ""
    ensures HasEvent(Run(EMPTY, Checked(mac, posts)).tables.events, posts[k].p.eventId)
  {
    CheckedAt(mac, posts, k);
    SignedEventIsKept(EMPTY, Checked(mac, posts), k);
  }

  // Answers.

  /** An accepted post is answered with what the table gives for its pair right after it. */
  lemma WebhookAnswersTheTable(s: State, p: Payload)
    requires PairsUnique(s.tables.rows)
    ensures
      var (after, answer) := Webhook(s, p, true);
      answer == TableAnswer(after.tables, p.user, p.device)
  {
    UniqueCount(s.tables.rows, p.user, p.device);
    if !HasEvent(s.tables.events, p.eventId) {
      var r := RowOf(p, s.now);
      NextKeepsPairsUnique(s, Deliver(p, true));
      UpsertThenFind(s.tables.rows, r, p.user, p.device);
      UniqueCount(Upsert(s.tables.rows, r), p.user, p.device);
    }
    hide HasEvent, PairsUnique, Upsert, FindRow, CountRows;
  }

  /** A first delivery is answered with its own plan, and a read right after gets the same answer. */
  lemma FirstDeliveryIsAnswered(s: State, p: Payload)
    requires CountRows(s.tables.rows, p.user, p.device) <= 1 && !HasEvent(s.tables.events, p.eventId)
    requires p.planTier != ""
    ensures
      var (after, answer) := Webhook(s, p, true);
      && answer == Found(View(p.user, p.device, p.planCode, p.status, p.planTier,
                              Some(if p.expiresAt.Some? then p.expiresAt.value else s.now + 604800000)))
      && GetSubscription(after, p.user, p.device).1 == answer
  {
  }

  /** A read leaves a live entry that names a plan tier alone; otherwise, if the table has one row for the
      pair, the entry becomes that row for another 900 seconds. */
  lemma ReadRefreshes(s: State, user: string, device: string)
    ensures
      var key, t := CacheKey(user, device), GetSubscription(s, user, device).0;
      var answer := TableAnswer(s.tables, user, device);
      var hit := Live(s.cache, key, s.now) && s.cache[key].value.planTier != "";
      && t.tables == s.tables && t.now == s.now
      && (hit || !answer.Found? ==> t == s)
      && (!hit && answer.Found? ==>
          var v := answer.view;
          t.cache == s.cache[key := Timed(Cached(v.status, v.planTier, v.planCode, v.expiresAt), Some(s.now + 900000))])
  {
  }

  // Cache transparency.

  predicate Backs(r: Row, key: string, c: Cached)
  {
    CacheKey(r.user, r.device) == key && CachedOf(r) == c
  }

  /** Every cached entry is the row of the only pair with that key. */
  ghost predicate CacheOk(s: State)
  {
    forall k | k in s.cache :: exists i :: 0 <= i < |s.tables.rows| && Backs(s.tables.rows[i], k, s.cache[k].value)
  }

  /** The cache keys of the pairs are all different. */
  ghost predicate KeysInjective(pairs: set<(string, string)>)
  {
    forall p, q | p in pairs && q in pairs && CacheKey(p.0, p.1) == CacheKey(q.0, q.1) :: p == q
  }

  ghost predicate RowsWithin(s: State, pairs: set<(string, string)>)
  {
    forall i | 0 <= i < |s.tables.rows| :: (s.tables.rows[i].user, s.tables.rows[i].device) in pairs
  }

  predicate Touches(e: Step, pairs: set<(string, string)>)
  {
    match e
    case Deliver(p, _) => (p.user, p.device) in pairs
    case Read(user, device) => (user, device) in pairs
    case Tick(_) => true
  }

  lemma UpsertKeepsOthers(s: State, r: Row, pairs: set<(string, string)>, k: string)
    requires KeysInjective(pairs) && CacheOk(s) && RowsWithin(s, pairs) && (r.user, r.device) in pairs
    requires k in s.cache && k != CacheKey(r.user, r.device)
    ensures exists i :: 0 <= i < |Upsert(s.tables.rows, r)| && Backs(Upsert(s.tables.rows, r)[i], k, s.cache[k].value)
  {
    var i :| 0 <= i < |s.tables.rows| && Backs(s.tables.rows[i], k, s.cache[k].value);
    assert Upsert(s.tables.rows, r)[i] == s.tables.rows[i];
  }

  lemma CacheOkStep(s: State, e: Step, pairs: set<(string, string)>)
    requires KeysInjective(pairs) && Touches(e, pairs)
    requires CacheOk(s) && RowsWithin(s, pairs)
    ensures CacheOk(Next(s, e)) && RowsWithin(Next(s, e), pairs)
  {
    var t := Next(s, e);
    if e.Deliver? && t != s {
      var r := RowOf(e.p, s.now);
      var n := FindRow(s.tables.rows, r.user, r.device);
      assert t.tables.rows[n] == r;
      forall k | k in t.cache
        ensures exists i :: 0 <= i < |t.tables.rows| && Backs(t.tables.rows[i], k, t.cache[k].value)
      {
        if k == CacheKey(r.user, r.device) {
          assert Backs(t.tables.rows[n], k, t.cache[k].value);
        } else {
          UpsertKeepsOthers(s, r, pairs, k);
        }
      }
    } else if e.Read? {
      var n := FindRow(s.tables.rows, e.user, e.device);
      if n < |s.tables.rows| {
        assert Backs(s.tables.rows[n], CacheKey(e.user, e.device), CachedOf(s.tables.rows[n]));
      }
    }
  }

  lemma {:induction false} CacheOkRun(s: State, steps: seq<Step>, pairs: set<(string, string)>)
    requires KeysInjective(pairs) && forall e | e in steps :: Touches(e, pairs)
    requires CacheOk(s) && RowsWithin(s, pairs)
    ensures CacheOk(Run(s, steps)) && RowsWithin(Run(s, steps), pairs)
    decreases |steps|
  {
    if steps == [] {
    } else {
      assert steps[0] in steps;
      CacheOkStep(s, steps[0], pairs);
      CacheOkRun(Next(s, steps[0]), steps[1..], pairs);
    }
  }

  predicate Agrees(s: State, user: string, device: string)
  {
    GetSubscription(s, user, device).1 == TableAnswer(s.tables, user, device)
  }

  /** For these pairs the cache never changes an answer, in any run that touches only them. */
  ghost predicate Transparent(pairs: set<(string, string)>)
  {
    forall steps, p | (forall e | e in steps :: Touches(e, pairs)) && p in pairs :: Agrees(Run(EMPTY, steps), p.0, p.1)
  }

  lemma CacheAgrees(s: State, pairs: set<(string, string)>, p: (string, string))
    requires KeysInjective(pairs) && CacheOk(s) && RowsWithin(s, pairs) && PairsUnique(s.tables.rows) && p in pairs
    ensures Agrees(s, p.0, p.1)
  {
    var k := CacheKey(p.0, p.1);
    if k in s.cache {
      var i :| 0 <= i < |s.tables.rows| && Backs(s.tables.rows[i], k, s.cache[k].value);
      var r := s.tables.rows[i];
      assert (r.user, r.device) == p && IsFor(r, p.0, p.1);
      UniqueCount(s.tables.rows, p.0, p.1);
      assert FindRow(s.tables.rows, p.0, p.1) == i;
    }
  }

  lemma InjectiveKeysAreTransparent(pairs: set<(string, string)>)
    requires KeysInjective(pairs)
    ensures Transparent(pairs)
  {
    forall steps, p | (forall e | e in steps :: Touches(e, pairs)) && p in pairs
      ensures Agrees(Run(EMPTY, steps), p.0, p.1)
    {
      CacheOkRun(EMPTY, steps, pairs);
      WebhookExactlyOnce(steps);
      CacheAgrees(Run(EMPTY, steps), pairs, p);
    }
  }

  function SamplePayload(id: string, p: (string, string), tier: string): Payload
  {
    Payload("", id, p.0, p.1, "", tier, "", None, false, "")
  }

  function OneDelivery(p: Payload): State
  {
    State(0, Tables([EventOf(p)], [RowOf(p, 0)]),
          map[CacheKey(p.user, p.device) := Timed(CachedOf(RowOf(p, 0)), Some(CACHE_TTL))])
  }

  lemma FirstDelivery(p: Payload)
    ensures Next(EMPTY, Deliver(p, true)) == OneDelivery(p)
  {
  }

  lemma SecondDelivery(p: Payload, q: Payload)
    requires p.eventId != q.eventId && (p.user != q.user || p.device != q.device)
    requires CacheKey(p.user, p.device) == CacheKey(q.user, q.device)
    ensures
      var t := Next(OneDelivery(p), Deliver(q, true));
      && t.tables.rows == [RowOf(p, 0), RowOf(q, 0)] && t.now == 0
      && t.cache == map[CacheKey(p.user, p.device) := Timed(CachedOf(RowOf(q, 0)), Some(CACHE_TTL))]
  {
    var s := OneDelivery(p);
    assert !HasEvent(s.tables.events, q.eventId);
    hide HasEvent, CacheKey;
    assert !IsFor(s.tables.rows[0], q.user, q.device) && s.tables.rows[1..] == [];
    assert FindRow(s.tables.rows[1..], q.user, q.device) == 0;
    assert CountRows(s.tables.rows[1..], q.user, q.device) == 0;
    assert FindRow(s.tables.rows, q.user, q.device) == 1 && CountRows(s.tables.rows, q.user, q.device) == 0;
  }

  /** The plans of two pairs are delivered one after the other. */
  lemma TwoDeliveries(p: Payload, q: Payload, steps: seq<Step>)
    requires steps == [Deliver(p, true), Deliver(q, true)]
    ensures Run(EMPTY, steps) == Next(OneDelivery(p), Deliver(q, true))
  {
    FirstDelivery(p);
    hide Next, OneDelivery;
    var s := OneDelivery(p);
    assert steps[1..] == [Deliver(q, true)] && [Deliver(q, true)][1..] == [];
    assert Run(s, steps[1..]) == Run(Next(s, Deliver(q, true)), []);
  }

  lemma CollidingKeysDisagree(pairs: set<(string, string)>, p: (string, string), q: (string, string))
    requires p in pairs && q in pairs && p != q && CacheKey(p.0, p.1) == CacheKey(q.0, q.1)
    ensures !Transparent(pairs)
  {
    var a, b := SamplePayload("a", p, "x"), SamplePayload("b", q, "y");
    var steps := [Deliver(a, true), Deliver(b, true)];
    var t := Run(EMPTY, steps);
    assert "a"[0] != "b"[0] && (p.0 != q.0 || p.1 != q.1);
    TwoDeliveries(a, b, steps);
    SecondDelivery(a, b);
    hide Run, Next, OneDelivery;
    assert forall e | e in steps :: Touches(e, pairs);
    assert GetSubscription(t, p.0, p.1).1.view.planTier == "y";
    assert IsFor(t.tables.rows[0], p.0, p.1) && FindRow(t.tables.rows, p.0, p.1) == 0;
    assert !Agrees(t, p.0, p.1);
  }

  /** The cache is transparent for a set of pairs exactly when their cache keys differ. */
  lemma CacheTransparency(pairs: set<(string, string)>)
    ensures Transparent(pairs) <==> KeysInjective(pairs)
  {
    if KeysInjective(pairs) {
      InjectiveKeysAreTransparent(pairs);
    } else {
      var p, q :| p in pairs && q in pairs && CacheKey(p.0, p.1) == CacheKey(q.0, q.1) && p != q;
      CollidingKeysDisagree(pairs, p, q);
    }
  }

  /** User ids without colons are enough for that. */
  lemma ColonFreeUsersAreTransparent(pairs: set<(string, string)>)
    requires forall p | p in pairs :: NoColon(p.0)
    ensures Transparent(pairs)
  {
    forall p, q | p in pairs && q in pairs && CacheKey(p.0, p.1) == CacheKey(q.0, q.1)
      ensures p == q
    {
      assert CacheKey(p.0, p.1)[4..] == p.0 + ":" + p.1 && CacheKey(q.0, q.1)[4..] == q.0 + ":" + q.1;
      FirstColon(p.0, p.1, q.0, q.1);
    }
    CacheTransparency(pairs);
  }

  // Overlapping deliveries.

  /** What the row select of an open transaction saw. */
  datatype Selection = NotYet | SawNone | SawRow(index: nat)

  /** A delivery that passed the duplicate check and has not committed. */
  datatype Transaction = Transaction(p: Payload, selection: Selection)

  datatype Committed = Committed(p: Payload, at: int, inserted: bool)

  datatype Overlap = Overlap(tables: Tables, open: map<nat, Transaction>, commits: seq<Committed>)

  const NO_DELIVERIES := Overlap(Tables([], []), map[], [])

  datatype Move = Check(h: nat, p: Payload) | SelectRow(h: nat) | Commit(h: nat, now: int)

  predicate Possible(s: Overlap, m: Move)
  {
    match m
    case Check(h, _) => h !in s.open
    case SelectRow(h) => h in s.open && s.open[h].selection.NotYet?
    case Commit(h, _) => h in s.open && !s.open[h].selection.NotYet?
  }

  /** scalar_one_or_none on the rows of a pair; None when it raises. */
  function Selecting(rows: seq<Row>, user: string, device: string): Option<Selection>
  {
    var i := FindRow(rows, user, device);
    if CountRows(rows, user, device) > 1 then None
    else Some(if i < |rows| then SawRow(i) else SawNone)
  }

  /** The write the handler decided on when it selected: no row can disappear in between. */
  function Written(rows: seq<Row>, selection: Selection, r: Row): seq<Row>
  {
    if selection.SawRow? && selection.index < |rows| then rows[selection.index := r] else rows + [r]
  }

  /** Check, row select and commit are separate; the unique index on event_id aborts a
      transaction that lost the race, and nothing keeps a pair to one row. */
  function Moved(s: Overlap, m: Move): Overlap
    requires Possible(s, m)
  {
    match m
    case Check(h, p) =>
      if HasEvent(s.tables.events, p.eventId) then s else s.(open := s.open[h := Transaction(p, NotYet)])
    case SelectRow(h) =>
      var p := s.open[h].p;
      (match Selecting(s.tables.rows, p.user, p.device)
       case None => s.(open := s.open - {h})
       case Some(selection) => s.(open := s.open[h := Transaction(p, selection)]))
    case Commit(h, now) =>
      var Transaction(p, selection) := s.open[h];
      if HasEvent(s.tables.events, p.eventId) then s.(open := s.open - {h})
      else
        Overlap(Tables(s.tables.events + [EventOf(p)], Written(s.tables.rows, selection, RowOf(p, now))),
                s.open - {h}, s.commits + [Committed(p, now, selection.SawNone?)])
  }

  ghost predicate Moves(s: Overlap, ms: seq<Move>, t: Overlap)
    decreases |ms|
  {
    if ms == [] then s == t
    else Possible(s, ms[0]) && Moves(Moved(s, ms[0]), ms[1..], t)
  }

  function EventsOf(cs: seq<Committed>): (events: seq<Event>)
    ensures |events| == |cs| && forall i | 0 <= i < |cs| :: events[i] == EventOf(cs[i].p)
  {
    seq(|cs|, i requires 0 <= i < |cs| => EventOf(cs[i].p))
  }

  function DeliveriesOf(cs: seq<Committed>): (ds: seq<Delivery>)
    ensures |ds| == |cs| && forall i | 0 <= i < |cs| :: ds[i] == Delivery(cs[i].p, cs[i].at)
  {
    seq(|cs|, i requires 0 <= i < |cs| => Delivery(cs[i].p, cs[i].at))
  }

  /** Commits of a pair whose select saw no row. */
  function Inserts(cs: seq<Committed>, user: string, device: string): nat
  {
    if cs == [] then 0
    else
      var c := cs[|cs| - 1];
      Inserts(cs[..|cs| - 1], user, device)
      + if c.inserted && c.p.user == user && c.p.device == device then 1 else 0
  }

  /** No two transactions that saw no row for one pair have both committed. */
  ghost predicate NoDoubleInsert(cs: seq<Committed>)
  {
    forall user, device :: Inserts(cs, user, device) <= 1
  }

  // The event table, and how many rows a pair has.

  ghost predicate EventsOk(s: Overlap)
  {
    && s.tables.events == EventsOf(s.commits)
    && forall i, j | 0 <= i < j < |s.commits| :: s.commits[i].p.eventId != s.commits[j].p.eventId
  }

  predicate SelectionOk(rows: seq<Row>, x: Transaction)
  {
    x.selection.SawRow? ==> x.selection.index < |rows| && IsFor(rows[x.selection.index], x.p.user, x.p.device)
  }

  ghost predicate RowsOk(s: Overlap)
  {
    && (forall h | h in s.open :: SelectionOk(s.tables.rows, s.open[h]))
    && forall user, device :: CountRows(s.tables.rows, user, device) == Inserts(s.commits, user, device)
  }

  lemma {:induction false} CountAppended(rows: seq<Row>, r: Row, user: string, device: string)
    ensures CountRows(rows + [r], user, device)
         == CountRows(rows, user, device) + if IsFor(r, user, device) then 1 else 0
  {
    if rows == [] {
      assert rows + [r] == [r] && [r][1..] == [];
    } else {
      assert (rows + [r])[1..] == rows[1..] + [r];
      CountAppended(rows[1..], r, user, device);
    }
  }

  lemma {:induction false} CountReplaced(rows: seq<Row>, i: nat, r: Row, user: string, device: string)
    requires i < |rows| && IsFor(rows[i], r.user, r.device)
    ensures CountRows(rows[i := r], user, device) == CountRows(rows, user, device)
  {
    if i == 0 {
      assert rows[0 := r][1..] == rows[1..];
    } else {
      assert rows[i := r][1..] == rows[1..][i - 1 := r];
      CountReplaced(rows[1..], i - 1, r, user, device);
    }
  }

  lemma CommitKeepsEvents(s: Overlap, h: nat, now: int)
    requires EventsOk(s) && Possible(s, Commit(h, now))
    ensures EventsOk(Moved(s, Commit(h, now)))
  {
    var p := s.open[h].p;
    if !HasEvent(s.tables.events, p.eventId) {
      var t := Moved(s, Commit(h, now));
      assert t.tables.events == EventsOf(t.commits);
      forall i | 0 <= i < |s.commits|
        ensures s.commits[i].p.eventId != p.eventId
      {
        assert s.tables.events[i].eventId == s.commits[i].p.eventId;
      }
    }
  }

  lemma CommitKeepsRows(s: Overlap, h: nat, now: int)
    requires RowsOk(s) && Possible(s, Commit(h, now))
    ensures RowsOk(Moved(s, Commit(h, now)))
  {
    var x, rows, t := s.open[h], s.tables.rows, Moved(s, Commit(h, now));
    var r := RowOf(x.p, now);
    assert SelectionOk(rows, x);
    if t.commits != s.commits {
      assert t.commits[..|s.commits|] == s.commits;
      forall user, device
        ensures CountRows(t.tables.rows, user, device) == Inserts(t.commits, user, device)
      {
        if x.selection.SawRow? {
          CountReplaced(rows, x.selection.index, r, user, device);
        } else {
          CountAppended(rows, r, user, device);
        }
      }
      forall k | k in t.open
        ensures SelectionOk(t.tables.rows, t.open[k])
      {
        assert SelectionOk(rows, s.open[k]);
      }
    }
  }

  lemma MoveKeepsInv(s: Overlap, m: Move)
    requires EventsOk(s) && RowsOk(s) && Possible(s, m)
    ensures EventsOk(Moved(s, m)) && RowsOk(Moved(s, m))
  {
    match m
    case Check(_, _) =>
    case SelectRow(h) =>
    case Commit(h, now) =>
      CommitKeepsEvents(s, h, now);
      CommitKeepsRows(s, h, now);
  }

  lemma {:induction false} MovesKeepInv(s: Overlap, ms: seq<Move>, t: Overlap)
    requires EventsOk(s) && RowsOk(s) && Moves(s, ms, t)
    ensures EventsOk(t) && RowsOk(t)
    decreases |ms|
  {
    if ms == [] {
    } else {
      MoveKeepsInv(s, ms[0]);
      MovesKeepInv(Moved(s, ms[0]), ms[1..], t);
    }
  }

  /** However deliveries overlap, the event table holds each committed event once, in the order of
      the commits, and a pair has as many rows as commits of it whose select saw none. */
  lemma OverlapAppliesOnce(ms: seq<Move>, t: Overlap)
    requires Moves(NO_DELIVERIES, ms, t)
    ensures t.tables.events == EventsOf(t.commits)
    ensures forall i, j | 0 <= i < j < |t.commits| :: t.commits[i].p.eventId != t.commits[j].p.eventId
    ensures forall user, device :: CountRows(t.tables.rows, user, device) == Inserts(t.commits, user, device)
  {
    MovesKeepInv(NO_DELIVERIES, ms, t);
  }

  // When the subscription table is the fold over the commits.

  lemma {:induction false} CountedOnce(rows: seq<Row>, i: nat, user: string, device: string)
    requires i < |rows| && IsFor(rows[i], user, device)
    ensures CountRows(rows, user, device) >= 1
  {
    if i == 0 {
    } else {
      CountedOnce(rows[1..], i - 1, user, device);
    }
  }

  lemma {:induction false} CountedTwice(rows: seq<Row>, i: nat, j: nat, user: string, device: string)
    requires i < j < |rows| && IsFor(rows[i], user, device) && IsFor(rows[j], user, device)
    ensures CountRows(rows, user, device) >= 2
  {
    if i == 0 {
      CountedOnce(rows[1..], j - 1, user, device);
    } else {
      CountedTwice(rows[1..], i - 1, j - 1, user, device);
    }
  }

  lemma UniqueWhenCountedOnce(rows: seq<Row>)
    requires forall user, device :: CountRows(rows, user, device) <= 1
    ensures PairsUnique(rows)
  {
    forall i, j | 0 <= i < j < |rows|
      ensures !IsFor(rows[i], rows[j].user, rows[j].device)
    {
      if IsFor(rows[i], rows[j].user, rows[j].device) {
        CountedTwice(rows, i, j, rows[j].user, rows[j].device);
      }
    }
  }

  ghost predicate IsFold(s: Overlap)
  {
    s.tables == ApplyAll(Tables([], []), DeliveriesOf(s.commits))
  }

  /** A commit is an upsert unless it is the second insert of its pair. */
  lemma WrittenIsUpsert(rows: seq<Row>, x: Transaction, r: Row)
    requires !x.selection.NotYet? && r.user == x.p.user && r.device == x.p.device && SelectionOk(rows, x)
    requires PairsUnique(rows) && (x.selection.SawNone? ==> CountRows(rows, r.user, r.device) == 0)
    ensures Written(rows, x.selection, r) == Upsert(rows, r)
  {
    UniqueCount(rows, r.user, r.device);
  }

  lemma CommitKeepsFold(s: Overlap, h: nat, now: int)
    requires RowsOk(s) && Possible(s, Commit(h, now)) && (NoDoubleInsert(s.commits) ==> IsFold(s))
    requires NoDoubleInsert(Moved(s, Commit(h, now)).commits)
    ensures IsFold(Moved(s, Commit(h, now)))
  {
    var x, rows, t := s.open[h], s.tables.rows, Moved(s, Commit(h, now));
    if t.commits != s.commits {
      var r := RowOf(x.p, now);
      assert t.commits[..|s.commits|] == s.commits;
      forall user, device
        ensures Inserts(s.commits, user, device) <= 1
        ensures x.selection.SawNone? && IsFor(r, user, device) ==> Inserts(s.commits, user, device) == 0
      {
        assert Inserts(t.commits, user, device) <= 1;
      }
      assert forall user, device :: CountRows(rows, user, device) <= 1;
      UniqueWhenCountedOnce(rows);
      assert SelectionOk(rows, x);
      WrittenIsUpsert(rows, x, r);
      ApplyAllAppend(Tables([], []), DeliveriesOf(s.commits), Delivery(x.p, now));
      assert DeliveriesOf(t.commits) == DeliveriesOf(s.commits) + [Delivery(x.p, now)];
    }
  }

  lemma {:induction false} MovesKeepFold(s: Overlap, ms: seq<Move>, t: Overlap)
    requires EventsOk(s) && RowsOk(s) && (NoDoubleInsert(s.commits) ==> IsFold(s)) && Moves(s, ms, t)
    ensures NoDoubleInsert(t.commits) ==> IsFold(t)
    decreases |ms|
  {
    if ms == [] {
    } else {
      var u := Moved(s, ms[0]);
      MoveKeepsInv(s, ms[0]);
      if NoDoubleInsert(u.commits) && ms[0].Commit? {
        CommitKeepsFold(s, ms[0].h, ms[0].now);
      }
      MovesKeepFold(u, ms[1..], t);
    }
  }

  lemma {:induction false} FoldIsUnique(ds: seq<Delivery>)
    ensures PairsUnique(ApplyAll(Tables([], []), ds).rows)
  {
    if ds == [] {
    } else {
      var n := |ds| - 1;
      FoldIsUnique(ds[..n]);
      assert ds == ds[..n] + [ds[n]];
      ApplyAllAppend(Tables([], []), ds[..n], ds[n]);
    }
  }

  /** The tables are the fold over the commits, and a pair has one row, exactly when no two
      transactions that saw no row for one pair both committed. */
  lemma OverlapIsFoldExactlyWhen(ms: seq<Move>, t: Overlap)
    requires Moves(NO_DELIVERIES, ms, t)
    ensures t.tables == ApplyAll(Tables([], []), DeliveriesOf(t.commits)) <==> NoDoubleInsert(t.commits)
    ensures PairsUnique(t.tables.rows) <==> NoDoubleInsert(t.commits)
  {
    MovesKeepInv(NO_DELIVERIES, ms, t);
    MovesKeepFold(NO_DELIVERIES, ms, t);
    FoldIsUnique(DeliveriesOf(t.commits));
    if PairsUnique(t.tables.rows) {
      forall user, device
        ensures Inserts(t.commits, user, device) <= 1
      {
        UniqueCount(t.tables.rows, user, device);
      }
    }
  }

  lemma BothSeeNoRow(p: Payload, q: Payload) returns (ms: seq<Move>, u: Overlap)
    ensures Moves(NO_DELIVERIES, ms, u)
    ensures u == Overlap(Tables([], []), map[0 := Transaction(p, SawNone), 1 := Transaction(q, SawNone)], [])
  {
    var a := Moved(NO_DELIVERIES, Check(0, p));
    var b := Moved(a, Check(1, q));
    var c := Moved(b, SelectRow(0));
    u := Moved(c, SelectRow(1));
    ms := [Check(0, p), Check(1, q), SelectRow(0), SelectRow(1)];
    assert Moves(u, ms[4..], u);
    assert Moves(c, ms[3..], u) by { assert ms[3..][1..] == ms[4..]; }
    assert Moves(b, ms[2..], u) by { assert ms[2..][1..] == ms[3..]; }
    assert Moves(a, ms[1..], u) by { assert ms[1..][1..] == ms[2..]; }
  }

  lemma BothCommit(p: Payload, q: Payload, u: Overlap) returns (ms: seq<Move>, t: Overlap)
    requires p.eventId != q.eventId
    requires u == Overlap(Tables([], []), map[0 := Transaction(p, SawNone), 1 := Transaction(q, SawNone)], [])
    ensures Moves(u, ms, t) && t.tables.rows == [RowOf(p, 0), RowOf(q, 0)]
    ensures t.commits == [Committed(p, 0, true), Committed(q, 0, true)]
  {
    var e := Moved(u, Commit(0, 0));
    assert e.tables.events == [EventOf(p)] && !HasEvent(e.tables.events, q.eventId);
    assert e.commits == [Committed(p, 0, true)] && e.tables.rows == [RowOf(p, 0)];
    t := Moved(e, Commit(1, 0));
    ms := [Commit(0, 0), Commit(1, 0)];
    assert Moves(t, ms[2..], t);
    assert Moves(e, ms[1..], t) by { assert ms[1..][1..] == ms[2..]; }
  }

  lemma {:induction false} MovesConcat(s: Overlap, a: seq<Move>, u: Overlap, b: seq<Move>, t: Overlap)
    requires Moves(s, a, u) && Moves(u, b, t)
    ensures Moves(s, a + b, t)
    decreases |a|
  {
    if a == [] {
      assert a + b == b;
    } else {
      assert (a + b)[1..] == a[1..] + b;
      MovesConcat(Moved(s, a[0]), a[1..], u, b, t);
    }
  }

  lemma InsertedTwice(p: Payload, q: Payload)
    requires p.user == q.user && p.device == q.device
    ensures !NoDoubleInsert([Committed(p, 0, true), Committed(q, 0, true)])
  {
    var one, two := [Committed(p, 0, true)], [Committed(p, 0, true), Committed(q, 0, true)];
    assert two[..1] == one && one[..0] == [];
    assert Inserts(one, p.user, p.device) == 1;
    assert Inserts(two, p.user, p.device) == 2;
  }

  /** Two overlapping first events of one new pair leave two rows, after which the pair has no
      answer. */
  lemma TwoFirstEventsLeaveTwoRows(p: Payload, q: Payload) returns (ms: seq<Move>, t: Overlap)
    requires p.user == q.user && p.device == q.device && p.eventId != q.eventId
    ensures Moves(NO_DELIVERIES, ms, t) && t.tables.rows == [RowOf(p, 0), RowOf(q, 0)]
    ensures TableAnswer(t.tables, p.user, p.device) == MultipleRows && !NoDoubleInsert(t.commits)
  {
    var a, u := BothSeeNoRow(p, q);
    var b;
    b, t := BothCommit(p, q, u);
    hide Moves, Moved;
    MovesConcat(NO_DELIVERIES, a, u, b, t);
    ms := a + b;
    CountedTwice(t.tables.rows, 0, 1, p.user, p.device);
    InsertedTwice(p, q);
  }
}
