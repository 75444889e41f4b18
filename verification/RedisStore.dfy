/** The part of Redis the service relies on: string keys with an optional expiry instant, a
    server clock, and one pub/sub channel. A key prefix is only ever used with one Redis type,
    so text keys and counters are kept in two maps. Times are milliseconds.

    `Db` is the value of the whole server; class `Redis` is the server the handlers update. */
module RedisStore {
  import Glob

  datatype Option<+T> = None | Some(value: T)

  /** A stored value and the instant it expires, None for a key without expiry. */
  datatype Timed<+V> = Timed(value: V, deadline: Option<int>)

  datatype Db = Db(
    now: nat,
    texts: map<string, Timed<string>>,
    counts: map<string, Timed<int>>,
    channel: seq<string>)

  /** A key is live until the clock is past its deadline. A lapsed key may still be in the map, but
      no command sees it. */
  predicate Live<V>(m: map<string, Timed<V>>, key: string, now: int)
  {
    key in m && (m[key].deadline.None? || now <= m[key].deadline.value)
  }

  /** TTL: -2 for no such key, -1 for no expiry, otherwise whole seconds rounded to nearest,
      so that a live key with less than half a second left reports 0. */
  function Ttl(db: Db, key: string): int
  {
    if !Live(db.texts, key, db.now) then -2
    else if db.texts[key].deadline.None? then -1
    else (db.texts[key].deadline.value - db.now + 500) / 1000
  }

  /** TTL tells missing, permanent and lapsing keys apart, and is within half a second of what is left. */
  lemma TtlRounds(db: Db, key: string)
    ensures
      var live := Live(db.texts, key, db.now);
      && (Ttl(db, key) == -2 <==> !live)
      && (Ttl(db, key) == -1 <==> live && db.texts[key].deadline.None?)
      && (live && db.texts[key].deadline.Some? ==>
          var left := db.texts[key].deadline.value - db.now;
          -500 < Ttl(db, key) * 1000 - left <= 500 && Ttl(db, key) >= 0)
  {
  }

  function WithText(db: Db, key: string, value: string, seconds: int): Db
  {
    db.(texts := db.texts[key := Timed(value, Some(db.now + seconds * 1000))])
  }

  function Without(db: Db, keys: set<string>): Db
  {
    db.(texts := db.texts - keys)
  }

  /** INCR: a missing or expired counter restarts at 1 without expiry. */
  function Incremented(db: Db, key: string): (Db, int)
  {
    var entry := if Live(db.counts, key, db.now)
                 then Timed(db.counts[key].value + 1, db.counts[key].deadline)
                 else Timed(1, None);
    (db.(counts := db.counts[key := entry]), entry.value)
  }

  /** EXPIRE on a counter: no effect on a missing key, and a window that is not positive
      removes the key. */
  function Expiring(db: Db, key: string, seconds: int): Db
  {
    if !Live(db.counts, key, db.now) then db
    else if seconds <= 0 then db.(counts := db.counts - {key})
    else db.(counts := db.counts[key := Timed(db.counts[key].value, Some(db.now + seconds * 1000))])
  }

  function Published(db: Db, message: string): Db
  {
    db.(channel := db.channel + [message])
  }

  function LapsedIn(texts: map<string, Timed<string>>, now: int, pattern: string, slots: set<string>): set<string>
  {
    set k | k in slots && k in texts && !Live(texts, k, now) && Glob.Matches(pattern, k)
  }

  /** What other tasks do to the text keys between two commands of a handler. */
  datatype Interference = Interference(writes: map<string, Timed<string>>, removes: set<string>)

  function Disturbed(db: Db, other: Interference): Db
  {
    db.(texts := db.texts - other.removes + other.writes)
  }

  /** The commands whose order other processes can tell apart. */
  datatype Command = Wrote(key: string) | Announced(message: string)

  class Redis {
    var now: nat
    var texts: map<string, Timed<string>>
    var counts: map<string, Timed<int>>
    var channel: seq<string>
    /** Writes and publishes in the order they were run. */
    ghost var journal: seq<Command>

    ghost function Snapshot(): Db
      reads this
    {
      Db(now, texts, counts, channel)
    }

    constructor (start: nat)
      ensures Snapshot() == Db(start, map[], map[], []) && journal == []
    {
      now, texts, counts, channel := start, map[], map[], [];
      journal := [];
    }

    /** SET with EX: the server refuses an expiry that is not positive. */
    method Set(key: string, value: string, seconds: int) returns (ok: bool)
      modifies this`texts, this`journal
      ensures journal == if ok then old(journal) + [Wrote(key)] else old(journal)
      ensures ok <==> seconds > 0
      ensures Snapshot() == if ok then WithText(old(Snapshot()), key, value, seconds) else old(Snapshot())
    {
      ok := seconds > 0;
      if ok {
        texts := texts[key := Timed(value, Some(now + seconds * 1000))];
        journal := journal + [Wrote(key)];
      }
    }

    method TimeToLive(key: string) returns (seconds: int)
      ensures seconds == Ttl(Snapshot(), key)
    {
      if key !in texts {
        return -2;
      }
      match texts[key].deadline
      case None => return -1;
      case Some(d) => return if now <= d then (d - now + 500) / 1000 else -2;
    }

    /** One SCAN MATCH call over some slots of the key table: yields the live matching keys in
        them, and drops the lapsed ones it meets. */
    method Scan(pattern: string, slots: set<string>) returns (keys: set<string>)
      modifies this`texts
      ensures keys == set k | k in slots && Live(old(texts), k, now) && Glob.Matches(pattern, k)
      ensures Snapshot() == Without(old(Snapshot()), LapsedIn(old(texts), now, pattern, slots))
    {
      keys := set k | k in slots && Live(texts, k, now) && Glob.Matches(pattern, k);
      texts := texts - LapsedIn(texts, now, pattern, slots);
    }

    method Disturb(other: Interference)
      modifies this`texts
      ensures Snapshot() == Disturbed(old(Snapshot()), other)
    {
      texts := texts - other.removes + other.writes;
    }

    method Delete(keys: set<string>)
      modifies this`texts
      ensures Snapshot() == Without(old(Snapshot()), keys)
    {
      texts := texts - keys;
    }

    method Incr(key: string) returns (count: int)
      modifies this`counts
      ensures (Snapshot(), count) == Incremented(old(Snapshot()), key)
    {
      if Live(counts, key, now) {
        counts := counts[key := Timed(counts[key].value + 1, counts[key].deadline)];
      } else {
        counts := counts[key := Timed(1, None)];
      }
      count := counts[key].value;
    }

    method Expire(key: string, seconds: int)
      modifies this`counts
      ensures Snapshot() == Expiring(old(Snapshot()), key, seconds)
    {
      if Live(counts, key, now) {
        if seconds <= 0 {
          counts := counts - {key};
        } else {
          counts := counts[key := Timed(counts[key].value, Some(now + seconds * 1000))];
        }
      }
    }

    method Publish(message: string)
      modifies this`channel, this`journal
      ensures journal == old(journal) + [Announced(message)]
      ensures Snapshot() == Published(old(Snapshot()), message)
    {
      channel := channel + [message];
      journal := journal + [Announced(message)];
    }
  }
}
