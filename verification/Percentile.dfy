/** The worker's 95th-percentile circuit breaker over recent runtimes. */
module Percentile {
  import opened RedisStore
  import opened Sequences

  function Insert(x: nat, s: seq<nat>): (r: seq<nat>)
    ensures |r| == |s| + 1 && multiset(r) == multiset(s) + multiset{x}
  {
    if s == [] || x <= s[0] then [x] + s
    else
      assert s == [s[0]] + s[1..];
      [s[0]] + Insert(x, s[1..])
  }

  /** list.sort(). */
  function Sorted(s: seq<nat>): (r: seq<nat>)
    ensures |r| == |s| && multiset(r) == multiset(s)
  {
    if s == [] then []
    else
      assert s == [s[0]] + s[1..];
      Insert(s[0], Sorted(s[1..]))
  }

  predicate Ascending(s: seq<nat>)
  {
    forall i, j | 0 <= i < j < |s| :: s[i] <= s[j]
  }

  lemma {:induction false} InsertAtLeast(lo: nat, x: nat, s: seq<nat>)
    requires lo <= x && forall i | 0 <= i < |s| :: lo <= s[i]
    ensures forall i | 0 <= i < |Insert(x, s)| :: lo <= Insert(x, s)[i]
  {
    if s == [] || x <= s[0] {
    } else {
      InsertAtLeast(lo, x, s[1..]);
    }
  }

  lemma {:induction false} InsertAscending(x: nat, s: seq<nat>)
    requires Ascending(s)
    ensures Ascending(Insert(x, s))
  {
    if s == [] || x <= s[0] {
    } else {
      InsertAscending(x, s[1..]);
      InsertAtLeast(s[0], x, s[1..]);
    }
  }

  lemma {:induction false} SortedAscending(s: seq<nat>)
    ensures Ascending(Sorted(s))
  {
    if s == [] {
    } else {
      SortedAscending(s[1..]);
      InsertAscending(s[0], Sorted(s[1..]));
    }
  }

  function CountAbove(s: seq<nat>, limit: int): (n: nat)
    ensures n <= |s|
  {
    if s == [] then 0 else CountAbove(s[1..], limit) + if s[0] > limit then 1 else 0
  }

  lemma {:induction false} InsertCount(x: nat, s: seq<nat>, limit: int)
    ensures CountAbove(Insert(x, s), limit) == CountAbove(s, limit) + if x > limit then 1 else 0
  {
    if s != [] && x > s[0] {
      InsertCount(x, s[1..], limit);
    }
  }

  lemma {:induction false} SortedCount(s: seq<nat>, limit: int)
    ensures CountAbove(Sorted(s), limit) == CountAbove(s, limit)
  {
    if s == [] {
    } else {
      SortedCount(s[1..], limit);
      InsertCount(s[0], Sorted(s[1..]), limit);
    }
  }

  /** In an ascending list the i-th element exceeds the limit exactly when at least the
      |s| - i last ones do. */
  lemma {:induction false} AscendingRank(s: seq<nat>, i: nat, limit: int)
    requires Ascending(s) && i < |s|
    ensures s[i] > limit <==> CountAbove(s, limit) >= |s| - i
  {
    if i > 0 {
      AscendingRank(s[1..], i - 1, limit);
      if s[0] > limit {
        assert s[i] > limit;
      }
    } else if s[0] > limit {
      if |s| > 1 {
        AscendingRank(s[1..], 0, limit);
      }
    }
  }

  /** ceil(0.95 n) - 1 for n samples. */
  function Rank95(n: nat): nat
    requires n > 0
  {
    (19 * n + 19) / 20 - 1
  }

  function P95(samples: seq<nat>): Option<nat>
  {
    if samples == [] then None else Some(Sorted(samples)[Rank95(|samples|)])
  }

  /** The percentile exceeds a limit exactly when more than floor(n / 20) samples do. */
  lemma P95Exceeds(samples: seq<nat>, limit: int)
    requires samples != []
    ensures P95(samples).value > limit <==> CountAbove(samples, limit) > |samples| / 20
  {
    SortedAscending(samples);
    SortedCount(samples, limit);
    AscendingRank(Sorted(samples), Rank95(|samples|), limit);
  }

  lemma {:induction false} CountWithout(b: seq<nat>, i: nat, limit: int)
    requires i < |b|
    ensures CountAbove(b, limit) == CountAbove(Removed(b, i), limit) + if b[i] > limit then 1 else 0
  {
    if i == 0 {
      assert Removed(b, 0) == b[1..];
    } else {
      CountWithout(b[1..], i - 1, limit);
      assert Removed(b, i)[1..] == Removed(b[1..], i - 1);
    }
  }

  lemma {:induction false} CountSameMultiset(a: seq<nat>, b: seq<nat>, limit: int)
    requires multiset(a) == multiset(b)
    ensures CountAbove(a, limit) == CountAbove(b, limit)
  {
    if a == [] {
      assert |multiset(b)| == 0;
    } else {
      FirstRemoved(a);
      var i := Occurrence(b, a[0]);
      RemovedMultiset(b, i);
      hide Removed;
      CountSameMultiset(a[1..], Removed(b, i), limit);
      CountWithout(b, i, limit);
    }
  }

  lemma P95NotAbove(a: seq<nat>, b: seq<nat>)
    requires a != [] && multiset(a) == multiset(b) && |a| == |b|
    ensures P95(a).value <= P95(b).value
  {
    var limit := P95(b).value;
    P95Exceeds(a, limit);
    P95Exceeds(b, limit);
    CountSameMultiset(a, b, limit);
  }

  /** Sample order does not matter. */
  lemma P95OrderIndependent(a: seq<nat>, b: seq<nat>)
    requires multiset(a) == multiset(b)
    ensures P95(a) == P95(b)
  {
    assert |a| == |multiset(a)| == |b|;
    if a != [] {
      P95NotAbove(a, b);
      P95NotAbove(b, a);
    }
  }

  /** Entries that are not digit strings, such as negative runtimes, are dropped. */
  function NonNegative(raw: seq<int>): seq<nat>
  {
    if raw == [] then [] else (if raw[0] >= 0 then [raw[0]] else []) + NonNegative(raw[1..])
  }

  lemma KeptHead(raw: seq<int>, x: int)
    requires raw != []
    ensures multiset(NonNegative(raw))[x]
         == multiset(NonNegative(raw[1..]))[x] + if raw[0] >= 0 && raw[0] == x then 1 else 0
  {
    if raw[0] >= 0 {
      assert NonNegative(raw) == [raw[0]] + NonNegative(raw[1..]);
    }
  }

  /** Every other entry stays, zeros and repetitions included. */
  lemma {:induction false} NonNegativeKeeps(raw: seq<int>, x: int)
    ensures multiset(NonNegative(raw))[x] == if x >= 0 then multiset(raw)[x] else 0
  {
    if raw == [] {
    } else {
      NonNegativeKeeps(raw[1..], x);
      assert raw == [raw[0]] + raw[1..];
      assert multiset(raw)[x] == multiset([raw[0]])[x] + multiset(raw[1..])[x];
      KeptHead(raw, x);
    }
  }

  method RuntimeP95(raw: seq<int>) returns (p95: Option<nat>)
    ensures var n := |NonNegative(raw)|;
            if n == 0 then p95 == None
            else p95.Some? && p95.value in NonNegative(raw)
                 && forall limit: int :: p95.value > limit <==> CountAbove(NonNegative(raw), limit) > n / 20
  {
    var samples := NonNegative(raw);
    if samples == [] {
      return None;
    }
    var ascending := Sorted(samples);
    var idx := Rank95(|ascending|);
    p95 := Some(ascending[idx]);
    assert ascending[idx] in multiset(ascending);
    forall limit: int
      ensures p95.value > limit <==> CountAbove(samples, limit) > |samples| / 20
    {
      P95Exceeds(samples, limit);
    }
  }
}
