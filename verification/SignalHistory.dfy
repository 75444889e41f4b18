/** The bounded list of recent signals: each heartbeat pushes and then trims, as two separate
    commands that may interleave with those of other heartbeats. */
module SignalHistory {
  const CAP := 100

  /** The list and the whole push log, both newest first, and how many heartbeats have pushed
      and not yet trimmed. */
  datatype State<T> = State(items: seq<T>, log: seq<T>, pending: nat)

  datatype Step<T> = Push(x: T) | Trim

  predicate Enabled<T>(s: State<T>, e: Step<T>)
  {
    e.Trim? ==> s.pending > 0
  }

  function Next<T>(s: State<T>, e: Step<T>): State<T>
    requires Enabled(s, e)
  {
    match e
    case Push(x) => State([x] + s.items, [x] + s.log, s.pending + 1)
    case Trim => State(if |s.items| > CAP then s.items[..CAP] else s.items, s.log, s.pending - 1)
  }

  ghost predicate Run<T>(s: State<T>, steps: seq<Step<T>>, t: State<T>)
    decreases |steps|
  {
    if steps == [] then s == t
    else Enabled(s, steps[0]) && Run(Next(s, steps[0]), steps[1..], t)
  }

  ghost predicate Inv<T>(s: State<T>)
  {
    && s.items <= s.log
    && |s.items| <= CAP + s.pending
    && (|s.log| <= CAP ==> s.items == s.log)
    && (|s.log| > CAP ==> |s.items| >= CAP)
  }

  class SignalList<T> {
    var items: seq<T>
    ghost var log: seq<T>
    ghost var pending: nat

    ghost function Snapshot(): State<T>
      reads this
    {
      State(items, log, pending)
    }

    constructor ()
      ensures Snapshot() == State([], [], 0) && Inv(Snapshot())
    {
      items, log, pending := [], [], 0;
    }

    /** LPUSH */
    method LPush(x: T)
      requires Inv(Snapshot())
      modifies this
      ensures Snapshot() == Next(old(Snapshot()), Push(x)) && Inv(Snapshot())
    {
      items, log, pending := [x] + items, [x] + log, pending + 1;
    }

    /** LTRIM 0 99 */
    method LTrim()
      requires Inv(Snapshot()) && pending > 0
      modifies this
      ensures Snapshot() == Next(old(Snapshot()), Trim) && Inv(Snapshot())
    {
      if |items| > CAP {
        items := items[..CAP];
      }
      pending := pending - 1;
    }

    /** LRANGE 0 99: in every reachable state, exactly the newest hundred signals. */
    method Newest() returns (r: seq<T>)
      requires Inv(Snapshot())
      ensures r == if |log| > 100 then log[..100] else log
    {
      r := if |items| > CAP then items[..CAP] else items;
    }
  }

  lemma {:induction false} InvRun<T>(s: State<T>, steps: seq<Step<T>>, t: State<T>)
    requires Inv(s) && Run(s, steps, t)
    ensures Inv(t)
    decreases |steps|
  {
    if steps == [] {
    } else {
      InvRun(Next(s, steps[0]), steps[1..], t);
    }
  }

  /** However pushes and trims interleave: the list is a prefix of the push log, at most the
      pending trims longer than the cap, and its first hundred entries are the newest hundred. */
  lemma BoundedHistory<T>(steps: seq<Step<T>>, t: State<T>)
    requires Run(State([], [], 0), steps, t)
    ensures t.items <= t.log && |t.items| <= 100 + t.pending
    ensures |t.items| >= if |t.log| < 100 then |t.log| else 100
    ensures (if |t.items| > 100 then t.items[..100] else t.items) == if |t.log| > 100 then t.log[..100] else t.log
  {
    InvRun(State([], [], 0), steps, t);
  }
}
