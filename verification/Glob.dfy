/** Redis key patterns, as SCAN MATCH interprets them, and the colon-separated keys they are
    used on. */
module Glob {
  /** The body of a bracket class: whether `c` is in it, and the pattern after the class.
      An unclosed class runs to the end of the pattern. */
  function Class(p: string, c: char): (r: (bool, string))
    ensures |r.1| <= |p|
  {
    if p == "" then (false, "")
    else if p[0] == '\\' && |p| >= 2 then
      var (found, rest) := Class(p[2..], c);
      (found || p[1] == c, rest)
    else if p[0] == ']' then (false, p[1..])
    else if |p| >= 3 && p[1] == '-' then
      var (found, rest) := Class(p[3..], c);
      (found || p[0] <= c <= p[2] || p[2] <= c <= p[0], rest)
    else
      var (found, rest) := Class(p[1..], c);
      (found || p[0] == c, rest)
  }

  function Matches(p: string, s: string): bool
    decreases |p|, |s|
  {
    if p == "" then s == ""
    else if p[0] == '*' then Matches(p[1..], s) || (s != "" && Matches(p, s[1..]))
    else if s == "" then false
    else if p[0] == '?' then Matches(p[1..], s[1..])
    else if p[0] == '[' then
      var negated := |p| >= 2 && p[1] == '^';
      var (found, rest) := Class(if negated then p[2..] else p[1..], s[0]);
      found != negated && Matches(rest, s[1..])
    else if p[0] == '\\' && |p| >= 2 then p[1] == s[0] && Matches(p[2..], s[1..])
    else p[0] == s[0] && Matches(p[1..], s[1..])
  }

  predicate Plain(s: string)
  {
    forall c | c in s :: c !in "*?[\\"
  }

  /** Free of the two characters that can stop a literal from matching itself. */
  predicate SelfMatching(s: string)
  {
    forall c | c in s :: c !in "[\\"
  }

  predicate NoColon(s: string)
  {
    ':' !in s
  }

  lemma {:induction false} StarMatchesAll(s: string)
    ensures Matches("*", s)
  {
    if s == "" {
      assert Matches("*"[1..], s);
    } else {
      StarMatchesAll(s[1..]);
    }
  }

  /** A star stands for any stretch, the empty one included. */
  lemma {:induction false} StarLaw(p: string, s: string)
    ensures Matches("*" + p, s) <==> exists i :: 0 <= i <= |s| && Matches(p, s[i..])
  {
    assert ("*" + p)[1..] == p && s[0..] == s;
    if s == "" {
      assert forall i | 0 <= i <= |s| :: s[i..] == s;
    } else {
      StarLaw(p, s[1..]);
      if Matches("*" + p, s) && !Matches(p, s) {
        var i :| 0 <= i <= |s[1..]| && Matches(p, s[1..][i..]);
        assert s[1..][i..] == s[i + 1..];
      }
      if !Matches("*" + p, s) {
        forall i | 0 <= i <= |s|
          ensures !Matches(p, s[i..])
        {
          if i > 0 {
            assert s[1..][i - 1..] == s[i..];
          }
        }
      }
    }
  }

  /** A question mark stands for one character. */
  lemma QuestionLaw(p: string, s: string)
    ensures Matches("?" + p, s) <==> s != "" && Matches(p, s[1..])
  {
    assert ("?" + p)[1..] == p;
  }

  /** A backslash makes the next character literal. */
  lemma EscapeLaw(p: string, s: string, c: char)
    ensures Matches(['\\', c] + p, s) <==> s != "" && s[0] == c && Matches(p, s[1..])
  {
    assert (['\\', c] + p)[2..] == p;
  }

  lemma RangeClass(p: string, c: char, lo: char, hi: char)
    requires lo !in "\\]" && lo <= hi
    ensures Class([lo, '-', hi, ']'] + p, c) == (lo <= c <= hi, p)
  {
    var body := [lo, '-', hi, ']'] + p;
    assert body[3..] == [']'] + p && ([']'] + p)[1..] == p;
    assert Class([']'] + p, c) == (false, p);
  }

  /** A range stands for one character between its ends. */
  lemma RangeLaw(p: string, s: string, lo: char, hi: char)
    requires lo !in "\\]^" && lo <= hi
    ensures Matches(['[', lo, '-', hi, ']'] + p, s) <==> s != "" && lo <= s[0] <= hi && Matches(p, s[1..])
  {
    var range := ['[', lo, '-', hi, ']'] + p;
    assert range[1..] == [lo, '-', hi, ']'] + p;
    if s != "" {
      RangeClass(p, s[0], lo, hi);
      hide Class;
    }
  }

  /** A glob-free literal followed by a star matches exactly the strings it is a prefix of. */
  lemma {:induction false} PlainPrefix(lit: string, s: string)
    requires Plain(lit)
    ensures Matches(lit + "*", s) <==> lit <= s
  {
    if lit == "" {
      assert lit + "*" == "*";
      StarMatchesAll(s);
    } else {
      var p := lit + "*";
      assert p[0] == lit[0] && lit[0] in lit && p[1..] == lit[1..] + "*";
      if s != "" && s[0] == lit[0] {
        assert forall c | c in lit[1..] :: c in lit;
        PlainPrefix(lit[1..], s[1..]);
        assert lit == [lit[0]] + lit[1..] && s == [s[0]] + s[1..];
      }
    }
  }

  /** Whatever a pattern with a glob-free head matches starts with that head. */
  lemma {:induction false} LiteralPrefix(lit: string, p: string, s: string)
    requires Plain(lit) && Matches(lit + p, s)
    ensures lit <= s
  {
    if lit == "" {
    } else {
      assert lit[0] in lit && (lit + p)[0] == lit[0] && (lit + p)[1..] == lit[1..] + p;
      assert forall c | c in lit[1..] :: c in lit;
      LiteralPrefix(lit[1..], p, s[1..]);
      assert lit == [lit[0]] + lit[1..] && s == [s[0]] + s[1..];
    }
  }

  /** A leading star may absorb one more character. */
  lemma StarThenRest(p: string, s: string)
    requires p != "" && p[0] == '*' && Matches(p[1..], s)
    ensures Matches(p, s)
    ensures forall c: char :: Matches(p, [c] + s)
  {
    forall c: char
      ensures Matches(p, [c] + s)
    {
      assert ([c] + s)[1..] == s;
    }
  }

  /** A literal without '[' and '\' always matches its own extensions, stars and question
      marks included. */
  lemma {:induction false} OwnPrefix(lit: string, t: string)
    requires SelfMatching(lit)
    ensures Matches(lit + "*", lit + t)
  {
    if lit == "" {
      assert lit + "*" == "*";
      StarMatchesAll(lit + t);
    } else {
      var p, s := lit + "*", lit + t;
      assert lit[0] in lit && p[1..] == lit[1..] + "*" && s[1..] == lit[1..] + t;
      assert forall c | c in lit[1..] :: c in lit;
      OwnPrefix(lit[1..], t);
      if lit[0] == '*' {
        assert p[0] == '*';
        StarThenRest(p, s[1..]);
      }
    }
  }

  lemma ColonAfter(s: string, a: string, x: string, i: nat)
    requires NoColon(x) && s == a + ":" + x && i < |s| && s[i] == ':'
    ensures i <= |a|
  {
    assert forall k | |a| < k < |s| :: s[k] == x[k - |a| - 1] && s[k] in x;
  }

  /** The last colon of a string splits it in one way. */
  lemma LastColon(a: string, x: string, b: string, y: string)
    requires NoColon(x) && NoColon(y) && a + ":" + x == b + ":" + y
    ensures a == b && x == y
  {
    var s := a + ":" + x;
    ColonAfter(s, a, x, |b|);
    ColonAfter(s, b, y, |a|);
    assert a == s[..|a|] && b == s[..|a|];
    assert x == s[|a| + 1..] && y == s[|a| + 1..];
  }

  lemma ColonBefore(s: string, a: string, x: string, i: nat)
    requires NoColon(a) && s == a + ":" + x && i < |s| && s[i] == ':'
    ensures |a| <= i
  {
    assert forall k | 0 <= k < |a| :: s[k] == a[k] && s[k] in a;
  }

  /** The first colon of a string splits it in one way. */
  lemma FirstColon(a: string, x: string, b: string, y: string)
    requires NoColon(a) && NoColon(b) && a + ":" + x == b + ":" + y
    ensures a == b && x == y
  {
    var s := a + ":" + x;
    ColonBefore(s, a, x, |b|);
    ColonBefore(s, b, y, |a|);
    assert a == s[..|a|] && b == s[..|a|];
    assert x == s[|a| + 1..] && y == s[|a| + 1..];
  }
}
