/** The kill switch: handlers set a device's overlay flag and publish to a channel, a relay
    broadcasts every published message over a snapshot of the open connections, and a
    registering connection is added first and reads the flag afterwards. */
module KillSwitch {
  import opened RedisStore
  import opened Glob

  // Which connections a message is sent to.

  /** The part of a string before its first colon. */
  function Field(s: string): (f: string)
    ensures NoColon(f) && f <= s
  {
    if s == "" || s[0] == ':' then ""
    else [s[0]] + Field(s[1..])
  }

  /** The device named by a block: message; any other message has no target. */
  function TargetDevice(message: string): Option<string>
  {
    if "block:" <= message then Some(Field(message[6..])) else None
  }

  /** Sent to every device unless it names one; an empty name counts as no name. */
  predicate Attempts(message: string, device: string)
  {
    var target := TargetDevice(message);
    target.Some? && target.value != "" ==> device == target.value
  }

  lemma {:induction false} FieldOfPlain(d: string, rest: string)
    requires NoColon(d)
    ensures Field(d + ":" + rest) == d
  {
    if d == "" {
      assert (d + ":" + rest)[0] == ':';
    } else {
      assert d[0] in d && NoColon(d[1..]);
      assert (d + ":" + rest)[1..] == d[1..] + ":" + rest;
      FieldOfPlain(d[1..], rest);
    }
  }

  lemma {:induction false} FieldOfColoned(d: string, rest: string)
    requires !NoColon(d)
    ensures Field(d + rest) == Field(d) && Field(d) != d
  {
    assert (d + rest)[0] == d[0];
    if d[0] != ':' {
      assert d == [d[0]] + d[1..] && (d + rest)[1..] == d[1..] + rest;
      FieldOfColoned(d[1..], rest);
    }
  }

  function BlockMessage(device: string, rest: string): string
  {
    "block:" + device + ":" + rest
  }

  /** A block message for a non-empty device id without colons goes to that device only. */
  lemma BlockTargetsItsDevice(d: string, rest: string, other: string)
    requires NoColon(d) && d != ""
    ensures Attempts(BlockMessage(d, rest), other) <==> other == d
  {
    assert BlockMessage(d, rest)[6..] == d + ":" + rest;
    FieldOfPlain(d, rest);
  }

  /** In general it reaches its own device exactly when the id has no colon, or starts with one
      (then it is sent to everybody). */
  lemma BlockReachesItsDevice(d: string, rest: string)
    ensures Attempts(BlockMessage(d, rest), d) <==> NoColon(d) || d[0] == ':'
  {
    assert BlockMessage(d, rest)[6..] == d + ":" + rest;
    if NoColon(d) {
      FieldOfPlain(d, rest);
    } else {
      assert d + (":" + rest) == d + ":" + rest;
      FieldOfColoned(d, ":" + rest);
    }
  }

  /** A message that is not a block goes to everybody, and so does a block that names no device. */
  lemma OtherMessagesGoToAll(message: string, rest: string, device: string)
    ensures !("block:" <= message) ==> Attempts(message, device)
    ensures Attempts("block::" + rest, device)
  {
    assert ("block::" + rest)[6..] == ":" + rest;
  }

  // The hub object.

  datatype Connection = Connection(ws: nat, device: string)

  /** What other tasks do to the set while a broadcast awaits a send. */
  datatype HubEvent = Joined(c: Connection) | Left(ws: nat)

  function Removed(connections: set<Connection>, ws: nat): set<Connection>
  {
    set c | c in connections && c.ws != ws
  }

  function Replay(connections: set<Connection>, events: seq<HubEvent>): set<Connection>
  {
    if events == [] then connections
    else
      var before := Replay(connections, events[..|events| - 1]);
      match events[|events| - 1]
      case Joined(c) => before + {c}
      case Left(ws) => Removed(before, ws)
  }

  lemma {:induction false} ReplayAppend(connections: set<Connection>, a: seq<HubEvent>, b: seq<HubEvent>)
    ensures Replay(connections, a + b) == Replay(Replay(connections, a), b)
  {
    if b == [] {
      assert a + b == a;
    } else {
      assert (a + b)[..|a + b| - 1] == a + b[..|b| - 1];
      ReplayAppend(connections, a, b[..|b| - 1]);
    }
  }

  function DuringSend(message: string, c: Connection, failing: set<nat>, others: seq<HubEvent>): seq<HubEvent>
  {
    if !Attempts(message, c.device) then []
    else if c.ws in failing then others + [Left(c.ws)]
    else others
  }

  /** What happens to the set during a broadcast over `order`: for each attempted connection, what
      other tasks do during its send, and then its removal if the send raised. */
  function Interleaved(message: string, order: seq<Connection>, failing: set<nat>, meanwhile: seq<seq<HubEvent>>)
    : seq<HubEvent>
    requires |meanwhile| == |order|
  {
    if order == [] then []
    else
      var n := |order| - 1;
      Interleaved(message, order[..n], failing, meanwhile[..n]) + DuringSend(message, order[n], failing, meanwhile[n])
  }

  /** The connections a broadcast sends to, in the order of its loop. */
  function Targets(message: string, order: seq<Connection>): seq<Connection>
  {
    if order == [] then []
    else
      var n := |order| - 1;
      Targets(message, order[..n]) + if Attempts(message, order[n].device) then [order[n]] else []
  }

  lemma {:induction false} TargetsExactly(message: string, order: seq<Connection>)
    ensures forall c :: c in Targets(message, order) <==> c in order && Attempts(message, c.device)
  {
    if order == [] {
    } else {
      var n := |order| - 1;
      TargetsExactly(message, order[..n]);
      hide Attempts;
      assert order == order[..n] + [order[n]];
    }
  }

  lemma {:induction false} TargetsOnce(message: string, order: seq<Connection>)
    ensures multiset(Targets(message, order)) <= multiset(order)
  {
    if order == [] {
    } else {
      var n := |order| - 1;
      TargetsOnce(message, order[..n]);
      hide Attempts;
      assert order == order[..n] + [order[n]];
    }
  }

  lemma BroadcastTurn(connections: set<Connection>, message: string, order: seq<Connection>, failing: set<nat>,
                      meanwhile: seq<seq<HubEvent>>, i: nat)
    requires i < |order| == |meanwhile|
    ensures Targets(message, order[..i + 1])
         == Targets(message, order[..i]) + if Attempts(message, order[i].device) then [order[i]] else []
    ensures Replay(connections, Interleaved(message, order[..i + 1], failing, meanwhile[..i + 1]))
         == Replay(Replay(connections, Interleaved(message, order[..i], failing, meanwhile[..i])),
                   DuringSend(message, order[i], failing, meanwhile[i]))
  {
    var events := Interleaved(message, order[..i], failing, meanwhile[..i]);
    assert order[..i + 1][..i] == order[..i] && meanwhile[..i + 1][..i] == meanwhile[..i];
    hide Attempts, Replay, DuringSend;
    ReplayAppend(connections, events, DuringSend(message, order[i], failing, meanwhile[i]));
  }

  class KillSwitchHub {
    var connections: set<Connection>

    constructor ()
      ensures connections == {}
    {
      connections := {};
    }

    /** Adds the connection, and only then looks at the overlay flag. */
    method Register(c: Connection, flags: set<string>) returns (sent: Option<string>)
      modifies this
      ensures connections == Replay(old(connections), [Joined(c)])
      ensures sent == if c.device in flags then Some("force_overlay:" + c.device) else None
    {
      connections := connections + {c};
      assert [Joined(c)][..0] == [];
      if c.device in flags {
        return Some("force_overlay:" + c.device);
      }
      return None;
    }

    method Unregister(ws: nat)
      modifies this
      ensures connections == Replay(old(connections), [Left(ws)])
    {
      connections := set c | c in connections && c.ws != ws;
      assert [Left(ws)][..0] == [];
    }

    /** One turn of the loop: `others` is what other tasks do during the send. */
    method Send(message: string, c: Connection, failing: set<nat>, others: seq<HubEvent>) returns (tried: bool)
      modifies this
      ensures tried == Attempts(message, c.device)
      ensures connections == Replay(old(connections), DuringSend(message, c, failing, others))
    {
      tried := Attempts(message, c.device);
      if tried {
        connections := Replay(connections, others);
        if c.ws in failing {
          connections := Removed(connections, c.ws);
          assert (others + [Left(c.ws)])[..|others|] == others;
        }
      }
    }

    /** Iterates over a snapshot in some order while the set changes: `meanwhile[i]` is what
        other tasks do during the i-th send, and the sockets in `failing` raise. */
    method Broadcast(message: string, order: seq<Connection>, failing: set<nat>, meanwhile: seq<seq<HubEvent>>)
      returns (attempted: seq<Connection>)
      requires |meanwhile| == |order|
      requires (set c | c in order) == connections && forall i, j | 0 <= i < j < |order| :: order[i] != order[j]
      modifies this
      ensures forall c :: c in attempted <==> c in old(connections) && Attempts(message, c.device)
      ensures multiset(attempted) <= multiset(order)
      ensures connections == Replay(old(connections), Interleaved(message, order, failing, meanwhile))
    {
      attempted := [];
      assert Targets(message, order[..0]) == [] && Interleaved(message, order[..0], failing, meanwhile[..0]) == [];
      assert connections == Replay(connections, []);
      hide *;
      for i := 0 to |order|
        invariant attempted == Targets(message, order[..i])
        invariant connections == Replay(old(connections), Interleaved(message, order[..i], failing, meanwhile[..i]))
      {
        BroadcastTurn(old(connections), message, order, failing, meanwhile, i);
        var tried := Send(message, order[i], failing, meanwhile[i]);
        attempted := if tried then attempted + [order[i]] else attempted;
      }
      assert order[..|order|] == order && meanwhile[..|order|] == meanwhile;
      TargetsExactly(message, order);
      TargetsOnce(message, order);
    }
  }

  // No connection is lost.

  lemma {:induction false} KeptThrough(connections: set<Connection>, events: seq<HubEvent>, c: Connection)
    requires c in connections && Left(c.ws) !in events
    ensures c in Replay(connections, events)
  {
    if events == [] {
    } else {
      var n := |events| - 1;
      assert events[n] in events;
      KeptThrough(connections, events[..n], c);
    }
  }

  /** The i-th event adds c, and no later one removes its socket. */
  predicate JoinedForGood(events: seq<HubEvent>, c: Connection, i: nat)
  {
    i < |events| && events[i] == Joined(c) && Left(c.ws) !in events[i + 1..]
  }

  lemma JoinKept(connections: set<Connection>, events: seq<HubEvent>, c: Connection, i: nat)
    requires JoinedForGood(events, c, i)
    ensures c in Replay(connections, events)
  {
    var upTo, rest := events[..i + 1], events[i + 1..];
    assert upTo[..i] == events[..i] && upTo[i] == Joined(c);
    assert c in Replay(connections, upTo);
    KeptThrough(Replay(connections, upTo), rest, c);
    ReplayAppend(connections, upTo, rest);
    assert upTo + rest == events;
  }

  lemma LaterEvent(events: seq<HubEvent>, c: Connection, last: HubEvent, i: nat)
    requires JoinedForGood(events, c, i) && last != Left(c.ws)
    ensures JoinedForGood(events + [last], c, i)
  {
    assert (events + [last])[i + 1..] == events[i + 1..] + [last];
  }

  lemma {:induction false} OriginOf(connections: set<Connection>, events: seq<HubEvent>, c: Connection)
    requires c in Replay(connections, events)
    ensures (c in connections && Left(c.ws) !in events) || exists i :: JoinedForGood(events, c, i)
  {
    if events == [] {
    } else {
      var n := |events| - 1;
      var before, last := events[..n], events[n];
      assert events == before + [last];
      if last == Joined(c) {
        assert JoinedForGood(events, c, n);
      } else {
        OriginOf(connections, before, c);
        if i :| JoinedForGood(before, c, i) {
          LaterEvent(before, c, last, i);
        }
      }
    }
  }

  /** The set holds exactly the connections that were there or joined, and did not leave after. */
  lemma ConnectedExactly(connections: set<Connection>, events: seq<HubEvent>, c: Connection)
    ensures c in Replay(connections, events)
       <==> (c in connections && Left(c.ws) !in events) || exists i :: JoinedForGood(events, c, i)
  {
    if c in Replay(connections, events) {
      OriginOf(connections, events, c);
    } else {
      if c in connections && Left(c.ws) !in events {
        KeptThrough(connections, events, c);
      }
      if i :| JoinedForGood(events, c, i) {
        JoinKept(connections, events, c, i);
      }
    }
  }

  /** Nothing removes this socket during the attempted sends from the given one on. */
  predicate Undisturbed(message: string, order: seq<Connection>, failing: set<nat>, meanwhile: seq<seq<HubEvent>>,
                        ws: nat, from: nat)
    requires |meanwhile| == |order|
  {
    forall i | from <= i < |order| && Attempts(message, order[i].device) ::
      Left(ws) !in meanwhile[i] && !(order[i].ws == ws && ws in failing)
  }

  /** One more send that does not remove the socket. */
  lemma KeptDuringSend(connections: set<Connection>, events: seq<HubEvent>, message: string, at: Connection,
                       failing: set<nat>, others: seq<HubEvent>, c: Connection)
    requires c in Replay(connections, events)
    requires Attempts(message, at.device) ==> Left(c.ws) !in others && !(at.ws == c.ws && c.ws in failing)
    ensures c in Replay(connections, events + DuringSend(message, at, failing, others))
  {
    var send := DuringSend(message, at, failing, others);
    ReplayAppend(connections, events, send);
    KeptThrough(Replay(connections, events), send, c);
  }

  /** Of the snapshot, every connection that nothing removes is still there after the broadcast. */
  lemma {:induction false} SnapshotKept(connections: set<Connection>, message: string, order: seq<Connection>,
                                        failing: set<nat>, meanwhile: seq<seq<HubEvent>>, c: Connection)
    requires |meanwhile| == |order| && c in connections
    requires Undisturbed(message, order, failing, meanwhile, c.ws, 0)
    ensures c in Replay(connections, Interleaved(message, order, failing, meanwhile))
  {
    if order == [] {
    } else {
      var n := |order| - 1;
      SnapshotKept(connections, message, order[..n], failing, meanwhile[..n], c);
      var events := Interleaved(message, order[..n], failing, meanwhile[..n]);
      KeptDuringSend(connections, events, message, order[n], failing, meanwhile[n], c);
    }
  }

  lemma JoinDuringSend(connections: set<Connection>, events: seq<HubEvent>, message: string, at: Connection,
                       failing: set<nat>, others: seq<HubEvent>, c: Connection, k: nat)
    requires Attempts(message, at.device) && JoinedForGood(others, c, k) && !(at.ws == c.ws && c.ws in failing)
    ensures c in Replay(connections, events + DuringSend(message, at, failing, others))
  {
    var send := DuringSend(message, at, failing, others);
    if at.ws in failing {
      LaterEvent(others, c, Left(at.ws), k);
    }
    JoinKept(Replay(connections, events), send, c, k);
    ReplayAppend(connections, events, send);
  }

  /** No concurrently added connection is lost: one that joins as the k-th event during the i-th
      send, attempted, and that nothing removes later, is there after the broadcast. */
  lemma {:induction false} NoJoinIsLost(connections: set<Connection>, message: string, order: seq<Connection>,
                                        failing: set<nat>, meanwhile: seq<seq<HubEvent>>, i: nat, k: nat,
                                        c: Connection)
    requires |meanwhile| == |order| && i < |order| && Attempts(message, order[i].device)
    requires JoinedForGood(meanwhile[i], c, k) && !(order[i].ws == c.ws && c.ws in failing)
    requires Undisturbed(message, order, failing, meanwhile, c.ws, i + 1)
    ensures c in Replay(connections, Interleaved(message, order, failing, meanwhile))
  {
    var n := |order| - 1;
    var events := Interleaved(message, order[..n], failing, meanwhile[..n]);
    if i == n {
      JoinDuringSend(connections, events, message, order[n], failing, meanwhile[n], c, k);
    } else {
      NoJoinIsLost(connections, message, order[..n], failing, meanwhile[..n], i, k, c);
      KeptDuringSend(connections, events, message, order[n], failing, meanwhile[n], c);
    }
  }
}
