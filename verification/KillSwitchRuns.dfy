/** Kill-switch delivery at await granularity: any number of publishing handlers, registering
    clients and one subscribed relay, interleaved in any way. Overlay flags do not lapse during
    a run, and published messages reach the relay in order. */
module KillSwitchRuns {
  import opened RedisStore
  import opened Glob
  import opened KillSwitch
  import Tokens

  /** The awaits of a publishing handler that matter here. */
  datatype Op = Publish(message: string) | SetOverlay(device: string)

  /** revoke_and_block with publish_block: the publish comes before the flag. */
  function RevokeOps(device: string): seq<Op>
  {
    [Publish(BlockMessage(device, "logout")), SetOverlay(device)]
  }

  /** A worker block: revoke_and_block, then the score message. */
  function WorkerOps(device: string, score: string): seq<Op>
  {
    RevokeOps(device) + [Publish(BlockMessage(device, "score:" + score))]
  }

  /** A critical EDR report: revoke_and_block, then the quarantine message. */
  function EdrOps(device: string): seq<Op>
  {
    RevokeOps(device) + [Publish("IMMEDIATE_QUARANTINE:" + device)]
  }

  /** The commands of a handler that matter here: publishes, and writes of overlay flags. */
  function OpsOf(journal: seq<Command>): seq<Op>
  {
    if journal == [] then []
    else
      (match journal[0]
       case Announced(message) => [Publish(message)]
       case Wrote(key) => if "force_overlay:" <= key then [SetOverlay(key[14..])] else [])
      + OpsOf(journal[1..])
  }

  lemma {:induction false} OpsOfConcat(a: seq<Command>, b: seq<Command>)
    ensures OpsOf(a + b) == OpsOf(a) + OpsOf(b)
  {
    if a == [] {
      assert a + b == b;
    } else {
      assert (a + b)[1..] == a[1..] + b;
      OpsOfConcat(a[1..], b);
    }
  }

  lemma OpsOfTwo(key: string, message: string)
    requires !("force_overlay:" <= key)
    ensures OpsOf([Wrote(key), Announced(message)]) == [Publish(message)]
  {
    assert [Wrote(key), Announced(message)][1..] == [Announced(message)] && [Announced(message)][1..] == [];
    assert OpsOf([]) == [] && OpsOf([Announced(message)]) == [Publish(message)];
  }

  /** revoke_and_block runs its commands in the order of its program. */
  lemma RevokeFollowsOps(device: string)
    ensures OpsOf(Tokens.RevokeJournal(device, true)) == RevokeOps(device)
  {
    var sent, overlay := Announced("block:" + device + ":logout"), Wrote("force_overlay:" + device);
    var state, revoked := Wrote("device:" + device + ":state"), Wrote("revoked:device:" + device);
    assert Tokens.RevokeJournal(device, true) == [sent, state, revoked, overlay];
    assert [sent, state, revoked, overlay][1..] == [state, revoked, overlay];
    assert [state, revoked, overlay][1..] == [revoked, overlay];
    assert [revoked, overlay][1..] == [overlay] && [overlay][1..] == [];
    assert state.key[0] == 'd' && revoked.key[0] == 'r' && overlay.key[14..] == device;
    assert OpsOf([overlay]) == [SetOverlay(device)];
    assert OpsOf([revoked, overlay]) == [SetOverlay(device)];
    assert OpsOf([state, revoked, overlay]) == [SetOverlay(device)];
    assert "block:" + device + ":logout" == BlockMessage(device, "logout");
  }

  datatype Handler = Handler(ops: seq<Op>, done: nat)

  /** Where a client is in `register`; Aborted when it raised after joining the set. */
  datatype Phase = Accepting | InSet | Overlaid | Registered | Aborted

  datatype Client = Client(device: string, phase: Phase, inbox: seq<string>)

  /** The message being broadcast, the snapshot it is sent over, and the sends still to come. */
  datatype Broadcast = Broadcast(message: string, snapshot: set<nat>, pending: set<nat>, attempted: set<nat>)

  datatype Relayed = Relayed(message: string, snapshot: set<nat>, attempted: set<nat>)

  datatype State = State(
    handlers: map<nat, Handler>,
    channel: seq<string>,
    overlay: set<string>,
    clients: map<nat, Client>,
    connections: set<nat>,
    current: Option<Broadcast>,
    relayed: seq<Relayed>)

  const START := State(map[], [], {}, map[], {}, None, [])

  datatype Step =
    | Spawn(h: nat, ops: seq<Op>)
    | Do(h: nat)
    | Connect(c: nat, device: string)
    | Join(c: nat)
    | ReadFlag(c: nat)
    | SendOverlay(c: nat)
    | Abort(c: nat)
    | Disconnect(c: nat)
    | Take
    | Deliver(c: nat)
    | FailDelivery(c: nat)
    | Finish

  predicate InPhase(s: State, c: nat, phase: Phase)
  {
    c in s.clients && s.clients[c].phase == phase
  }

  /** Messages the relay has picked up so far. */
  function Taken(s: State): nat
  {
    |s.relayed| + if s.current.Some? then 1 else 0
  }

  predicate Enabled(s: State, e: Step)
  {
    match e
    case Spawn(h, _) => h !in s.handlers
    case Do(h) => h in s.handlers && s.handlers[h].done < |s.handlers[h].ops|
    case Connect(c, _) => c !in s.clients
    case Join(c) => InPhase(s, c, Accepting)
    case ReadFlag(c) => InPhase(s, c, InSet)
    case SendOverlay(c) => InPhase(s, c, Overlaid)
    case Abort(c) => InPhase(s, c, InSet) || InPhase(s, c, Overlaid)
    case Disconnect(c) => InPhase(s, c, Registered)
    case Take => s.current.None? && Taken(s) < |s.channel|
    case Deliver(c) => s.current.Some? && c in s.current.value.pending && c in s.clients
    case FailDelivery(c) => s.current.Some? && c in s.current.value.pending
    case Finish => s.current.Some? && s.current.value.pending == {}
  }

  function OverlayText(device: string): string
  {
    "force_overlay:" + device
  }

  function WithClient(s: State, c: nat, client: Client): State
  {
    s.(clients := s.clients[c := client])
  }

  function Received(client: Client, message: string): Client
  {
    client.(inbox := client.inbox + [message])
  }

  function Sent(b: Broadcast, c: nat): Broadcast
  {
    b.(pending := b.pending - {c}, attempted := b.attempted + {c})
  }

  function Next(s: State, e: Step): State
    requires Enabled(s, e)
  {
    match e
    case Spawn(h, ops) => s.(handlers := s.handlers[h := Handler(ops, 0)])
    case Do(h) =>
      var handler := s.handlers[h];
      var t := s.(handlers := s.handlers[h := handler.(done := handler.done + 1)]);
      (match handler.ops[handler.done]
       case Publish(message) => t.(channel := t.channel + [message])
       case SetOverlay(device) => t.(overlay := t.overlay + {device}))
    case Connect(c, device) => WithClient(s, c, Client(device, Accepting, []))
    case Join(c) => WithClient(s, c, s.clients[c].(phase := InSet)).(connections := s.connections + {c})
    case ReadFlag(c) =>
      WithClient(s, c, s.clients[c].(phase := if s.clients[c].device in s.overlay then Overlaid else Registered))
    case SendOverlay(c) =>
      WithClient(s, c, Received(s.clients[c], OverlayText(s.clients[c].device)).(phase := Registered))
    case Abort(c) => WithClient(s, c, s.clients[c].(phase := Aborted))
    case Disconnect(c) => s.(connections := s.connections - {c})
    case Take =>
      var message := s.channel[Taken(s)];
      var targets := set c | c in s.connections && c in s.clients && Attempts(message, s.clients[c].device);
      s.(current := Some(Broadcast(message, s.connections, targets, {})))
    case Deliver(c) =>
      WithClient(s, c, Received(s.clients[c], s.current.value.message)).(current := Some(Sent(s.current.value, c)))
    case FailDelivery(c) => s.(connections := s.connections - {c}, current := Some(Sent(s.current.value, c)))
    case Finish =>
      var b := s.current.value;
      s.(current := None, relayed := s.relayed + [Relayed(b.message, b.snapshot, b.attempted)])
  }

  ghost predicate Run(s: State, steps: seq<Step>, t: State)
    decreases |steps|
  {
    if steps == [] then s == t
    else Enabled(s, steps[0]) && Run(Next(s, steps[0]), steps[1..], t)
  }

  // What every step keeps.

  /** The flags a handler has set are set. */
  ghost predicate FlagsOk(s: State)
  {
    forall h, i | h in s.handlers && 0 <= i < s.handlers[h].done <= |s.handlers[h].ops| ::
      var op := s.handlers[h].ops[i];
      op.SetOverlay? ==> op.device in s.overlay
  }

  /** Who in a snapshot a message addresses. */
  ghost predicate Addressed(s: State, message: string, snapshot: set<nat>, who: set<nat>)
  {
    && snapshot <= s.clients.Keys
    && who == set c | c in snapshot && Attempts(message, s.clients[c].device)
  }

  ghost predicate RelayOk(s: State)
  {
    && Taken(s) <= |s.channel|
    && (forall i | 0 <= i < |s.relayed| ::
          && s.relayed[i].message == s.channel[i]
          && Addressed(s, s.channel[i], s.relayed[i].snapshot, s.relayed[i].attempted))
    && (s.current.Some? ==>
        var b := s.current.value;
        && b.message == s.channel[|s.relayed|] && b.pending !! b.attempted
        && Addressed(s, b.message, b.snapshot, b.pending + b.attempted))
  }

  /** Whoever is in the set has joined it. */
  ghost predicate JoinedOk(s: State)
  {
    forall c | c in s.connections :: c in s.clients && s.clients[c].phase != Accepting
  }

  ghost predicate Inv(s: State)
  {
    FlagsOk(s) && RelayOk(s) && JoinedOk(s)
  }

  lemma FlagsStep(s: State, e: Step)
    requires FlagsOk(s) && Enabled(s, e)
    ensures FlagsOk(Next(s, e))
  {
    hide Attempts;
  }

  /** Joining clients and delivered messages change no one's device. */
  lemma DevicesKept(s: State, e: Step, c: nat)
    requires Enabled(s, e) && c in s.clients
    ensures c in Next(s, e).clients && Next(s, e).clients[c].device == s.clients[c].device
  {
  }

  lemma AddressedKept(s: State, e: Step, message: string, snapshot: set<nat>, who: set<nat>)
    requires Enabled(s, e) && Addressed(s, message, snapshot, who)
    ensures Addressed(Next(s, e), message, snapshot, who)
  {
    forall c | c in s.clients
      ensures c in Next(s, e).clients && Next(s, e).clients[c].device == s.clients[c].device
    {
      DevicesKept(s, e, c);
    }
    hide Next, Enabled, Attempts;
  }

  lemma RelayStep(s: State, e: Step)
    requires RelayOk(s) && Enabled(s, e) && s.connections <= s.clients.Keys
    ensures RelayOk(Next(s, e))
  {
    var t := Next(s, e);
    forall i | 0 <= i < |s.relayed|
      ensures Addressed(t, s.channel[i], s.relayed[i].snapshot, s.relayed[i].attempted)
    {
      AddressedKept(s, e, s.channel[i], s.relayed[i].snapshot, s.relayed[i].attempted);
    }
    if s.current.Some? {
      var b := s.current.value;
      AddressedKept(s, e, b.message, b.snapshot, b.pending + b.attempted);
    } else if e.Take? {
      assert Addressed(t, t.current.value.message, s.connections, t.current.value.pending);
    }
    hide Addressed, Attempts;
    if e.Deliver? || e.FailDelivery? {
      assert t.current.value.pending + t.current.value.attempted == s.current.value.pending + s.current.value.attempted;
    }
    if e.Take? {
      assert t.current.value.pending + {} == t.current.value.pending;
    }
  }

  lemma JoinedStep(s: State, e: Step)
    requires JoinedOk(s) && Enabled(s, e)
    ensures JoinedOk(Next(s, e))
  {
    hide Attempts;
  }

  lemma InvStep(s: State, e: Step)
    requires Inv(s) && Enabled(s, e)
    ensures Inv(Next(s, e))
  {
    FlagsStep(s, e);
    assert s.connections <= s.clients.Keys;
    RelayStep(s, e);
    JoinedStep(s, e);
    hide FlagsOk, RelayOk, JoinedOk, Next, Enabled;
  }

  lemma {:induction false} InvRun(s: State, steps: seq<Step>, t: State)
    requires Inv(s) && Run(s, steps, t)
    ensures Inv(t)
    decreases |steps|
  {
    if steps == [] {
    } else {
      InvStep(s, steps[0]);
      InvRun(Next(s, steps[0]), steps[1..], t);
    }
  }

  /** In any run every message is relayed once, in order, and attempted on exactly the
      connections of its snapshot that it addresses, however the set changes meanwhile. */
  lemma RelayedExactly(steps: seq<Step>, t: State, i: nat)
    requires Run(START, steps, t) && i < |t.relayed|
    ensures i < |t.channel| && t.relayed[i].message == t.channel[i]
    ensures forall c :: c in t.relayed[i].attempted <==>
              c in t.relayed[i].snapshot && c in t.clients && Attempts(t.channel[i], t.clients[c].device)
  {
    InvRun(START, steps, t);
  }

  // No missed kill.

  /** How many texts a client has received; none before it connects. */
  function Length(s: State, c: nat): nat
  {
    if c in s.clients then |s.clients[c].inbox| else 0
  }

  /** The text was received after the first `from` ones. */
  predicate HasSince(inbox: seq<string>, from: nat, text: string)
  {
    exists i :: from <= i < |inbox| && inbox[i] == text
  }

  lemma ReceivedSince(inbox: seq<string>, from: nat, text: string, other: string)
    requires from <= |inbox|
    ensures HasSince(inbox + [text], from, text)
    ensures HasSince(inbox, from, other) ==> HasSince(inbox + [text], from, other)
  {
    var after := inbox + [text];
    assert after[|inbox|] == text;
    if i :| from <= i < |inbox| && inbox[i] == other {
      assert after[i] == other;
    }
  }

  /** A client that was in the set when message L was published has received it since, or will
      unless it leaves. */
  ghost predicate Awaits(s: State, c: nat, L: nat, from: nat)
  {
    && c in s.clients && s.clients[c].phase != Accepting && L < |s.channel| && from <= Length(s, c)
    && Attempts(s.channel[L], s.clients[c].device)
    && (|| HasSince(s.clients[c].inbox, from, s.channel[L])
        || (c in s.connections ==>
            Taken(s) <= L || (s.current.Some? && |s.relayed| == L && c in s.current.value.pending)))
  }

  lemma AwaitsStep(s: State, e: Step, c: nat, L: nat, from: nat)
    requires RelayOk(s) && Awaits(s, c, L, from) && Enabled(s, e)
    ensures Awaits(Next(s, e), c, L, from) && Next(s, e).channel[L] == s.channel[L]
  {
    hide Attempts, HasSince;
    if e == Deliver(c) {
      ReceivedSince(s.clients[c].inbox, from, s.current.value.message, s.channel[L]);
    } else if e == SendOverlay(c) {
      ReceivedSince(s.clients[c].inbox, from, OverlayText(s.clients[c].device), s.channel[L]);
    }
  }

  /** The device's flag is set, and a client of it that was not in the set at some moment has the
      overlay text since, once it is in the set and its `register` has returned. */
  ghost predicate Overlays(s: State, c: nat, device: string, from: nat)
  {
    && device in s.overlay && from <= Length(s, c)
    && (c in s.clients && c in s.connections && s.clients[c].phase == Registered && s.clients[c].device == device ==>
        HasSince(s.clients[c].inbox, from, OverlayText(device)))
  }

  lemma OverlaysStep(s: State, e: Step, c: nat, device: string, from: nat)
    requires Overlays(s, c, device, from) && Enabled(s, e)
    ensures Overlays(Next(s, e), c, device, from)
  {
    hide Attempts, HasSince;
    if c in s.clients {
      if e == SendOverlay(c) {
        ReceivedSince(s.clients[c].inbox, from, OverlayText(s.clients[c].device), OverlayText(device));
      } else if e == Deliver(c) {
        ReceivedSince(s.clients[c].inbox, from, s.current.value.message, OverlayText(device));
      }
    }
  }

  lemma {:induction false} AwaitsRun(s: State, steps: seq<Step>, t: State, c: nat, L: nat, from: nat)
    requires Inv(s) && Awaits(s, c, L, from) && Run(s, steps, t)
    ensures Inv(t) && Awaits(t, c, L, from) && t.channel[L] == s.channel[L]
    decreases |steps|
  {
    if steps == [] {
    } else {
      InvStep(s, steps[0]);
      AwaitsStep(s, steps[0], c, L, from);
      AwaitsRun(Next(s, steps[0]), steps[1..], t, c, L, from);
    }
  }

  lemma {:induction false} OverlaysRun(s: State, steps: seq<Step>, t: State, c: nat, device: string, from: nat)
    requires Overlays(s, c, device, from) && Run(s, steps, t)
    ensures Overlays(t, c, device, from)
    decreases |steps|
  {
    if steps == [] {
    } else {
      OverlaysStep(s, steps[0], c, device, from);
      OverlaysRun(Next(s, steps[0]), steps[1..], t, c, device, from);
    }
  }

  lemma {:induction false} DeviceKept(s: State, steps: seq<Step>, t: State, c: nat)
    requires Run(s, steps, t) && c in s.clients
    ensures c in t.clients && t.clients[c].device == s.clients[c].device
    decreases |steps|
  {
    if steps == [] {
    } else {
      DevicesKept(s, steps[0], c);
      DeviceKept(Next(s, steps[0]), steps[1..], t, c);
    }
  }

  /** The handler's next await publishes a message addressed to a device whose flag it has set. */
  predicate PublishesAfterFlag(s: State, h: nat, flag: nat)
  {
    && Enabled(s, Do(h))
    && flag < s.handlers[h].done && s.handlers[h].ops[flag].SetOverlay?
    && s.handlers[h].ops[s.handlers[h].done].Publish?
    && Attempts(s.handlers[h].ops[s.handlers[h].done].message, s.handlers[h].ops[flag].device)
  }

  /** Once the relay is done with such a message, every connected client of the device has been
      told since its publication: the message itself if it was in the set by then, and otherwise
      the overlay text, once it finished registering. */
  lemma ConnectedAreTold(before: seq<Step>, s: State, h: nat, flag: nat, after: seq<Step>, t: State, c: nat)
    requires Run(START, before, s) && PublishesAfterFlag(s, h, flag)
    requires Run(Next(s, Do(h)), after, t) && |s.channel| < |t.relayed|
    requires c in t.connections && c in t.clients && t.clients[c].device == s.handlers[h].ops[flag].device
    ensures
      var message, device := s.handlers[h].ops[s.handlers[h].done].message, s.handlers[h].ops[flag].device;
      && (c in s.connections ==> HasSince(t.clients[c].inbox, Length(s, c), message))
      && (c !in s.connections && t.clients[c].phase == Registered ==>
          HasSince(t.clients[c].inbox, Length(s, c), "force_overlay:" + device))
  {
    var handler := s.handlers[h];
    var device, L, u := handler.ops[flag].device, |s.channel|, Next(s, Do(h));
    InvRun(START, before, s);
    InvStep(s, Do(h));
    if c in s.connections {
      DeviceKept(u, after, t, c);
      assert Awaits(u, c, L, Length(s, c));
      AwaitsRun(u, after, t, c, L, Length(s, c));
    } else {
      assert Overlays(u, c, device, Length(s, c));
      OverlaysRun(u, after, t, c, device, Length(s, c));
    }
  }

  /** The client is in the set and its `register` has not raised. */
  predicate Open(s: State, c: nat)
  {
    c in s.connections && c in s.clients && s.clients[c].phase in {InSet, Overlaid, Registered}
  }

  /** It stays open, all its sends succeed, and its `register` does not raise. */
  predicate Undisturbed(steps: seq<Step>, c: nat)
  {
    forall e | e in steps :: e != Disconnect(c) && e != FailDelivery(c) && e != Abort(c)
  }

  lemma OpenStep(s: State, e: Step, c: nat)
    requires Enabled(s, e) && e != Disconnect(c) && e != FailDelivery(c) && e != Abort(c)
    requires Open(s, c) || e == Join(c)
    ensures Open(Next(s, e), c)
  {
  }

  lemma {:induction false} NeverJoinsAgain(s: State, steps: seq<Step>, t: State, c: nat)
    requires Run(s, steps, t) && c in s.clients && s.clients[c].phase != Accepting
    ensures Join(c) !in steps
    decreases |steps|
  {
    if steps == [] {
    } else {
      assert steps == [steps[0]] + steps[1..];
      NeverJoinsAgain(Next(s, steps[0]), steps[1..], t, c);
    }
  }

  /** A client joins at most once, coming from outside the set. */
  lemma {:induction false} JoinsFromOutside(s: State, steps: seq<Step>, t: State, c: nat)
    requires Run(s, steps, t) && Join(c) in steps && JoinedOk(s)
    ensures c !in s.connections
    decreases |steps|
  {
    if steps[0] == Join(c) {
    } else {
      assert steps == [steps[0]] + steps[1..];
      JoinedStep(s, steps[0]);
      if c in s.connections {
        NeverJoinsAgain(s, steps, t, c);
      }
    }
  }

  lemma {:induction false} StaysOpen(s: State, steps: seq<Step>, t: State, c: nat)
    requires Run(s, steps, t) && Undisturbed(steps, c) && (Open(s, c) || Join(c) in steps)
    ensures Open(t, c)
    decreases |steps|
  {
    if steps == [] {
    } else {
      assert steps[0] in steps;
      if Open(s, c) || steps[0] == Join(c) {
        OpenStep(s, steps[0], c);
      }
      assert forall e | e in steps[1..] :: e in steps;
      if !Open(s, c) && steps[0] != Join(c) {
        assert steps == [steps[0]] + steps[1..];
      }
      StaysOpen(Next(s, steps[0]), steps[1..], t, c);
    }
  }

  /** No missed kill, in terms of what happens: such a message is published, and from then on a
      client of the device that is open or joins stays open, its sends succeed and its `register`
      does not raise. Once the relay is done with the message, a client that was open has received
      it since its publication, and one that joined later has received the overlay text since, if
      its `register` has returned. */
  lemma NoMissedKill(before: seq<Step>, s: State, h: nat, flag: nat, after: seq<Step>, t: State, c: nat)
    requires Run(START, before, s) && PublishesAfterFlag(s, h, flag)
    requires Run(Next(s, Do(h)), after, t) && |s.channel| < |t.relayed|
    requires (Open(s, c) || Join(c) in after) && Undisturbed(after, c)
    requires c in t.clients && t.clients[c].device == s.handlers[h].ops[flag].device
    ensures c in t.connections && t.clients[c].phase in {InSet, Overlaid, Registered}
    ensures
      var message, device := s.handlers[h].ops[s.handlers[h].done].message, s.handlers[h].ops[flag].device;
      && (Open(s, c) ==> HasSince(t.clients[c].inbox, Length(s, c), message))
      && (!Open(s, c) && t.clients[c].phase == Registered ==>
          HasSince(t.clients[c].inbox, Length(s, c), "force_overlay:" + device))
  {
    StaysOpen(Next(s, Do(h)), after, t, c);
    if !Open(s, c) {
      InvRun(START, before, s);
      JoinsFromOutside(Next(s, Do(h)), after, t, c);
    }
    ConnectedAreTold(before, s, h, flag, after, t, c);
  }

  // The machine's connection set is the hub's.

  function View(s: State): set<Connection>
  {
    set c | c in s.connections && c in s.clients :: Connection(c, s.clients[c].device)
  }

  function HubEvents(s: State, e: Step): seq<HubEvent>
    requires Enabled(s, e)
  {
    match e
    case Join(c) => [Joined(Connection(c, s.clients[c].device))]
    case Disconnect(c) => [Left(c)]
    case FailDelivery(c) => [Left(c)]
    case _ => []
  }

  ghost function RunEvents(s: State, steps: seq<Step>, t: State): seq<HubEvent>
    requires Run(s, steps, t)
    decreases |steps|
  {
    if steps == [] then [] else HubEvents(s, steps[0]) + RunEvents(Next(s, steps[0]), steps[1..], t)
  }

  lemma StepIsHubEvent(s: State, e: Step)
    requires Inv(s) && Enabled(s, e)
    ensures View(Next(s, e)) == Replay(View(s), HubEvents(s, e))
  {
    hide FlagsOk, RelayOk, Attempts;
    var t := Next(s, e);
    if HubEvents(s, e) != [] {
      assert HubEvents(s, e)[..0] == [];
    }
    assert forall c | c in s.clients :: c in t.clients && t.clients[c].device == s.clients[c].device;
  }

  /** In any run the connections are what the hub's set becomes under the run's joins, closes and
      failed sends. */
  lemma {:induction false} ConnectionsAreTheHubs(s: State, steps: seq<Step>, t: State)
    requires Inv(s) && Run(s, steps, t)
    ensures View(t) == Replay(View(s), RunEvents(s, steps, t))
    decreases |steps|
  {
    if steps == [] {
    } else {
      var e := steps[0];
      InvStep(s, e);
      StepIsHubEvent(s, e);
      ConnectionsAreTheHubs(Next(s, e), steps[1..], t);
      ReplayAppend(View(s), HubEvents(s, e), RunEvents(Next(s, e), steps[1..], t));
    }
  }

  /** The sends a broadcast starts with are those the hub attempts on its set. */
  lemma TakeTargetsTheHubs(s: State)
    requires Inv(s) && Enabled(s, Take)
    ensures
      var b := Next(s, Take).current.value;
      b.pending == set k | k in View(s) && Attempts(b.message, k.device) :: k.ws
  {
    hide FlagsOk, RelayOk, Attempts;
    var b := Next(s, Take).current.value;
    forall c | c in b.pending
      ensures c in set k | k in View(s) && Attempts(b.message, k.device) :: k.ws
    {
      assert Connection(c, s.clients[c].device) in View(s);
    }
  }

  // Which handler programs never miss a client.

  predicate Finished(t: State, h: nat, ops: seq<Op>)
  {
    h in t.handlers && t.handlers[h] == Handler(ops, |ops|) && |t.relayed| == |t.channel|
  }

  predicate Waiting(t: State, c: nat, device: string)
  {
    c in t.connections && c in t.clients && t.clients[c].device == device && t.clients[c].phase == Registered
  }

  /** Since the first `from` texts, the client has received the overlay text or a message of the
      handler addressed to its device. */
  ghost predicate ToldBy(client: Client, from: nat, ops: seq<Op>)
  {
    exists text :: HasSince(client.inbox, from, text)
      && (text == "force_overlay:" + client.device || (Publish(text) in ops && Attempts(text, client.device)))
  }

  /** A run from the start of a handler to a moment when it has finished and the relay is idle. */
  ghost predicate FullRun(s: State, h: nat, ops: seq<Op>, after: seq<Step>, t: State)
  {
    Enabled(s, Spawn(h, ops)) && Run(Next(s, Spawn(h, ops)), after, t) && Finished(t, h, ops)
  }

  /** Whatever comes before and however it interleaves: when a handler with these awaits has
      finished and the relay has nothing left, every connected, registered client of the device
      has been told since the handler started. */
  ghost predicate NeverMisses(ops: seq<Op>, device: string)
  {
    forall before, s, h, after, t, c | Run(START, before, s) && FullRun(s, h, ops, after, t) && Waiting(t, c, device) ::
      ToldBy(t.clients[c], Length(s, c), ops)
  }

  predicate FlagThenPublish(ops: seq<Op>, device: string, i: nat, j: nat)
  {
    i < j < |ops| && ops[i] == SetOverlay(device) && ops[j].Publish? && Attempts(ops[j].message, device)
  }

  /** The flag is set before some publish addressed to the device. */
  ghost predicate FlagBeforePublish(ops: seq<Op>, device: string)
  {
    exists i, j :: FlagThenPublish(ops, device, i, j)
  }

  lemma {:induction false} OpsKept(s: State, steps: seq<Step>, t: State, h: nat)
    requires Run(s, steps, t) && h in s.handlers
    ensures h in t.handlers && t.handlers[h].ops == s.handlers[h].ops && s.handlers[h].done <= t.handlers[h].done
    decreases |steps|
  {
    if steps == [] {
    } else {
      OpsKept(Next(s, steps[0]), steps[1..], t, h);
    }
  }

  /** A run in which a handler got past op j passes through the moment it executes op j. */
  lemma {:induction false} MomentOf(s: State, steps: seq<Step>, t: State, h: nat, ops: seq<Op>, j: nat)
    returns (before: seq<Step>, u: State, after: seq<Step>)
    requires Run(s, steps, t) && h in t.handlers && t.handlers[h].ops == ops && j < t.handlers[h].done <= |ops|
    requires h in s.handlers ==> s.handlers[h].ops == ops && s.handlers[h].done <= j
    ensures Run(s, before, u) && h in u.handlers && u.handlers[h] == Handler(ops, j)
    ensures Run(Next(u, Do(h)), after, t)
    decreases |steps|
  {
    var e := steps[0];
    if e == Do(h) && s.handlers[h].done == j {
      before, u, after := [], s, steps[1..];
    } else {
      var v := Next(s, e);
      if h in v.handlers {
        OpsKept(v, steps[1..], t, h);
      }
      before, u, after := MomentOf(v, steps[1..], t, h, ops, j);
      before := [e] + before;
      assert before[1..] == before[1..] && Run(v, before[1..], u);
    }
  }

  lemma {:induction false} ChannelGrows(s: State, steps: seq<Step>, t: State)
    requires Run(s, steps, t)
    ensures |s.channel| <= |t.channel|
    decreases |steps|
  {
    if steps == [] {
    } else {
      ChannelGrows(Next(s, steps[0]), steps[1..], t);
    }
  }

  lemma {:induction false} LengthGrows(s: State, steps: seq<Step>, t: State, c: nat)
    requires Run(s, steps, t)
    ensures Length(s, c) <= Length(t, c)
    decreases |steps|
  {
    if steps == [] {
    } else {
      LengthGrows(Next(s, steps[0]), steps[1..], t, c);
    }
  }

  lemma ToldByLater(client: Client, from: nat, later: nat, text: string, ops: seq<Op>)
    requires from <= later && HasSince(client.inbox, later, text)
    requires text == OverlayText(client.device) || (Publish(text) in ops && Attempts(text, client.device))
    ensures ToldBy(client, from, ops)
  {
    assert HasSince(client.inbox, from, text);
  }

  lemma {:induction false} RunAppend(s: State, a: seq<Step>, t: State, b: seq<Step>, u: State)
    requires Run(s, a, t) && Run(t, b, u)
    ensures Run(s, a + b, u)
    decreases |a|
  {
    if a == [] {
      assert a + b == b;
    } else {
      assert (a + b)[1..] == a[1..] + b;
      RunAppend(Next(s, a[0]), a[1..], t, b, u);
    }
  }

  lemma RunStep(s: State, steps: seq<Step>, t: State, e: Step)
    requires Run(s, steps, t) && Enabled(t, e)
    ensures Run(s, steps + [e], Next(t, e))
  {
    assert Run(Next(t, e), [], Next(t, e)) && [e][1..] == [];
    assert Run(t, [e], Next(t, e));
    RunAppend(s, steps, t, [e], Next(t, e));
  }

  lemma FlagFirstTells(ops: seq<Op>, device: string, i: nat, j: nat, before: seq<Step>, s: State, h: nat,
                       after: seq<Step>, t: State, c: nat)
    requires FlagThenPublish(ops, device, i, j)
    requires Run(START, before, s) && FullRun(s, h, ops, after, t) && Waiting(t, c, device)
    ensures ToldBy(t.clients[c], Length(s, c), ops)
  {
    var v := Next(s, Spawn(h, ops));
    var during, u, rest := MomentOf(v, after, t, h, ops, j);
    RunStep(START, before, s, Spawn(h, ops));
    RunAppend(START, before + [Spawn(h, ops)], v, during, u);
    InvRun(START, before + [Spawn(h, ops)] + during, u);
    ChannelGrows(Next(u, Do(h)), rest, t);
    LengthGrows(v, during, u, c);
    ConnectedAreTold(before + [Spawn(h, ops)] + during, u, h, i, rest, t, c);
    assert ops[j] in ops;
    ToldByLater(t.clients[c], Length(s, c), Length(u, c),
                if c in u.connections then ops[j].message else OverlayText(device), ops);
  }

  lemma FlagFirstNeverMisses(ops: seq<Op>, device: string, i: nat, j: nat)
    requires FlagThenPublish(ops, device, i, j)
    ensures NeverMisses(ops, device)
  {
    hide Run, FullRun, ToldBy, Length, FlagThenPublish;
    forall before, s, h, after, t, c | Run(START, before, s) && FullRun(s, h, ops, after, t) && Waiting(t, c, device)
      ensures ToldBy(t.clients[c], Length(s, c), ops)
    {
      FlagFirstTells(ops, device, i, j, before, s, h, after, t, c);
    }
  }

  // The converse: a program without that order has a run that misses a client.

  /** One handler between awaits, an idle relay, and at most one client, of this device. */
  predicate Quiet(s: State, ops: seq<Op>, k: nat, device: string)
  {
    && s.handlers == map[0 := Handler(ops, k)] && k <= |ops|
    && s.current.None? && |s.relayed| == |s.channel|
    && s.connections == s.clients.Keys
    && forall c | c in s.clients :: s.clients[c].device == device
  }

  /** An op that no present client is addressed by passes without a trace in the clients. */
  lemma QuietOp(s: State, ops: seq<Op>, k: nat, device: string) returns (steps: seq<Step>, t: State)
    requires Quiet(s, ops, k, device) && k < |ops|
    requires s.clients == map[] || (ops[k].Publish? ==> !Attempts(ops[k].message, device))
    ensures Run(s, steps, t) && Quiet(t, ops, k + 1, device) && t.clients == s.clients
    ensures t.overlay == if ops[k].SetOverlay? then s.overlay + {ops[k].device} else s.overlay
  {
    var u := Next(s, Do(0));
    if ops[k].SetOverlay? {
      steps, t := [Do(0)], u;
      assert Run(u, [], t) && steps[1..] == [];
    } else {
      var v := Next(u, Take);
      assert v.current.value.pending == {};
      t := Next(v, Finish);
      steps := [Do(0), Take, Finish];
      assert Run(t, [], t) && [Finish][1..] == [];
      assert Run(v, [Finish], t) && [Take, Finish][1..] == [Finish];
      assert Run(u, [Take, Finish], t) && steps[1..] == [Take, Finish];
    }
  }

  lemma {:induction false} QuietOps(s: State, ops: seq<Op>, k: nat, n: nat, device: string)
    returns (steps: seq<Step>, t: State)
    requires Quiet(s, ops, k, device) && k <= n <= |ops|
    requires s.clients == map[] || forall i | k <= i < n && ops[i].Publish? :: !Attempts(ops[i].message, device)
    ensures Run(s, steps, t) && Quiet(t, ops, n, device) && t.clients == s.clients
    ensures device in t.overlay ==> device in s.overlay || exists i :: k <= i < n && ops[i] == SetOverlay(device)
    decreases n - k
  {
    if k == n {
      steps, t := [], s;
    } else {
      var a, u := QuietOp(s, ops, k, device);
      var b, v := QuietOps(u, ops, k + 1, n, device);
      RunAppend(s, a, u, b, v);
      steps, t := a + b, v;
    }
  }

  /** The first op that sets the flag, or the end. */
  function FirstFlag(ops: seq<Op>, device: string): (n: nat)
    ensures n <= |ops| && forall i | 0 <= i < n :: ops[i] != SetOverlay(device)
    ensures n < |ops| ==> ops[n] == SetOverlay(device)
  {
    if ops == [] || ops[0] == SetOverlay(device) then 0 else 1 + FirstFlag(ops[1..], device)
  }

  /** Client 0 connects, joins the set and finds no flag. */
  lemma QuietClient(s: State, ops: seq<Op>, k: nat, device: string) returns (steps: seq<Step>, t: State)
    requires Quiet(s, ops, k, device) && s.clients == map[] && device !in s.overlay
    ensures Run(s, steps, t) && Quiet(t, ops, k, device) && t.clients == map[0 := Client(device, Registered, [])]
  {
    var u := Next(s, Connect(0, device));
    var v := Next(u, Join(0));
    t := Next(v, ReadFlag(0));
    steps := [Connect(0, device), Join(0), ReadFlag(0)];
    assert Run(t, [], t) && [ReadFlag(0)][1..] == [];
    assert Run(v, [ReadFlag(0)], t) && [Join(0), ReadFlag(0)][1..] == [ReadFlag(0)];
    assert Run(u, [Join(0), ReadFlag(0)], t) && steps[1..] == [Join(0), ReadFlag(0)];
  }

  /** The client connects just before the handler first sets the flag. */
  lemma EarlyClient(ops: seq<Op>, device: string) returns (steps: seq<Step>, t: State)
    ensures Run(Next(START, Spawn(0, ops)), steps, t) && Quiet(t, ops, FirstFlag(ops, device), device)
    ensures t.clients == map[0 := Client(device, Registered, [])]
  {
    var n := FirstFlag(ops, device);
    var s := Next(START, Spawn(0, ops));
    var a, u := QuietOps(s, ops, 0, n, device);
    var b;
    b, t := QuietClient(u, ops, n, device);
    hide Run;
    RunAppend(s, a, u, b, t);
    steps := a + b;
  }

  lemma LatePublishMisses(ops: seq<Op>, device: string)
    requires !FlagBeforePublish(ops, device)
    ensures !NeverMisses(ops, device)
  {
    var n := FirstFlag(ops, device);
    var s := Next(START, Spawn(0, ops));
    var steps, v := EarlyClient(ops, device);
    forall i | n <= i < |ops| && ops[i].Publish?
      ensures !Attempts(ops[i].message, device)
    {
      assert !FlagThenPublish(ops, device, n, i);
    }
    var c, t := QuietOps(v, ops, n, |ops|, device);
    RunAppend(s, steps, v, c, t);
    assert Run(START, [], START);
    hide Run, Attempts;
    assert FullRun(START, 0, ops, steps + c, t) && Waiting(t, 0, device) && t.clients[0].inbox == [];
    assert !ToldBy(t.clients[0], Length(START, 0), ops);
  }

  /** A handler never misses a client, in any interleaving, exactly when it sets the flag before
      some publish addressed to the device. */
  lemma OrderDecidesDelivery(ops: seq<Op>, device: string)
    ensures NeverMisses(ops, device) <==> FlagBeforePublish(ops, device)
  {
    if FlagBeforePublish(ops, device) {
      var i, j :| FlagThenPublish(ops, device, i, j);
      FlagFirstNeverMisses(ops, device, i, j);
    } else {
      LatePublishMisses(ops, device);
    }
  }

  /** A worker block is never missed exactly when the device id has no colon or starts with one. */
  lemma WorkerBlockNeverMissed(device: string, score: string)
    ensures NeverMisses(WorkerOps(device, score), device) <==> NoColon(device) || device[0] == ':'
  {
    var ops := WorkerOps(device, score);
    OrderDecidesDelivery(ops, device);
    BlockReachesItsDevice(device, "score:" + score);
    if NoColon(device) || device[0] == ':' {
      assert FlagThenPublish(ops, device, 1, 2);
    }
  }

  /** A critical EDR report is never missed, whatever the device id: its last message goes to
      everybody. */
  lemma QuarantineNeverMissed(device: string)
    ensures NeverMisses(EdrOps(device), device)
  {
    var message := "IMMEDIATE_QUARANTINE:" + device;
    assert message[0] == 'I' && Attempts(message, device);
    assert FlagThenPublish(EdrOps(device), device, 1, 2);
    OrderDecidesDelivery(EdrOps(device), device);
  }

  /** revoke_and_block alone, as logout and the heartbeat breach use it, can miss a client: it
      publishes before it sets the flag. */
  lemma RevokeAloneCanMiss(device: string)
    ensures !NeverMisses(RevokeOps(device), device)
  {
    OrderDecidesDelivery(RevokeOps(device), device);
  }
}
