/** The EDR report endpoint: score the report, keep an audit row of serious ones, and on a critical
    one block the device and publish its quarantine, in that order. */
module Edr {
  import opened RedisStore
  import opened Tokens
  import Billing
  import Guard
  import KillSwitchRuns
  import Threat

  datatype AuditRow = AuditRow(user: string, device: string, level: Threat.Level, reason: string, at: nat)

  /** ";".join */
  function Joined(actions: seq<string>): string
  {
    if actions == [] then ""
    else if |actions| == 1 then actions[0]
    else Joined(actions[..|actions| - 1]) + ";" + actions[|actions| - 1]
  }

  function Reason(actions: seq<string>): string
  {
    if Joined(actions) == "" then "edr_report" else Joined(actions)
  }

  /** The reason lists the actions in order, separated by semicolons; without any it is the default. */
  lemma ReasonLists(actions: seq<string>, action: string)
    ensures Reason([]) == "edr_report" && (action != "" ==> Reason([action]) == action)
    ensures actions != [] && Joined(actions) != "" ==> Reason(actions + [action]) == Reason(actions) + ";" + action
  {
    assert (actions + [action])[..|actions|] == actions;
  }

  /** What a critical report does to the shared store. */
  function QuarantineEffect(db: Db, user: string, device: string): Db
  {
    Published(RevokeEffect(db, user, device, true), "IMMEDIATE_QUARANTINE:" + device)
  }

  /** The order of a quarantine: the revocation, then the message. */
  function QuarantineJournal(device: string): seq<Command>
  {
    RevokeJournal(device, true) + [Announced("IMMEDIATE_QUARANTINE:" + device)]
  }

  class EdrEndpoint {
    const tokens: TokenService
    var audit: seq<AuditRow>

    constructor (tokens: TokenService)
      ensures this.tokens == tokens && audit == []
    {
      this.tokens, audit := tokens, [];
    }

    method Report(user: string, device: string, report: Threat.Report, slots: seq<set<string>>)
      returns (score: int, level: Threat.Level, actions: seq<string>)
      requires Threat.Risk(report) >= 80 ==> ScanContract(tokens.redis.Snapshot(), slots)
      modifies this, tokens.redis
      ensures score == Threat.Risk(report) && level == Threat.LevelOf(score) && actions == Threat.Actions(report)
      ensures
        var before := old(tokens.redis.Snapshot());
        tokens.redis.Snapshot() == if score >= 80 then QuarantineEffect(before, user, device) else before
      ensures tokens.redis.journal == old(tokens.redis.journal) + if score >= 80 then QuarantineJournal(device) else []
      ensures
        var row := AuditRow(user, device, level, Reason(actions), old(tokens.redis.now));
        audit == if score >= 50 then old(audit) + [row] else old(audit)
    {
      hide Threat.Risk, Threat.Actions;
      score, level, actions := Threat.ComputeRisk(report);
      if level == Threat.High || level == Threat.Critical {
        audit := audit + [AuditRow(user, device, level, Reason(actions), tokens.redis.now)];
      }
      if level == Threat.Critical {
        tokens.RevokeAndBlock(user, device, true, slots);
        tokens.redis.Publish("IMMEDIATE_QUARANTINE:" + device);
      }
    }
  }

  /** The endpoint publishes and flags in the order of the delivery model's EDR program. */
  lemma QuarantineFollowsEdrOps(device: string)
    ensures KillSwitchRuns.OpsOf(QuarantineJournal(device)) == KillSwitchRuns.EdrOps(device)
  {
    var last := [Announced("IMMEDIATE_QUARANTINE:" + device)];
    KillSwitchRuns.RevokeFollowsOps(device);
    KillSwitchRuns.OpsOfConcat(RevokeJournal(device, true), last);
    assert last[1..] == [];
  }

  /** From evidence to effect: a report with contact to remote-access infrastructure keeps the
      device out of every guarded route for an hour, whatever else the system does. */
  lemma RatContactShutsDeviceOut(s: Settings, st: Guard.State, user: string, device: string, report: Threat.Report,
                                 score: int, steps: seq<Guard.Step>, t: Guard.State,
                                 r: Guard.Request, cached: Option<Billing.Cached>, paywall: Guard.Paywall)
    requires Threat.AnyRatContact(report) && score == Threat.Risk(report)
    requires
      var db := if score >= 80 then QuarantineEffect(st.world.db, user, device) else st.world.db;
      Guard.Run(s, st.(world := st.world.(db := db)), steps, t)
    requires t.world.db.now <= st.world.db.now + 3600000
    requires r.bearer.Some? && r.bearer.value.deviceId == device && Guard.NeedsGuard(r.path)
    ensures score >= 80
    ensures Guard.Serve(s, t.world.db, t.world.signed, r, cached, paywall).1.Denied?
  {
    var after := st.(world := st.world.(db := QuarantineEffect(st.world.db, user, device)));
    assert RevokedKey(device)[0] == 'r' && OverlayKey(device)[0] == 'f';
    Guard.FlagSurvivesRun(s, after, steps, t, device, st.world.db.now + 3600000);
  }
}
