/** The EDR risk scorer: blacklisted and sideloaded apps, dangerous permissions, and contact with
    known remote-access infrastructure, folded into a capped score and a level. */
module Threat {
  import opened RedisStore
  import opened Sequences

  datatype App = App(package: string, sha256: string, sideloaded: bool)

  datatype DnsLog = DnsLog(domain: string, ip: string)

  datatype Report = Report(apps: seq<App>, permissions: seq<string>, dnsLogs: Option<seq<DnsLog>>)

  datatype Level = Low | Medium | High | Critical

  const MALWARE_HASHES: set<string> := {
    "e3b0c44298fc1c149afbf4c8996fb92427ae41e4649b934ca495991b7852b855",
    "deadbeefdeadbeefdeadbeefdeadbeefdeadbeefdeadbeefdeadbeefdeadbeef"
  }

  const RAT_DOMAINS: set<string> := {"c2.evilrat.net", "stealth.trojanc2.io"}

  const RAT_IPS: set<string> := {"185.199.110.153", "45.67.230.12"}

  /** str.lower() on ASCII letters. */
  function Lower(s: string): (r: string)
    ensures |r| == |s|
    ensures forall i | 0 <= i < |s| :: r[i] == if 'A' <= s[i] <= 'Z' then s[i] - 'A' + 'a' else s[i]
  {
    if s == "" then ""
    else [if 'A' <= s[0] <= 'Z' then s[0] - 'A' + 'a' else s[0]] + Lower(s[1..])
  }

  predicate Blacklisted(a: App)
  {
    Lower(a.sha256) in MALWARE_HASHES
  }

  predicate RatContact(l: DnsLog)
  {
    l.domain in RAT_DOMAINS || l.ip in RAT_IPS
  }

  function AppScore(a: App): nat
  {
    (if Blacklisted(a) then 50 else 0) + (if a.sideloaded then 15 else 0)
  }

  function AppActions(a: App): seq<string>
  {
    (if Blacklisted(a) then ["blacklist_hit:" + a.package] else [])
    + (if a.sideloaded then ["sideloaded:" + a.package] else [])
  }

  function LogScore(l: DnsLog): nat
  {
    if RatContact(l) then 40 else 0
  }

  function LogActions(l: DnsLog): seq<string>
  {
    if RatContact(l) then ["rat_contact:" + (if l.domain != "" then l.domain else l.ip)] else []
  }

  /** The total of a weight over a list. */
  function Total<T>(weight: T -> nat, items: seq<T>): nat
  {
    if items == [] then 0 else Total(weight, items[..|items| - 1]) + weight(items[|items| - 1])
  }

  function Collected<T>(act: T -> seq<string>, items: seq<T>): seq<string>
  {
    if items == [] then [] else Collected(act, items[..|items| - 1]) + act(items[|items| - 1])
  }

  predicate AnySideloaded(apps: seq<App>)
  {
    exists a :: a in apps && a.sideloaded
  }

  function LowerAll(permissions: seq<string>): set<string>
  {
    set p | p in permissions :: Lower(p)
  }

  function PermissionScore(perms: set<string>): nat
  {
    (if "sms" in perms then 10 else 0)
    + (if "accessibility" in perms then 15 else 0)
    + (if "device_admin" in perms then 10 else 0)
  }

  predicate Combo(sideloaded: bool, perms: set<string>)
  {
    sideloaded && "sms" in perms && "accessibility" in perms
  }

  function Logs(r: Report): seq<DnsLog>
  {
    if r.dnsLogs.Some? then r.dnsLogs.value else []
  }

  /** The uncapped score. */
  function RawScore(r: Report): nat
  {
    var perms := LowerAll(r.permissions);
    Total(AppScore, r.apps) + PermissionScore(perms)
    + (if Combo(AnySideloaded(r.apps), perms) then 30 else 0)
    + Total(LogScore, Logs(r))
  }

  predicate AnyRatContact(r: Report)
  {
    exists l :: l in Logs(r) && RatContact(l)
  }

  /** The threshold function of the documentation: 25, 50 and 80. */
  function LevelOf(score: int): Level
  {
    if score >= 80 then Critical else if score >= 50 then High else if score >= 25 then Medium else Low
  }

  function Rank(l: Level): nat
  {
    match l
    case Low => 0
    case Medium => 1
    case High => 2
    case Critical => 3
  }

  function Capped(raw: int, rat: bool): int
  {
    var floor := if rat && raw < 80 then 80 else raw;
    if floor > 100 then 100 else floor
  }

  function Risk(r: Report): int
  {
    Capped(RawScore(r), AnyRatContact(r))
  }

  /** The hash and sideload pass over the apps. */
  method ScoreApps(apps: seq<App>) returns (score: nat, actions: seq<string>)
    ensures score == Total(AppScore, apps) && actions == Collected(AppActions, apps)
  {
    score, actions := 0, [];
    hide Blacklisted;
    for i := 0 to |apps|
      invariant score == Total(AppScore, apps[..i]) && actions == Collected(AppActions, apps[..i])
    {
      var app := apps[i];
      ghost var before := actions;
      assert apps[..i + 1][..i] == apps[..i];
      if Blacklisted(app) {
        score := score + 50;
        actions := actions + ["blacklist_hit:" + app.package];
      }
      if app.sideloaded {
        score := score + 15;
        actions := actions + ["sideloaded:" + app.package];
      }
      assert actions == before + AppActions(app);
    }
    assert apps[..|apps|] == apps;
  }

  /** The remote-access pass over the DNS logs. */
  method ScoreLogs(logs: seq<DnsLog>) returns (score: nat, ratDetected: bool, actions: seq<string>)
    ensures score == Total(LogScore, logs) && actions == Collected(LogActions, logs)
    ensures ratDetected <==> exists l :: l in logs && RatContact(l)
  {
    score, ratDetected, actions := 0, false, [];
    hide RatContact;
    for i := 0 to |logs|
      invariant score == Total(LogScore, logs[..i]) && actions == Collected(LogActions, logs[..i])
      invariant ratDetected <==> exists l :: l in logs[..i] && RatContact(l)
    {
      var log := logs[i];
      assert logs[..i + 1][..i] == logs[..i] && logs[..i + 1] == logs[..i] + [log];
      if RatContact(log) {
        score := score + 40;
        ratDetected := true;
        actions := actions + ["rat_contact:" + (if log.domain != "" then log.domain else log.ip)];
      }
    }
    assert logs[..|logs|] == logs;
  }

  /** What is reported for a report: hits and sideloads app by app, the combination, contacts. */
  function Actions(r: Report): seq<string>
  {
    Collected(AppActions, r.apps)
    + (if Combo(AnySideloaded(r.apps), LowerAll(r.permissions)) then ["combo_sideloaded_sms_accessibility"] else [])
    + Collected(LogActions, Logs(r))
  }

  method ComputeRisk(r: Report) returns (score: int, level: Level, actions: seq<string>)
    ensures score == Risk(r) && level == LevelOf(score) && 0 <= score <= 100
    ensures AnyRatContact(r) ==> level == Critical
    ensures (level == Critical <==> score >= 80) && (level == High <==> 50 <= score < 80)
    ensures (level == Medium <==> 25 <= score < 50) && (level == Low <==> score < 25)
    ensures actions == Actions(r)
  {
    hide RatContact, LowerAll, Total, Collected;
    var sideloadedPresent := AnySideloaded(r.apps);
    score, actions := ScoreApps(r.apps);
    var perms := LowerAll(r.permissions);
    if "sms" in perms {
      score := score + 10;
    }
    if "accessibility" in perms {
      score := score + 15;
    }
    if "device_admin" in perms {
      score := score + 10;
    }
    if sideloadedPresent && "sms" in perms && "accessibility" in perms {
      score := score + 30;
      actions := actions + ["combo_sideloaded_sms_accessibility"];
    }
    var logScore, ratDetected, logActions := ScoreLogs(if r.dnsLogs.Some? then r.dnsLogs.value else []);
    score, actions := score + logScore, actions + logActions;
    if ratDetected {
      level := Critical;
      score := if score > 80 then score else 80;
      score := if score < 100 then score else 100;
      return;
    }
    level := if score >= 80 then Critical else if score >= 50 then High else if score >= 25 then Medium else Low;
    score := if score < 100 then score else 100;
  }

  // More evidence never lowers the risk, and order is irrelevant.

  /** Every app, permission and DNS log of r is in q at least as often. */
  ghost predicate Includes(q: Report, r: Report)
  {
    && multiset(r.apps) <= multiset(q.apps)
    && multiset(r.permissions) <= multiset(q.permissions)
    && multiset(Logs(r)) <= multiset(Logs(q))
  }

  lemma {:induction false} TotalWithout<T>(weight: T -> nat, items: seq<T>, i: nat)
    requires i < |items|
    ensures Total(weight, items) == Total(weight, Removed(items, i)) + weight(items[i])
  {
    var n := |items| - 1;
    if i == n {
      assert Removed(items, i) == items[..n];
    } else {
      TotalWithout(weight, items[..n], i);
      assert Removed(items, i)[..n - 1] == Removed(items[..n], i);
    }
  }

  lemma {:induction false} TotalMonotone<T>(weight: T -> nat, few: seq<T>, many: seq<T>)
    requires multiset(few) <= multiset(many)
    ensures Total(weight, few) <= Total(weight, many)
  {
    if few == [] {
    } else {
      var n := |few| - 1;
      LastRemoved(few);
      var i := Occurrence(many, few[n]);
      RemovedMultiset(many, i);
      hide Removed;
      TotalMonotone(weight, few[..n], Removed(many, i));
      TotalWithout(weight, many, i);
    }
  }

  lemma InMultiset<T>(items: seq<T>, x: T)
    ensures x in items <==> x in multiset(items)
  {
  }

  /** Adding apps, permissions or DNS logs, anywhere in the lists, never lowers score or level. */
  lemma MoreEvidenceNeverLowersRisk(r: Report, q: Report)
    requires Includes(q, r)
    ensures Risk(r) <= Risk(q) && Rank(LevelOf(Risk(r))) <= Rank(LevelOf(Risk(q)))
  {
    TotalMonotone(AppScore, r.apps, q.apps);
    TotalMonotone(LogScore, Logs(r), Logs(q));
    forall a | a in r.apps
      ensures a in q.apps
    {
      InMultiset(r.apps, a);
      InMultiset(q.apps, a);
    }
    forall p | p in r.permissions
      ensures p in q.permissions
    {
      InMultiset(r.permissions, p);
      InMultiset(q.permissions, p);
    }
    forall l | l in Logs(r)
      ensures l in Logs(q)
    {
      InMultiset(Logs(r), l);
      InMultiset(Logs(q), l);
    }
    assert LowerAll(r.permissions) <= LowerAll(q.permissions);
  }

  /** Reordering the lists changes neither score nor level. */
  lemma OrderIrrelevant(r: Report, q: Report)
    requires multiset(r.apps) == multiset(q.apps) && multiset(r.permissions) == multiset(q.permissions)
    requires multiset(Logs(r)) == multiset(Logs(q))
    ensures Risk(r) == Risk(q)
  {
    MoreEvidenceNeverLowersRisk(r, q);
    MoreEvidenceNeverLowersRisk(q, r);
  }

  lemma {:induction false} MemberWeighs<T>(weight: T -> nat, items: seq<T>, x: T)
    requires x in items
    ensures weight(x) <= Total(weight, items)
  {
    assert multiset([x]) <= multiset(items);
    TotalMonotone(weight, [x], items);
    assert [x][..0] == [];
    assert Total(weight, [x]) == weight(x);
  }

  lemma {:induction false} WeightlessTotal<T>(weight: T -> nat, items: seq<T>)
    requires forall x | x in items :: weight(x) == 0
    ensures Total(weight, items) == 0
  {
    if items == [] {
    } else {
      WeightlessTotal(weight, items[..|items| - 1]);
    }
  }

  /** Single pieces of evidence that decide the level in any report: a blacklisted hash, or the
      combination of a sideloaded app with SMS and accessibility rights, is at least high; a
      remote-access contact is critical; and permissions alone never score above 35. */
  lemma DecisiveEvidence(r: Report)
    ensures (exists a :: a in r.apps && Blacklisted(a)) ==> Rank(LevelOf(Risk(r))) >= Rank(High)
    ensures Combo(AnySideloaded(r.apps), LowerAll(r.permissions)) ==> Rank(LevelOf(Risk(r))) >= Rank(High)
    ensures AnyRatContact(r) ==> LevelOf(Risk(r)) == Critical
    ensures (forall a | a in r.apps :: !Blacklisted(a) && !a.sideloaded) && !AnyRatContact(r) ==> Risk(r) <= 35
  {
    hide Blacklisted, RatContact, LowerAll;
    if a :| a in r.apps && Blacklisted(a) {
      MemberWeighs(AppScore, r.apps, a);
    }
    if AnySideloaded(r.apps) {
      var a :| a in r.apps && a.sideloaded;
      MemberWeighs(AppScore, r.apps, a);
    }
    if (forall a | a in r.apps :: !Blacklisted(a) && !a.sideloaded) && !AnyRatContact(r) {
      WeightlessTotal(AppScore, r.apps);
      WeightlessTotal(LogScore, Logs(r));
    }
  }

  // The score as a formula.

  function Count<T>(p: T -> bool, items: seq<T>): nat
  {
    if items == [] then 0 else Count(p, items[..|items| - 1]) + if p(items[|items| - 1]) then 1 else 0
  }

  predicate Sideloaded(a: App)
  {
    a.sideloaded
  }

  lemma {:induction false} AppsTotal(apps: seq<App>)
    ensures Total(AppScore, apps) == 50 * Count(Blacklisted, apps) + 15 * Count(Sideloaded, apps)
    ensures AnySideloaded(apps) <==> Count(Sideloaded, apps) > 0
  {
    hide Blacklisted;
    if apps == [] {
    } else {
      var n := |apps| - 1;
      AppsTotal(apps[..n]);
      assert apps == apps[..n] + [apps[n]];
    }
  }

  lemma {:induction false} LogsTotal(logs: seq<DnsLog>)
    ensures Total(LogScore, logs) == 40 * Count(RatContact, logs)
    ensures (exists l :: l in logs && RatContact(l)) <==> Count(RatContact, logs) > 0
  {
    hide RatContact;
    if logs == [] {
    } else {
      var n := |logs| - 1;
      LogsTotal(logs[..n]);
      assert logs == logs[..n] + [logs[n]];
    }
  }

  /** Fifty points a blacklisted app, fifteen a sideloaded one, forty a remote-access contact; ten for SMS
      rights, fifteen for accessibility, ten for device administration, whatever their case, and thirty more
      for SMS and accessibility rights beside a sideloaded app. A contact makes it at least 80, and nothing
      makes it more than 100. */
  lemma RiskFormula(r: Report)
    ensures
      var sms, accessibility := "sms" in LowerAll(r.permissions), "accessibility" in LowerAll(r.permissions);
      var sideloaded, contacts := Count(Sideloaded, r.apps), Count(RatContact, Logs(r));
      var raw := 50 * Count(Blacklisted, r.apps) + 15 * sideloaded + 40 * contacts
                 + (if sms then 10 else 0) + (if accessibility then 15 else 0)
                 + (if "device_admin" in LowerAll(r.permissions) then 10 else 0)
                 + (if sideloaded > 0 && sms && accessibility then 30 else 0);
      Risk(r) == if raw > 100 then 100 else if contacts > 0 && raw < 80 then 80 else raw
  {
    hide Blacklisted, RatContact, LowerAll, Count;
    AppsTotal(r.apps);
    LogsTotal(Logs(r));
  }

  /** A permission counts in any case. */
  lemma PermissionsIgnoreCase(permissions: seq<string>, name: string)
    ensures name in LowerAll(permissions) <==> exists i :: 0 <= i < |permissions| && Lower(permissions[i]) == name
  {
  }

  /** The indicators: two hashes, in any case, two domains and two addresses. */
  lemma Indicators(a: App, l: DnsLog)
    ensures Blacklisted(a) <==>
              Lower(a.sha256) in {"e3b0c44298fc1c149afbf4c8996fb92427ae41e4649b934ca495991b7852b855",
                                  "deadbeefdeadbeefdeadbeefdeadbeefdeadbeefdeadbeefdeadbeefdeadbeef"}
    ensures RatContact(l) <==>
              l.domain in {"c2.evilrat.net", "stealth.trojanc2.io"} || l.ip in {"185.199.110.153", "45.67.230.12"}
  {
  }
}
