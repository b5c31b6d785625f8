/** The rule engine: conditions over the network status, and an evaluation loop that reads and extends the log of
    past firings while it goes through the rules. */
module Rules {
  import opened Collections
  import opened Clock
  import opened Network

  datatype Condition =
    | StatusIs(expected: ConnectionStatus)
    | LatencyAbove(threshold: real)
    | LatencyBelow(threshold: real)
    | PacketLossAbove(threshold: real)
    | PacketLossBelow(threshold: real)
    | DnsHealthy(healthy: bool)
    | GatewayReachable(reachable: bool)
    | InterfaceUp(name: string)
    | And(conditions: seq<Condition>)
    | Or(conditions: seq<Condition>)
    | Not(condition: Condition)
  {
    predicate Evaluate(s: NetworkStatus)
      decreases this
    {
      match this
      case StatusIs(expected) => s.status == expected
      case LatencyAbove(threshold) => s.latencyMs > threshold
      case LatencyBelow(threshold) => s.latencyMs < threshold
      case PacketLossAbove(threshold) => s.packetLossPct > threshold
      case PacketLossBelow(threshold) => s.packetLossPct < threshold
      case DnsHealthy(healthy) => s.dnsHealthy == healthy
      case GatewayReachable(reachable) => s.gatewayReachable == reachable
      case InterfaceUp(name) => exists i :: i in s.interfaces && i.name == name && i.isUp
      case And(conditions) => forall c :: c in conditions ==> c.Evaluate(s)
      case Or(conditions) => exists c :: c in conditions && c.Evaluate(s)
      case Not(condition) => !condition.Evaluate(s)
    }
  }

  /** An action is kept as the text that an evaluation lists for it. */
  datatype Rule = Rule(
    name: string,
    description: string,
    enabled: bool,
    condition: Condition,
    actions: seq<string>,
    cooldownSecs: nat)

  datatype Trigger = Trigger(name: string, time: Instant)

  datatype RuleEvaluation = RuleEvaluation(ruleName: string, triggered: bool, actionsTaken: seq<string>)

  const LOG_LIMIT: nat := 1000

  /** A new rule is enabled and has a cooldown of half a minute. */
  function NewRule(name: string, description: string, condition: Condition, actions: seq<string>): Rule {
    Rule(name, description, true, condition, actions, 30)
  }

  const HIGH_LATENCY := NewRule("high-latency", "Reduce concurrency when latency exceeds 500ms", LatencyAbove(500.0),
    ["LogWarning(\"High latency detected, reducing concurrency\")", "ReduceConcurrency(2)"])
  const HIGH_PACKET_LOSS := NewRule("high-packet-loss", "Pause downloads when packet loss exceeds 30%",
    PacketLossAbove(30.0), ["LogWarning(\"High packet loss, pausing downloads\")", "PauseDownloads"])
  const OFFLINE_QUEUE := NewRule("offline-queue", "Queue operations when offline", StatusIs(Offline),
    ["LogWarning(\"Network offline, queuing operations\")", "PauseDownloads"])
  const RECOVERED := NewRule("recovered", "Resume downloads when back online with low loss",
    And([StatusIs(Online), PacketLossBelow(10.0)]),
    ["LogWarning(\"Network recovered, resuming operations\")", "ResumeDownloads"])
  const DNS_FAILURE := NewRule("dns-failure", "Alert when DNS is unhealthy", DnsHealthy(false),
    ["Notify(\"DNS resolution failed\")"])
  const DEGRADED_NOTIFY := NewRule("degraded-notify", "Notify when network is degraded", StatusIs(Degraded),
    ["Notify(\"Network quality is degraded\")"])

  const DEFAULT_RULES := [HIGH_LATENCY, HIGH_PACKET_LOSS, OFFLINE_QUEUE, RECOVERED, DNS_FAILURE, DEGRADED_NOTIFY]

  /** The first, and so the oldest, record of a rule. */
  function Oldest(log: seq<Trigger>, name: string): Option<Instant> {
    if log == [] then None
    else if log[0].name == name then Some(log[0].time)
    else Oldest(log[1..], name)
  }

  function ElapsedSecs(now: Instant, time: Instant): nat {
    if now >= time then (now - time).Floor else 0
  }

  predicate Cooled(log: seq<Trigger>, r: Rule, now: Instant) {
    match Oldest(log, r.name)
    case None => true
    case Some(time) => ElapsedSecs(now, time) >= r.cooldownSecs
  }

  predicate Fires(log: seq<Trigger>, r: Rule, s: NetworkStatus, now: Instant) {
    r.enabled && Cooled(log, r, now) && r.condition.Evaluate(s)
  }

  function Logged(log: seq<Trigger>, name: string, now: Instant): seq<Trigger> {
    var longer := log + [Trigger(name, now)];
    if |longer| > LOG_LIMIT then longer[1..] else longer
  }

  /** The rules that fire when each is checked against the log its predecessors left. */
  function Fired(rules: seq<Rule>, log: seq<Trigger>, s: NetworkStatus, now: Instant): seq<Rule>
    decreases |rules|
  {
    if rules == [] then []
    else if Fires(log, rules[0], s, now) then [rules[0]] + Fired(rules[1..], Logged(log, rules[0].name, now), s, now)
    else Fired(rules[1..], log, s, now)
  }

  function LogAfter(rules: seq<Rule>, log: seq<Trigger>, s: NetworkStatus, now: Instant): seq<Trigger>
    decreases |rules|
  {
    if rules == [] then log
    else LogAfter(rules[1..], if Fires(log, rules[0], s, now) then Logged(log, rules[0].name, now) else log, s, now)
  }

  function EvaluationOf(r: Rule): RuleEvaluation {
    RuleEvaluation(r.name, true, r.actions)
  }

  function EvaluationsOf(rules: seq<Rule>): seq<RuleEvaluation> {
    seq(|rules|, i requires 0 <= i < |rules| => EvaluationOf(rules[i]))
  }

  lemma {:induction false} EvaluationsAppend(rules: seq<Rule>, r: Rule)
    ensures EvaluationsOf(rules + [r]) == EvaluationsOf(rules) + [EvaluationOf(r)]
  {
  }

  class RuleEngine {
    var rules: seq<Rule>
    var lastTriggered: seq<Trigger>

    constructor ()
      ensures rules == [] && lastTriggered == []
    {
      rules, lastTriggered := [], [];
    }

    method AddRule(r: Rule)
      modifies this`rules
      ensures rules == old(rules) + [r]
    {
      rules := rules + [r];
    }

    method LoadDefaults()
      modifies this`rules
      ensures rules == old(rules) + DEFAULT_RULES
    {
      AddRule(HIGH_LATENCY);
      AddRule(HIGH_PACKET_LOSS);
      AddRule(OFFLINE_QUEUE);
      AddRule(RECOVERED);
      AddRule(DNS_FAILURE);
      AddRule(DEGRADED_NOTIFY);
    }

    method RemoveRule(name: string) returns (removed: bool)
      modifies this`rules
      ensures rules == Filter(old(rules), (r: Rule) => r.name != name)
      ensures removed <==> |rules| < |old(rules)|
    {
      var before := |rules|;
      rules := Filter(rules, (r: Rule) => r.name != name);
      removed := |rules| < before;
    }

    method Fire(rule: Rule, now: Instant) returns (evaluation: RuleEvaluation)
      modifies this`lastTriggered
      ensures lastTriggered == Logged(old(lastTriggered), rule.name, now)
      ensures evaluation == EvaluationOf(rule)
    {
      lastTriggered := lastTriggered + [Trigger(rule.name, now)];
      if |lastTriggered| > LOG_LIMIT {
        lastTriggered := lastTriggered[1..];
      }
      var actionsTaken := [];
      for k := 0 to |rule.actions|
        invariant actionsTaken == rule.actions[..k]
      {
        actionsTaken := actionsTaken + [rule.actions[k]];
      }
      assert actionsTaken == rule.actions;
      evaluation := RuleEvaluation(rule.name, true, actionsTaken);
    }

    method Evaluate(s: NetworkStatus, now: Instant) returns (evaluations: seq<RuleEvaluation>)
      modifies this`lastTriggered
      ensures evaluations == EvaluationsOf(Fired(rules, old(lastTriggered), s, now))
      ensures lastTriggered == LogAfter(rules, old(lastTriggered), s, now)
    {
      evaluations := [];
      ghost var fired: seq<Rule> := [];
      for i := 0 to |rules|
        invariant evaluations == EvaluationsOf(fired)
        invariant fired + Fired(rules[i..], lastTriggered, s, now) == Fired(rules, old(lastTriggered), s, now)
        invariant LogAfter(rules[i..], lastTriggered, s, now) == LogAfter(rules, old(lastTriggered), s, now)
      {
        var rule := rules[i];
        assert rules[i..][0] == rule && rules[i..][1..] == rules[i + 1..];
        if !rule.enabled {
          continue;
        }
        if !Cooled(lastTriggered, rule, now) {
          continue;
        }
        var triggered := rule.condition.Evaluate(s);
        if triggered {
          var evaluation := Fire(rule, now);
          EvaluationsAppend(fired, rule);
          evaluations := evaluations + [evaluation];
          fired := fired + [rule];
        }
      }
      assert rules[|rules|..] == [];
    }
  }

  // ---- One evaluation against the log it started from ----

  predicate DistinctNames(rules: seq<Rule>) {
    forall i, j :: 0 <= i < j < |rules| ==> rules[i].name != rules[j].name
  }

  function FiresFrom(log: seq<Trigger>, s: NetworkStatus, now: Instant): Rule -> bool {
    (r: Rule) => Fires(log, r, s, now)
  }

  function Records(rules: seq<Rule>, now: Instant): seq<Trigger> {
    seq(|rules|, i requires 0 <= i < |rules| => Trigger(rules[i].name, now))
  }

  lemma {:induction false} OldestAppend(log: seq<Trigger>, extra: seq<Trigger>, name: string)
    ensures Oldest(log + extra, name) == if Oldest(log, name).Some? then Oldest(log, name) else Oldest(extra, name)
  {
    if log == [] {
      assert log + extra == extra;
    } else {
      assert (log + extra)[1..] == log[1..] + extra;
      OldestAppend(log[1..], extra, name);
    }
  }

  lemma {:induction false} OldestAbsent(log: seq<Trigger>, name: string)
    requires forall t :: t in log ==> t.name != name
    ensures Oldest(log, name) == None
  {
    if log != [] {
      OldestAbsent(log[1..], name);
    }
  }

  lemma {:induction false} RestHasOtherNames(rules: seq<Rule>)
    requires rules != [] && DistinctNames(rules)
    ensures DistinctNames(rules[1..])
    ensures forall q :: q in rules[1..] ==> q in rules && q.name != rules[0].name
  {
  }

  lemma {:induction false} RecordsCons(r: Rule, rest: seq<Rule>, now: Instant)
    ensures Records([r] + rest, now) == [Trigger(r.name, now)] + Records(rest, now)
  {
  }

  /** The loop as seen after some rules have fired: the records they added concern none of the rules to come. */
  lemma {:induction false} LoopReadsStartLog(
      rules: seq<Rule>, log: seq<Trigger>, extra: seq<Trigger>, s: NetworkStatus, now: Instant)
    requires DistinctNames(rules) && |log| + |extra| + |rules| <= LOG_LIMIT
    requires forall t, r :: t in extra && r in rules ==> t.name != r.name
    ensures Fired(rules, log + extra, s, now) == Filter(rules, FiresFrom(log, s, now))
    ensures LogAfter(rules, log + extra, s, now)
            == log + extra + Records(Filter(rules, FiresFrom(log, s, now)), now)
    decreases |rules|
  {
    if rules != [] {
      var r, rest := rules[0], rules[1..];
      OldestAppend(log, extra, r.name);
      OldestAbsent(extra, r.name);
      RestHasOtherNames(rules);
      if Fires(log, r, s, now) {
        var extra' := extra + [Trigger(r.name, now)];
        assert log + extra + [Trigger(r.name, now)] == log + extra';
        LoopReadsStartLog(rest, log, extra', s, now);
        var fired := Filter(rest, FiresFrom(log, s, now));
        RecordsCons(r, fired, now);
      } else {
        LoopReadsStartLog(rest, log, extra, s, now);
      }
    }
  }

  /** With distinct names and room in the log, the rules that fire are exactly the enabled, cooled-down and matching
      rules of the log the evaluation started from, in order, and each is recorded once. */
  lemma {:induction false} EvaluationReadsStartLog(rules: seq<Rule>, log: seq<Trigger>, s: NetworkStatus, now: Instant)
    requires DistinctNames(rules) && |log| + |rules| <= LOG_LIMIT
    ensures Fired(rules, log, s, now) == Filter(rules, FiresFrom(log, s, now))
    ensures LogAfter(rules, log, s, now) == log + Records(Fired(rules, log, s, now), now)
  {
    assert log + [] == log;
    LoopReadsStartLog(rules, log, [], s, now);
  }

  // ---- Runs of evaluations, with any rules each time ----

  datatype Round = Round(rules: seq<Rule>, status: NetworkStatus, now: Instant)

  function LogAt(log: seq<Trigger>, rounds: seq<Round>, n: nat): seq<Trigger>
    requires n <= |rounds|
  {
    if n == 0 then log
    else
      var r := rounds[n - 1];
      LogAfter(r.rules, LogAt(log, rounds, n - 1), r.status, r.now)
  }

  predicate MonotoneClock(rounds: seq<Round>) {
    forall i, j :: 0 <= i <= j < |rounds| ==> rounds[i].now <= rounds[j].now
  }

  predicate SortedUpTo(log: seq<Trigger>, now: Instant) {
    && (forall i, j :: 0 <= i < j < |log| ==> log[i].time <= log[j].time)
    && (forall i :: 0 <= i < |log| ==> log[i].time <= now)
  }

  lemma {:induction false} RoundKeepsSorted(rules: seq<Rule>, log: seq<Trigger>, s: NetworkStatus, now: Instant)
    requires SortedUpTo(log, now) && |log| <= LOG_LIMIT
    ensures SortedUpTo(LogAfter(rules, log, s, now), now) && |LogAfter(rules, log, s, now)| <= LOG_LIMIT
    decreases |rules|
  {
    if rules != [] {
      var next := if Fires(log, rules[0], s, now) then Logged(log, rules[0].name, now) else log;
      RoundKeepsSorted(rules[1..], next, s, now);
    }
  }

  /** Under a monotone clock the log stays sorted by time and never outgrows its limit, whatever the rules are. */
  lemma {:induction false} LogStaysSorted(rounds: seq<Round>, n: nat)
    requires 0 < n <= |rounds| && MonotoneClock(rounds)
    ensures SortedUpTo(LogAt([], rounds, n), rounds[n - 1].now) && |LogAt([], rounds, n)| <= 1000
  {
    var before := LogAt([], rounds, n - 1);
    if n > 1 {
      LogStaysSorted(rounds, n - 1);
      assert rounds[n - 2].now <= rounds[n - 1].now;
    }
    RoundKeepsSorted(rounds[n - 1].rules, before, rounds[n - 1].status, rounds[n - 1].now);
  }

  lemma {:induction false} FloorAtLeast(a: real, k: nat)
    ensures a.Floor >= k <==> a >= k as real
  {
  }

  /** A rule may fire exactly when the full cooldown has passed since the oldest record of it that is left. */
  lemma {:induction false} CooledIff(log: seq<Trigger>, r: Rule, now: Instant)
    requires SortedUpTo(log, now)
    ensures Cooled(log, r, now) <==>
            forall i :: 0 <= i < |log| && log[i].name == r.name && (forall k :: 0 <= k < i ==> log[k].name != r.name)
                        ==> now - log[i].time >= r.cooldownSecs as real
  {
    OldestIsFirst(log, r.name);
    if Oldest(log, r.name).Some? {
      FloorAtLeast(now - Oldest(log, r.name).value, r.cooldownSecs);
    }
  }

  lemma {:induction false} OldestIsFirst(log: seq<Trigger>, name: string)
    ensures match Oldest(log, name)
            case None => forall i :: 0 <= i < |log| ==> log[i].name != name
            case Some(time) =>
              exists i :: 0 <= i < |log| && log[i] == Trigger(name, time)
                          && forall k :: 0 <= k < i ==> log[k].name != name
  {
    if log != [] && log[0].name != name {
      OldestIsFirst(log[1..], name);
      if Oldest(log[1..], name).Some? {
        var i :| 0 <= i < |log[1..]| && log[1..][i] == Trigger(name, Oldest(log, name).value)
                 && forall k :: 0 <= k < i ==> log[1..][k].name != name;
        assert log[i + 1] == Trigger(name, Oldest(log, name).value);
        assert forall k :: 0 <= k < i + 1 ==> k == 0 || log[k] == log[1..][k - 1];
      }
    }
  }

  // ---- The log is a window on all firings ----

  lemma {:induction false} LogAfterIsWindow(rules: seq<Rule>, log: seq<Trigger>, s: NetworkStatus, now: Instant)
    requires |log| <= LOG_LIMIT
    ensures LogAfter(rules, log, s, now) == Suffix(log + Records(Fired(rules, log, s, now), now), LOG_LIMIT)
    decreases |rules|
  {
    if rules == [] {
      assert log + [] == log;
    } else if Fires(log, rules[0], s, now) {
      var record, next := Trigger(rules[0].name, now), Logged(log, rules[0].name, now);
      var later := Fired(rules[1..], next, s, now);
      LogAfterIsWindow(rules[1..], next, s, now);
      RecordsCons(rules[0], later, now);
      assert log + ([record] + Records(later, now)) == log + [record] + Records(later, now);
      SuffixConcat(log + [record], Records(later, now), LOG_LIMIT);
    } else {
      LogAfterIsWindow(rules[1..], log, s, now);
    }
  }

  /** The records of all firings in the first `n` rounds. */
  function AllRecords(log: seq<Trigger>, rounds: seq<Round>, n: nat): seq<Trigger>
    requires n <= |rounds|
  {
    if n == 0 then []
    else
      var r := rounds[n - 1];
      AllRecords(log, rounds, n - 1) + Records(Fired(r.rules, LogAt(log, rounds, n - 1), r.status, r.now), r.now)
  }

  lemma {:induction false} LogAtIsWindow(log: seq<Trigger>, rounds: seq<Round>, n: nat)
    requires n <= |rounds| && |log| <= LOG_LIMIT
    ensures LogAt(log, rounds, n) == Suffix(log + AllRecords(log, rounds, n), 1000)
  {
    if n == 0 {
      assert log + [] == log;
    } else {
      var r, before, all := rounds[n - 1], LogAt(log, rounds, n - 1), AllRecords(log, rounds, n - 1);
      var records := Records(Fired(r.rules, before, r.status, r.now), r.now);
      LogAtIsWindow(log, rounds, n - 1);
      LogAfterIsWindow(r.rules, before, r.status, r.now);
      SuffixConcat(log + all, records, LOG_LIMIT);
      assert log + (all + records) == log + all + records;
    }
  }

  /** The log that rule `i` of round `n` is checked against. */
  function LogAtCheck(log: seq<Trigger>, rounds: seq<Round>, n: nat, i: nat): seq<Trigger>
    requires n < |rounds| && i <= |rounds[n].rules|
  {
    LogAfter(rounds[n].rules[..i], LogAt(log, rounds, n), rounds[n].status, rounds[n].now)
  }

  /** The records of all firings before that check. */
  function RecordsBefore(log: seq<Trigger>, rounds: seq<Round>, n: nat, i: nat): seq<Trigger>
    requires n < |rounds| && i <= |rounds[n].rules|
  {
    var r := rounds[n];
    AllRecords(log, rounds, n) + Records(Fired(r.rules[..i], LogAt(log, rounds, n), r.status, r.now), r.now)
  }

  lemma {:induction false} LogAtCheckIsWindow(log: seq<Trigger>, rounds: seq<Round>, n: nat, i: nat)
    requires n < |rounds| && i <= |rounds[n].rules| && |log| <= LOG_LIMIT
    ensures LogAtCheck(log, rounds, n, i) == Suffix(log + RecordsBefore(log, rounds, n, i), LOG_LIMIT)
  {
    var r, before, all := rounds[n], LogAt(log, rounds, n), AllRecords(log, rounds, n);
    var records := Records(Fired(r.rules[..i], before, r.status, r.now), r.now);
    LogAtIsWindow(log, rounds, n);
    LogAfterIsWindow(r.rules[..i], before, r.status, r.now);
    SuffixConcat(log + all, records, LOG_LIMIT);
    assert log + (all + records) == log + all + records;
  }

  /** Whether rule `i` is among those that fire is decided by the log its predecessors left. */
  lemma {:induction false} FiredAtCheck(rules: seq<Rule>, log: seq<Trigger>, s: NetworkStatus, now: Instant, i: nat)
    requires i < |rules|
    ensures
      var before := LogAfter(rules[..i], log, s, now);
      Fired(rules, log, s, now)
      == Fired(rules[..i], log, s, now)
         + (if Fires(before, rules[i], s, now) then [rules[i]] else [])
         + Fired(rules[i + 1..], LogAfter(rules[..i + 1], log, s, now), s, now)
    decreases |rules|
  {
    var next := if Fires(log, rules[0], s, now) then Logged(log, rules[0].name, now) else log;
    if i == 0 {
      assert rules[..1] == [rules[0]] && rules[..1][1..] == [];
    } else {
      FiredAtCheck(rules[1..], next, s, now, i - 1);
      assert rules[1..][..i - 1] == rules[..i][1..] && rules[1..][..i] == rules[..i + 1][1..];
      assert rules[1..][i..] == rules[i + 1..];
    }
  }

  // ---- The cooldown runs out once ----

  lemma {:induction false} OldestAtPosition(log: seq<Trigger>, name: string, p: nat)
    requires p < |log| && log[p].name == name && forall k :: 0 <= k < p ==> log[k].name != name
    ensures Oldest(log, name) == Some(log[p].time)
  {
    if p > 0 {
      OldestAtPosition(log[1..], name, p - 1);
    }
  }

  lemma {:induction false} OldestAfterDrop(log: seq<Trigger>, name: string, gone: nat)
    requires gone <= |log| && forall k :: 0 <= k < gone ==> log[k].name != name
    ensures Oldest(log[gone..], name) == Oldest(log, name)
  {
    if gone > 0 {
      OldestAfterDrop(log[1..], name, gone - 1);
      assert log[1..][gone - 1..] == log[gone..];
    } else {
      assert log[0..] == log;
    }
  }

  lemma {:induction false} FirstInWindow(log: seq<Trigger>, records: seq<Trigger>, name: string, p: nat)
    requires p < |log| && log[p].name == name && forall k :: 0 <= k < p ==> log[k].name != name
    requires |log| + |records| <= LOG_LIMIT + p
    ensures Oldest(Suffix(log + records, LOG_LIMIT), name) == Some(log[p].time)
  {
    var all := log + records;
    OldestAtPosition(all, name, p);
    OldestAfterDrop(all, name, if |all| > LOG_LIMIT then |all| - LOG_LIMIT else 0);
    assert all[0..] == all;
  }

  /** As long as a rule's first record has not been pushed out of the log, later firings do not renew its cooldown:
      at any check it fires if and only if it is enabled and matches and the cooldown has passed since that first
      record. Position `p` is pushed out once more than `p` records above the limit have been logged in all. */
  lemma {:induction false} CooldownIsNotRenewed(log: seq<Trigger>, rounds: seq<Round>, n: nat, i: nat, p: nat)
    requires n < |rounds| && i < |rounds[n].rules| && p < |log| <= LOG_LIMIT
    requires log[p].name == rounds[n].rules[i].name
    requires forall k :: 0 <= k < p ==> log[k].name != rounds[n].rules[i].name
    requires |log| + |RecordsBefore(log, rounds, n, i)| <= LOG_LIMIT + p
    ensures
      var round, r := rounds[n], rounds[n].rules[i];
      Fires(LogAtCheck(log, rounds, n, i), r, round.status, round.now) <==>
      r.enabled && r.condition.Evaluate(round.status) && ElapsedSecs(round.now, log[p].time) >= r.cooldownSecs
  {
    LogAtCheckIsWindow(log, rounds, n, i);
    FirstInWindow(log, RecordsBefore(log, rounds, n, i), rounds[n].rules[i].name, p);
  }

  // ---- When firings keep their distance ----

  predicate IsRecord(log: seq<Trigger>, r: Rule, i: nat) {
    i < |log| && log[i].name == r.name
  }

  /** The whole cooldown has passed since every record of the rule. */
  predicate Distant(log: seq<Trigger>, r: Rule, now: Instant) {
    forall i :: 0 <= i < |log| && IsRecord(log, r, i) ==> now - log[i].time >= r.cooldownSecs as real
  }

  /** All records of the rule carry one time. */
  predicate OneTime(log: seq<Trigger>, r: Rule) {
    forall i, j :: 0 <= i < j < |log| && IsRecord(log, r, i) && IsRecord(log, r, j) ==> log[i].time == log[j].time
  }

  /** The rule's last record is still in the log after `others` more records. */
  predicate Outlasts(log: seq<Trigger>, r: Rule, others: nat) {
    exists i :: 0 <= i < |log| && IsRecord(log, r, i) && |log| + others <= LOG_LIMIT + i
  }

  ghost predicate CanFire(r: Rule) {
    r.enabled && exists s :: r.condition.Evaluate(s)
  }

  /** Later rounds, up to a check of the rule before which it has not fired and others have at most `others` times. */
  predicate LeadsTo(log: seq<Trigger>, r: Rule, end: Instant, others: nat, more: seq<Round>, m: nat, i: nat) {
    && MonotoneClock(more) && (forall k :: 0 <= k < |more| ==> end <= more[k].now)
    && m < |more| && i < |more[m].rules| && more[m].rules[i] == r
    && |RecordsBefore(log, more, m, i)| <= others
    && forall t :: t in RecordsBefore(log, more, m, i) ==> t.name != r.name
  }

  /** However the run goes on, the rule does not fire less than a cooldown after any of its records in the log. */
  ghost predicate KeepsDistance(log: seq<Trigger>, r: Rule, end: Instant, others: nat) {
    forall more: seq<Round>, m: nat, i: nat :: LeadsTo(log, r, end, others, more, m, i) ==>
      Fires(LogAtCheck(log, more, m, i), r, more[m].status, more[m].now) ==> Distant(log, r, more[m].now)
  }

  lemma {:induction false} OldestIsRecorded(log: seq<Trigger>, r: Rule, i: nat)
    requires IsRecord(log, r, i)
    ensures Oldest(log, r.name).Some?
    ensures exists k :: 0 <= k <= i && IsRecord(log, r, k) && Oldest(log, r.name) == Some(log[k].time)
  {
    OldestIsFirst(log, r.name);
  }

  lemma {:induction false} FiringIsCooled(log: seq<Trigger>, r: Rule, time: Instant, s: NetworkStatus, now: Instant)
    requires Oldest(log, r.name) == Some(time) && time <= now && Fires(log, r, s, now)
    ensures now - time >= r.cooldownSecs as real
  {
    FloorAtLeast(now - time, r.cooldownSecs);
  }

  lemma {:induction false} OldestInWindow(log: seq<Trigger>, records: seq<Trigger>, r: Rule, last: nat)
    requires OneTime(log, r) && IsRecord(log, r, last) && |log| + |records| <= LOG_LIMIT + last
    requires forall t :: t in records ==> t.name != r.name
    ensures Oldest(Suffix(log + records, LOG_LIMIT), r.name) == Some(log[last].time)
  {
    var all, left := log + records, Suffix(log + records, LOG_LIMIT);
    var gone := |all| - |left|;
    assert left[last - gone] == log[last];
    OldestIsRecorded(left, r, last - gone);
    var first :| 0 <= first <= last - gone && IsRecord(left, r, first)
                 && Oldest(left, r.name) == Some(left[first].time);
    assert left[first] == log[first + gone];
    assert IsRecord(log, r, first + gone);
  }

  /** A record that has not been pushed out before the check, and all others of one time with it, hold the rule back. */
  lemma {:induction false} OutlastingHoldsBack(log: seq<Trigger>, r: Rule, end: Instant, others: nat,
                                               more: seq<Round>, m: nat, i: nat)
    requires SortedUpTo(log, end) && |log| <= LOG_LIMIT && OneTime(log, r) && Outlasts(log, r, others)
    requires LeadsTo(log, r, end, others, more, m, i)
    requires Fires(LogAtCheck(log, more, m, i), r, more[m].status, more[m].now)
    ensures Distant(log, r, more[m].now)
  {
    var last :| 0 <= last < |log| && IsRecord(log, r, last) && |log| + others <= LOG_LIMIT + last;
    LogAtCheckIsWindow(log, more, m, i);
    OldestInWindow(log, RecordsBefore(log, more, m, i), r, last);
    FiringIsCooled(LogAtCheck(log, more, m, i), r, log[last].time, more[m].status, more[m].now);
  }

  lemma {:induction false} DistantStays(log: seq<Trigger>, r: Rule, end: Instant, now: Instant)
    requires Distant(log, r, end) && end <= now
    ensures Distant(log, r, now)
  {
  }

  lemma {:induction false} YoungerRecord(log: seq<Trigger>, r: Rule, end: Instant) returns (young: nat)
    requires SortedUpTo(log, end) && !Distant(log, r, end) && !OneTime(log, r)
    ensures IsRecord(log, r, young) && end - log[young].time < r.cooldownSecs as real
    ensures Oldest(log, r.name).Some? && Oldest(log, r.name).value < log[young].time
  {
    var i, j :| 0 <= i < j < |log| && IsRecord(log, r, i) && IsRecord(log, r, j) && log[i].time != log[j].time;
    var k :| 0 <= k < |log| && IsRecord(log, r, k) && end - log[k].time < r.cooldownSecs as real;
    young := if log[j].time >= log[k].time then j else k;
    OldestIsRecorded(log, r, i);
  }

  /** The first way to come too close: a record younger than the oldest does not count. */
  lemma {:induction false} YoungerRecordIsIgnored(log: seq<Trigger>, r: Rule, end: Instant, others: nat,
                                                  s: NetworkStatus)
    requires SortedUpTo(log, end) && !Distant(log, r, end) && !OneTime(log, r)
    requires r.enabled && r.condition.Evaluate(s)
    ensures !KeepsDistance(log, r, end, others)
  {
    var young := YoungerRecord(log, r, end);
    var cooled := Oldest(log, r.name).value + r.cooldownSecs as real;
    var now := if end >= cooled then end else cooled;
    FloorAtLeast(now - Oldest(log, r.name).value, r.cooldownSecs);
    assert Fires(log, r, s, now);
    var more := [Round([r], s, now)];
    assert LogAtCheck(log, more, 0, 0) == log;
    assert LeadsTo(log, r, end, others, more, 0, 0);
    assert !Distant(log, r, now);
  }

  // The second way: other rules push the records out.

  function Copies(q: Rule, n: nat): (qs: seq<Rule>)
    ensures |qs| == n
  {
    if n == 0 then [] else [q] + Copies(q, n - 1)
  }

  /** A rule without a cooldown that always matches and is not `r`. */
  function Noise(r: Rule): (q: Rule)
    ensures q.name != r.name
  {
    Rule(r.name + "*", "", true, And([]), [], 0)
  }

  lemma {:induction false} NoiseFires(log: seq<Trigger>, r: Rule, s: NetworkStatus, now: Instant)
    ensures Fires(log, Noise(r), s, now)
  {
  }

  lemma {:induction false} CopiesFire(r: Rule, n: nat, log: seq<Trigger>, s: NetworkStatus, now: Instant)
    ensures Fired(Copies(Noise(r), n), log, s, now) == Copies(Noise(r), n)
  {
    if n > 0 {
      NoiseFires(log, r, s, now);
      CopiesFire(r, n - 1, Logged(log, Noise(r).name, now), s, now);
    }
  }

  lemma {:induction false} CopiesAreNoise(r: Rule, n: nat, now: Instant)
    ensures forall t :: t in Records(Copies(Noise(r), n), now) ==> t.name != r.name
  {
    if n > 0 {
      CopiesAreNoise(r, n - 1, now);
      RecordsCons(Noise(r), Copies(Noise(r), n - 1), now);
    }
  }

  /** One round in which `others` other firings come before the rule. */
  function NoisyRound(r: Rule, others: nat, s: NetworkStatus, now: Instant): Round {
    Round(Copies(Noise(r), others) + [r], s, now)
  }

  lemma {:induction false} NoiseComesFirst(log: seq<Trigger>, r: Rule, others: nat, s: NetworkStatus, now: Instant)
    requires |log| <= LOG_LIMIT
    ensures
      var more, records := [NoisyRound(r, others, s, now)], Records(Copies(Noise(r), others), now);
      && RecordsBefore(log, more, 0, others) == records
      && LogAtCheck(log, more, 0, others) == Suffix(log + records, LOG_LIMIT)
      && LeadsTo(log, r, now, others, more, 0, others)
  {
    var more := [NoisyRound(r, others, s, now)];
    assert more[0].rules[..others] == Copies(Noise(r), others);
    CopiesFire(r, others, log, s, now);
    CopiesAreNoise(r, others, now);
    LogAtCheckIsWindow(log, more, 0, others);
  }

  lemma {:induction false} PushedOut(log: seq<Trigger>, records: seq<Trigger>, r: Rule)
    requires !Outlasts(log, r, |records|) && forall t :: t in records ==> t.name != r.name
    ensures Oldest(Suffix(log + records, LOG_LIMIT), r.name) == None
  {
    var all, left := log + records, Suffix(log + records, LOG_LIMIT);
    var gone := |all| - |left|;
    forall t | t in left
      ensures t.name != r.name
    {
      var i :| 0 <= i < |left| && left[i] == t;
      assert t == all[i + gone];
      if i + gone < |log| {
        assert !IsRecord(log, r, i + gone);
      } else {
        assert t == records[i + gone - |log|];
      }
    }
    OldestAbsent(left, r.name);
  }

  lemma {:induction false} PushedOutIsForgotten(log: seq<Trigger>, r: Rule, others: nat, s: NetworkStatus, now: Instant)
    requires |log| <= LOG_LIMIT && !Outlasts(log, r, others) && r.enabled && r.condition.Evaluate(s)
    ensures Fires(LogAtCheck(log, [NoisyRound(r, others, s, now)], 0, others), r, s, now)
  {
    NoiseComesFirst(log, r, others, s, now);
    CopiesAreNoise(r, others, now);
    PushedOut(log, Records(Copies(Noise(r), others), now), r);
  }

  lemma {:induction false} PushedOutComesTooClose(log: seq<Trigger>, r: Rule, end: Instant, others: nat,
                                                  s: NetworkStatus)
    requires |log| <= LOG_LIMIT && !Distant(log, r, end) && !Outlasts(log, r, others)
    requires r.enabled && r.condition.Evaluate(s)
    ensures !KeepsDistance(log, r, end, others)
  {
    NoiseComesFirst(log, r, others, s, end);
    PushedOutIsForgotten(log, r, others, s, end);
    assert LeadsTo(log, r, end, others, [NoisyRound(r, others, s, end)], 0, others);
  }

  lemma {:induction false} DistanceIff(log: seq<Trigger>, r: Rule, end: Instant, others: nat)
    requires SortedUpTo(log, end) && |log| <= LOG_LIMIT
    ensures KeepsDistance(log, r, end, others) <==>
            !CanFire(r) || Distant(log, r, end) || (OneTime(log, r) && Outlasts(log, r, others))
  {
    if CanFire(r) && !Distant(log, r, end) && !(OneTime(log, r) && Outlasts(log, r, others)) {
      var s :| r.condition.Evaluate(s);
      if OneTime(log, r) {
        PushedOutComesTooClose(log, r, end, others, s);
      } else {
        YoungerRecordIsIgnored(log, r, end, others, s);
      }
    } else {
      forall more: seq<Round>, m: nat, i: nat | LeadsTo(log, r, end, others, more, m, i)
                          && Fires(LogAtCheck(log, more, m, i), r, more[m].status, more[m].now)
        ensures Distant(log, r, more[m].now)
      {
        if Distant(log, r, end) {
          DistantStays(log, r, end, more[m].now);
        } else {
          OutlastingHoldsBack(log, r, end, others, more, m, i);
        }
      }
    }
  }

  /** After any rounds under a monotone clock, and however the run goes on with at most `others` firings of other rules,
      the next firing of a rule is sure to be a cooldown away from all its firings in the log if and only if it can
      never fire, or all of those are a cooldown old already, or all of those came at one time and so many other
      firings cannot push the last of them out of the log. */
  lemma {:induction false} FiringsKeepDistanceIff(rounds: seq<Round>, n: nat, r: Rule, others: nat)
    requires 0 < n <= |rounds| && MonotoneClock(rounds)
    ensures
      var log, end := LogAt([], rounds, n), rounds[n - 1].now;
      KeepsDistance(log, r, end, others) <==>
      !CanFire(r) || Distant(log, r, end) || (OneTime(log, r) && Outlasts(log, r, others))
  {
    LogStaysSorted(rounds, n);
    DistanceIff(LogAt([], rounds, n), r, rounds[n - 1].now, others);
  }

  lemma {:induction false} FiresAlone(r: Rule, log: seq<Trigger>, s: NetworkStatus, now: Instant)
    requires Fires(log, r, s, now) && |log| < LOG_LIMIT
    ensures LogAfter([r], log, s, now) == log + [Trigger(r.name, now)]
  {
    assert [r][1..] == [];
  }

  /** A cooldown of one second and a rule that always matches: its third firing comes half a second after the second. */
  lemma {:induction false} FiringsComeTooClose()
    ensures
      var rule := Rule("always", "", true, And([]), [], 1);
      var status := NetworkStatus(Online, 0.0, 0.0, true, true, []);
      var rounds := [Round([rule], status, 0.0), Round([rule], status, 1.0), Round([rule], status, 1.5)];
      LogAt([], rounds, 3) == [Trigger("always", 0.0), Trigger("always", 1.0), Trigger("always", 1.5)]
  {
    var rule := Rule("always", "", true, And([]), [], 1);
    var status := NetworkStatus(Online, 0.0, 0.0, true, true, []);
    var rounds := [Round([rule], status, 0.0), Round([rule], status, 1.0), Round([rule], status, 1.5)];
    var first, second := Trigger("always", 0.0), Trigger("always", 1.0);
    FiresAlone(rule, [], status, 0.0);
    assert LogAt([], rounds, 1) == [first];
    FiresAlone(rule, [first], status, 1.0);
    assert LogAt([], rounds, 2) == [first, second];
    FiresAlone(rule, [first, second], status, 1.5);
  }

  /** A rule that fired at 0 with a cooldown of one second fires again at half a second, after a thousand firings of
      another rule have pushed its record out. */
  lemma {:induction false} PushOutShortensCooldown()
    ensures
      var rule := Rule("always", "", true, And([]), [], 1);
      var status := NetworkStatus(Online, 0.0, 0.0, true, true, []);
      var rounds := [Round([rule], status, 0.0), NoisyRound(rule, LOG_LIMIT, status, 0.5)];
      && LogAt([], rounds, 1) == [Trigger("always", 0.0)]
      && Fires(LogAtCheck([], rounds, 1, LOG_LIMIT), rule, status, 0.5)
  {
    var rule := Rule("always", "", true, And([]), [], 1);
    var status := NetworkStatus(Online, 0.0, 0.0, true, true, []);
    var first, noisy := Round([rule], status, 0.0), NoisyRound(rule, LOG_LIMIT, status, 0.5);
    FiresAlone(rule, [], status, 0.0);
    assert LogAt([], [first, noisy], 1) == [Trigger("always", 0.0)];
    PushedOutIsForgotten([Trigger("always", 0.0)], rule, LOG_LIMIT, status, 0.5);
    assert LogAtCheck([], [first, noisy], 1, LOG_LIMIT)
        == LogAtCheck([Trigger("always", 0.0)], [noisy], 0, LOG_LIMIT);
  }
}
