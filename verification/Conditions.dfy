/** What conditions mean, told from the fields of the network status, and what the default rules do. */
module Conditions {
  import opened Collections
  import opened Clock
  import opened Network
  import opened Rules

  /** Condition `c` has the value `wanted`, each value told on its own. */
  ghost predicate Reads(c: Condition, s: NetworkStatus, wanted: bool)
    decreases c
  {
    match c
    case StatusIs(expected) => if wanted then s.status == expected else s.status != expected
    case LatencyAbove(threshold) => if wanted then threshold < s.latencyMs else s.latencyMs <= threshold
    case LatencyBelow(threshold) => if wanted then s.latencyMs < threshold else threshold <= s.latencyMs
    case PacketLossAbove(threshold) => if wanted then threshold < s.packetLossPct else s.packetLossPct <= threshold
    case PacketLossBelow(threshold) => if wanted then s.packetLossPct < threshold else threshold <= s.packetLossPct
    case DnsHealthy(healthy) => if wanted then s.dnsHealthy == healthy else s.dnsHealthy == !healthy
    case GatewayReachable(reachable) =>
      if wanted then s.gatewayReachable == reachable else s.gatewayReachable == !reachable
    case InterfaceUp(name) =>
      if wanted then InterfaceInfo(name, true) in s.interfaces
      else forall i :: i in s.interfaces && i.name == name ==> !i.isUp
    case And(conditions) =>
      if wanted then forall k :: 0 <= k < |conditions| ==> Reads(conditions[k], s, true)
      else exists k :: 0 <= k < |conditions| && Reads(conditions[k], s, false)
    case Or(conditions) =>
      if wanted then exists k :: 0 <= k < |conditions| && Reads(conditions[k], s, true)
      else forall k :: 0 <= k < |conditions| ==> Reads(conditions[k], s, false)
    case Not(condition) => Reads(condition, s, !wanted)
  }

  lemma {:induction false} InterfaceIsUpIff(name: string, s: NetworkStatus)
    ensures InterfaceUp(name).Evaluate(s) <==> InterfaceInfo(name, true) in s.interfaces
    ensures InterfaceUp(name).Evaluate(s) <==> !forall i :: i in s.interfaces && i.name == name ==> !i.isUp
  {
    if i :| i in s.interfaces && i.name == name && i.isUp {
      assert i == InterfaceInfo(name, true);
    }
  }

  lemma {:induction false} AndOrByParts(conditions: seq<Condition>, s: NetworkStatus)
    ensures And(conditions).Evaluate(s) <==> forall k :: 0 <= k < |conditions| ==> conditions[k].Evaluate(s)
    ensures Or(conditions).Evaluate(s) <==> exists k :: 0 <= k < |conditions| && conditions[k].Evaluate(s)
  {
    if k :| 0 <= k < |conditions| && !conditions[k].Evaluate(s) {
      assert conditions[k] in conditions;
    }
    if k :| 0 <= k < |conditions| && conditions[k].Evaluate(s) {
      assert conditions[k] in conditions;
    }
  }

  /** Every condition evaluates to the value it reads, and to no other. */
  lemma {:induction false} EvaluatesAsRead(c: Condition, s: NetworkStatus, wanted: bool)
    ensures c.Evaluate(s) == wanted <==> Reads(c, s, wanted)
    decreases c
  {
    match c
    case InterfaceUp(name) => InterfaceIsUpIff(name, s);
    case And(conditions) =>
      AndOrByParts(conditions, s);
      forall k | 0 <= k < |conditions|
        ensures conditions[k].Evaluate(s) == wanted <==> Reads(conditions[k], s, wanted)
      {
        EvaluatesAsRead(conditions[k], s, wanted);
      }
    case Or(conditions) =>
      AndOrByParts(conditions, s);
      forall k | 0 <= k < |conditions|
        ensures conditions[k].Evaluate(s) == wanted <==> Reads(conditions[k], s, wanted)
      {
        EvaluatesAsRead(conditions[k], s, wanted);
      }
    case Not(condition) => EvaluatesAsRead(condition, s, !wanted);
    case _ =>
  }

  /** Above and below exclude each other, and neither holds at the threshold. */
  lemma {:induction false} AboveExcludesBelow(threshold: real, s: NetworkStatus)
    ensures !(LatencyAbove(threshold).Evaluate(s) && LatencyBelow(threshold).Evaluate(s))
    ensures !(PacketLossAbove(threshold).Evaluate(s) && PacketLossBelow(threshold).Evaluate(s))
    ensures s.latencyMs == threshold <==>
            !LatencyAbove(threshold).Evaluate(s) && !LatencyBelow(threshold).Evaluate(s)
    ensures s.packetLossPct == threshold <==>
            !PacketLossAbove(threshold).Evaluate(s) && !PacketLossBelow(threshold).Evaluate(s)
  {
  }

  // ---- The default rules ----

  function NamesOf(evaluations: seq<RuleEvaluation>): seq<string> {
    seq(|evaluations|, i requires 0 <= i < |evaluations| => evaluations[i].ruleName)
  }

  function Named(name: string, fires: bool): seq<string> {
    if fires then [name] else []
  }

  /** The names, in rule order, that a fresh engine with the default rules returns for a network status. */
  function DefaultNames(s: NetworkStatus): seq<string> {
    Named("high-latency", s.latencyMs > 500.0)
    + (Named("high-packet-loss", s.packetLossPct > 30.0)
       + (Named("offline-queue", s.status == Offline)
          + (Named("recovered", s.status == Online && s.packetLossPct < 10.0)
             + (Named("dns-failure", !s.dnsHealthy)
                + Named("degraded-notify", s.status == Degraded)))))
  }

  lemma {:induction false} AndOfTwo(a: Condition, b: Condition, s: NetworkStatus)
    ensures And([a, b]).Evaluate(s) <==> a.Evaluate(s) && b.Evaluate(s)
  {
    AndOrByParts([a, b], s);
    assert [a, b][0] == a && [a, b][1] == b;
  }

  lemma {:induction false} FreshFires(r: Rule, s: NetworkStatus, now: Instant)
    requires r.enabled
    ensures Fires([], r, s, now) <==> r.condition.Evaluate(s)
  {
  }

  lemma {:induction false} DefaultsDiffer()
    ensures DistinctNames(DEFAULT_RULES) && |DEFAULT_RULES| == 6
  {
  }

  lemma {:induction false} NamesOfCons(r: Rule, rest: seq<Rule>, p: Rule -> bool)
    ensures NamesOf(EvaluationsOf(Filter([r] + rest, p)))
            == Named(r.name, p(r)) + NamesOf(EvaluationsOf(Filter(rest, p)))
  {
    assert ([r] + rest)[1..] == rest;
  }

  lemma {:induction false} NamesOfThree(a: Rule, b: Rule, c: Rule, rest: seq<Rule>, p: Rule -> bool)
    ensures NamesOf(EvaluationsOf(Filter([a, b, c] + rest, p)))
            == Named(a.name, p(a)) + (Named(b.name, p(b)) + (Named(c.name, p(c))
               + NamesOf(EvaluationsOf(Filter(rest, p)))))
  {
    assert [a, b, c] + rest == [a] + ([b] + ([c] + rest));
    NamesOfCons(a, [b] + ([c] + rest), p);
    NamesOfCons(b, [c] + rest, p);
    NamesOfCons(c, rest, p);
  }

  lemma {:induction false} NamesOfSix(a: Rule, b: Rule, c: Rule, d: Rule, e: Rule, f: Rule, p: Rule -> bool)
    ensures NamesOf(EvaluationsOf(Filter([a, b, c, d, e, f], p)))
            == Named(a.name, p(a)) + (Named(b.name, p(b)) + (Named(c.name, p(c))
               + (Named(d.name, p(d)) + (Named(e.name, p(e)) + Named(f.name, p(f))))))
  {
    NamesOfThree(a, b, c, [d, e, f], p);
    NamesOfThree(d, e, f, [], p);
    assert [a, b, c] + [d, e, f] == [a, b, c, d, e, f] && [d, e, f] + [] == [d, e, f];
    assert Named(f.name, p(f)) + [] == Named(f.name, p(f));
  }

  /** Which of the six default rules a fresh engine returns, for every network status. */
  lemma {:induction false} DefaultRulesFire(s: NetworkStatus, now: Instant)
    ensures NamesOf(EvaluationsOf(Fired(DEFAULT_RULES, [], s, now))) == DefaultNames(s)
  {
    DefaultsDiffer();
    EvaluationReadsStartLog(DEFAULT_RULES, [], s, now);
    NamesOfSix(HIGH_LATENCY, HIGH_PACKET_LOSS, OFFLINE_QUEUE, RECOVERED, DNS_FAILURE, DEGRADED_NOTIFY,
               FiresFrom([], s, now));
    FreshFires(HIGH_LATENCY, s, now);
    FreshFires(HIGH_PACKET_LOSS, s, now);
    FreshFires(OFFLINE_QUEUE, s, now);
    FreshFires(RECOVERED, s, now);
    FreshFires(DNS_FAILURE, s, now);
    FreshFires(DEGRADED_NOTIFY, s, now);
    AndOfTwo(StatusIs(Online), PacketLossBelow(10.0), s);
  }

  lemma {:induction false} OldestOfRecords(rules: seq<Rule>, t: Instant, name: string)
    ensures Oldest(Records(rules, t), name) == if exists r :: r in rules && r.name == name then Some(t) else None
  {
    if rules != [] {
      OldestOfRecords(rules[1..], t, name);
      RecordsCons(rules[0], rules[1..], t);
      assert [rules[0]] + rules[1..] == rules;
      assert Records(rules, t)[1..] == Records(rules[1..], t);
    }
  }

  /** After a first evaluation a rule that fired rests for its cooldown, and one that did not does not rest. */
  lemma {:induction false} FiredRulesRest(rules: seq<Rule>, s: NetworkStatus, t: Instant, s': NetworkStatus,
                                          now: Instant, i: nat)
    requires i < |rules| <= LOG_LIMIT && DistinctNames(rules) && t <= now && rules[i].enabled
    ensures
      var r := rules[i];
      Fires(LogAfter(rules, [], s, t), r, s', now)
      <==> r.condition.Evaluate(s') && (r.condition.Evaluate(s) ==> now - t >= r.cooldownSecs as real)
  {
    var r, fired := rules[i], Fired(rules, [], s, t);
    EvaluationReadsStartLog(rules, [], s, t);
    FilterHas(rules, FiresFrom([], s, t));
    assert [] + Records(fired, t) == Records(fired, t);
    OldestOfRecords(fired, t, r.name);
    FreshFires(r, s, t);
    forall q | q in fired && q.name == r.name
      ensures q == r
    {
      var k :| 0 <= k < |rules| && rules[k] == q;
    }
    FloorAtLeast(now - t, r.cooldownSecs);
  }

  /** The default rules rest for half a minute. */
  lemma {:induction false} DefaultsRest(s: NetworkStatus, t: Instant, s': NetworkStatus, now: Instant, i: nat)
    requires i < |DEFAULT_RULES| && t <= now
    ensures
      var r := DEFAULT_RULES[i];
      Fires(LogAfter(DEFAULT_RULES, [], s, t), r, s', now)
      <==> r.condition.Evaluate(s') && (r.condition.Evaluate(s) ==> now - t >= 30.0)
  {
    DefaultsDiffer();
    FiredRulesRest(DEFAULT_RULES, s, t, s', now, i);
  }

  /** Each evaluation returned names a rule that fired, in the same order, and lists all its actions. */
  lemma {:induction false} EvaluationsNameRules(rules: seq<Rule>)
    ensures |EvaluationsOf(rules)| == |rules|
    ensures forall i :: 0 <= i < |rules| ==>
              EvaluationsOf(rules)[i] == RuleEvaluation(rules[i].name, true, rules[i].actions)
  {
  }
}
