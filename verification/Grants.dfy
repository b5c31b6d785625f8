/** When the retry engine opens its circuit, grants a retry and for how long, told from the calls alone. */
module Grants {
  import opened Collections
  import opened Clock
  import opened RetryEngine
  import opened CircuitBreaker

  function ThresholdOf(p: RetryPolicy): nat {
    match p
    case Smart(_, _, _, threshold, _) => threshold
    case _ => 5
  }

  function CooldownOf(p: RetryPolicy): Duration {
    match p
    case Smart(_, _, _, _, cooldown) => cooldown
    case _ => 30.0
  }

  // ---- Openings ----

  /** A failure at least a cooldown after event `k` and before event `n`. */
  predicate LateFailure(es: seq<Event>, p: RetryPolicy, k: nat, n: nat)
    requires k < n <= |es|
  {
    exists j :: k < j < n && es[j].call.Failure? && Elapsed(es[k].now, es[j].now) >= CooldownOf(p)
  }

  /** Event `n` opens the circuit: it is the retryable failure that reaches the threshold, or the first failure after
      one that came a cooldown after the last opening. */
  predicate IsOpening(es: seq<Event>, p: RetryPolicy, n: nat)
    requires n < |es|
    decreases n, 1
  {
    && es[n].call.Failure?
    && if RetryableSinceSuccess(es, n) < ThresholdOf(p) then
         es[n].call.class_ != Permanent && RetryableSinceSuccess(es, n) + 1 == ThresholdOf(p)
       else
         match LastOpening(es, p, n)
         case None => false
         case Some(k) => LateFailure(es, p, k, n)
  }

  function LastOpening(es: seq<Event>, p: RetryPolicy, n: nat): (last: Option<nat>)
    requires n <= |es|
    ensures last.Some? ==> last.value < n
    decreases n, 0
  {
    if n == 0 then None
    else if IsOpening(es, p, n - 1) then Some(n - 1)
    else LastOpening(es, p, n - 1)
  }

  /** What the events say about the circuit. */
  predicate Explained(s: State, es: seq<Event>, p: RetryPolicy, n: nat)
    requires n <= |es|
  {
    && s.policy == p && s.failures == RetryableSinceSuccess(es, n)
    && if RetryableSinceSuccess(es, n) < ThresholdOf(p) then s.circuit == Closed
       else
         match LastOpening(es, p, n)
         case None => false
         case Some(k) => s.circuit == if LateFailure(es, p, k, n) then HalfOpen else Open(es[k].now)
  }

  lemma {:induction false} LateFailureNext(es: seq<Event>, p: RetryPolicy, k: nat, n: nat)
    requires k < n < |es|
    ensures LateFailure(es, p, k, n + 1)
            <==> LateFailure(es, p, k, n)
                 || (es[n].call.Failure? && Elapsed(es[k].now, es[n].now) >= CooldownOf(p))
  {
  }

  lemma {:induction false} NoLateFailureYet(es: seq<Event>, p: RetryPolicy, k: nat)
    requires k < |es|
    ensures !LateFailure(es, p, k, k + 1)
  {
  }

  lemma {:induction false} ExplainedNext(s: State, es: seq<Event>, p: RetryPolicy, n: nat)
    requires n < |es| && ThresholdOf(p) >= 1 && Explained(s, es, p, n)
    ensures Explained(Step(s, es[n]), es, p, n + 1)
  {
    if IsOpening(es, p, n) {
      NoLateFailureYet(es, p, n);
    } else if LastOpening(es, p, n).Some? {
      LateFailureNext(es, p, LastOpening(es, p, n).value, n);
    }
  }

  lemma {:induction false} CircuitIsExplained(maxRetries: nat, p: RetryPolicy, es: seq<Event>, n: nat)
    requires n <= |es| && ThresholdOf(p) >= 1
    ensures Explained(At(Fresh(maxRetries, p), es, n), es, p, n)
  {
    if n > 0 {
      CircuitIsExplained(maxRetries, p, es, n - 1);
      ExplainedNext(At(Fresh(maxRetries, p), es, n - 1), es, p, n - 1);
    }
  }

  /** In every run the circuit opens at exactly the events told so. */
  lemma {:induction false} OpensIff(maxRetries: nat, p: RetryPolicy, es: seq<Event>, n: nat)
    requires n < |es| && ThresholdOf(p) >= 1
    ensures Opens(Fresh(maxRetries, p), es, n) <==> IsOpening(es, p, n)
  {
    CircuitIsExplained(maxRetries, p, es, n);
    CircuitIsExplained(maxRetries, p, es, n + 1);
    if IsOpening(es, p, n) {
      NoLateFailureYet(es, p, n);
    }
  }

  // ---- Grants ----

  /** The last opening, if failures have not been forgiven since, is a cooldown ago. */
  predicate CooledDown(es: seq<Event>, p: RetryPolicy, n: nat)
    requires n < |es|
  {
    || RetryableSinceSuccess(es, n) < ThresholdOf(p)
    || match LastOpening(es, p, n)
       case None => false
       case Some(k) => es[n].now - es[k].now >= CooldownOf(p)
  }

  /** In every run under a monotone clock a retry is granted if and only if the budget is not spent and either the
      failures since the last success are below the threshold or the last opening is a cooldown ago. */
  lemma {:induction false} GrantedIff(maxRetries: nat, p: RetryPolicy, es: seq<Event>, n: nat)
    requires n < |es| && MonotoneClock(es) && ThresholdOf(p) >= 1
    ensures Grants(At(Fresh(maxRetries, p), es, n), es[n]) <==>
            && es[n].call.NextRetry?
            && GrantsSinceReset(Fresh(maxRetries, p), es, n) < maxRetries
            && CooledDown(es, p, n)
  {
    var s := At(Fresh(maxRetries, p), es, n);
    Bookkeeping(maxRetries, p, es, n);
    CircuitIsExplained(maxRetries, p, es, n);
    match LastOpening(es, p, n)
    case None =>
    case Some(k) =>
      assert es[k].now <= es[n].now;
      if j :| k < j < n && es[j].call.Failure? && Elapsed(es[k].now, es[j].now) >= CooldownOf(p) {
        assert es[k].now <= es[j].now <= es[n].now;
      }
  }

  // ---- How long a granted retry waits ----

  /** `initial` multiplied `k` times. */
  function Grown(initial: real, multiplier: real, k: nat): real {
    if k == 0 then initial else Grown(initial, multiplier, k - 1) * multiplier
  }

  function AtMost(x: real, most: real): real {
    if x > most then most else x
  }

  /** What a fraction of the cap weighs in: a latency up to 500 ms, a loss up to 100 per cent. */
  function NetworkFactor(latencyMs: real, lossPct: real, latencyWeight: real, lossWeight: real): real {
    1.0 + AtMost(latencyMs, 500.0) / 100.0 * latencyWeight + AtMost(lossPct, 100.0) / 20.0 * lossWeight
  }

  /** A half more for each of up to ten failures, and one more for each ten per cent of a loss up to thirty. */
  function TroubleFactor(failures: nat, lossPct: real): real {
    1.0 + (if failures > 10 then 10 else failures) as real / 2.0 + AtMost(lossPct, 30.0) / 10.0
  }

  function Limited(grown: real, factor: real, most: real): real {
    AtMost(grown * factor, most)
  }

  /** What the network and the breaker multiply the grown delay by at event `n`. */
  function FactorAt(es: seq<Event>, p: RetryPolicy, n: nat): real
    requires n <= |es|
  {
    var (latency, loss) := Measured(es, n);
    match p
    case Adaptive(_, _, _, latencyWeight, lossWeight) => NetworkFactor(latency, loss, latencyWeight, lossWeight)
    case Smart(_, _, _, _, _) =>
      var trouble := TroubleFactor(RetryableSinceSuccess(es, n), loss);
      if IsHalfOpen(es, p, n) then trouble + trouble else trouble
    case _ => 1.0
  }

  /** The wait of the retry granted at event `n`, the one after `k` others since the last reset. */
  function Waiting(es: seq<Event>, p: RetryPolicy, n: nat, k: nat, jitter: Jitter): real
    requires n <= |es|
  {
    match p
    case Immediate => 0.0
    case Fixed(delay) => delay
    case _ => Limited(Grown(p.initial, p.multiplier, k), FactorAt(es, p, n), p.maxDelay) + jitter
  }

  predicate IsHalfOpen(es: seq<Event>, p: RetryPolicy, n: nat)
    requires n <= |es|
  {
    && RetryableSinceSuccess(es, n) >= ThresholdOf(p)
    && LastOpening(es, p, n).Some?
    && LateFailure(es, p, LastOpening(es, p, n).value, n)
  }

  lemma {:induction false} PowIsGrown(initial: real, multiplier: real, k: nat)
    ensures initial * Pow(multiplier, k) == Grown(initial, multiplier, k)
  {
    if k > 0 {
      PowIsGrown(initial, multiplier, k - 1);
      Associate(initial, multiplier, Pow(multiplier, k - 1));
    }
  }

  lemma {:induction false} Associate(x: real, y: real, z: real)
    ensures x * (y * z) == x * z * y
  {
  }

  lemma {:induction false} SmartFactorIsTrouble(circuit: Circuit, failures: nat, lossPct: real)
    ensures
      var trouble := TroubleFactor(failures, lossPct);
      SmartFactor(circuit, failures, lossPct) == if circuit.HalfOpen? then trouble + trouble else trouble
  {
  }

  lemma {:induction false} AdaptiveFactorIsNetwork(latencyMs: real, lossPct: real, wLatency: real, wLoss: real)
    ensures AdaptiveFactor(Min(latencyMs / 100.0, 5.0), wLatency, Min(lossPct / 20.0, 5.0), wLoss)
            == NetworkFactor(latencyMs, lossPct, wLatency, wLoss)
  {
    assert Min(latencyMs / 100.0, 5.0) == AtMost(latencyMs, 500.0) / 100.0;
    assert Min(lossPct / 20.0, 5.0) == AtMost(lossPct, 100.0) / 20.0;
  }

  lemma {:induction false} CappingIs(exponential: real, grown: real, penalty: real, factor: real, cap: real)
    requires exponential == grown && penalty == factor
    ensures Capping(exponential, penalty, cap) == Limited(grown, factor, cap)
  {
  }

  lemma {:induction false} BaseDelayIs(s: State, factor: real)
    requires Capped(s.policy) && s.attempt >= 1 && Penalty(s) == factor
    ensures BaseDelay(s)
            == Limited(Grown(s.policy.initial, s.policy.multiplier, s.attempt - 1), factor, s.policy.maxDelay)
  {
    PowIsGrown(s.policy.initial, s.policy.multiplier, s.attempt - 1);
    CappingIs(Exponential(s.policy, s.attempt), Grown(s.policy.initial, s.policy.multiplier, s.attempt - 1),
              Penalty(s), factor, s.policy.maxDelay);
  }

  lemma {:induction false} PenaltyIs(s: State, es: seq<Event>, p: RetryPolicy, n: nat)
    requires n <= |es| && Explained(s, es, p, n) && (s.latencyMs, s.lossPct) == Measured(es, n)
    ensures Penalty(s) == FactorAt(es, p, n)
  {
    if p.Adaptive? {
      AdaptiveFactorIsNetwork(s.latencyMs, s.lossPct, p.latencyWeight, p.lossWeight);
    } else if p.Smart? {
      SmartFactorIsTrouble(s.circuit, s.failures, s.lossPct);
    }
  }

  lemma {:induction false} CalculatedDelayIs(s: State, es: seq<Event>, p: RetryPolicy, n: nat, jitter: Jitter)
    requires n <= |es| && Explained(s, es, p, n) && (s.latencyMs, s.lossPct) == Measured(es, n) && s.attempt >= 1
    ensures CalculateDelay(s, jitter) == Waiting(es, p, n, s.attempt - 1, jitter)
  {
    if Capped(p) {
      PenaltyIs(s, es, p, n);
      BaseDelayIs(s, FactorAt(es, p, n));
    }
  }

  /** In every run a granted retry waits exactly so long. */
  lemma {:induction false} GrantedDelayIs(maxRetries: nat, p: RetryPolicy, es: seq<Event>, n: nat)
    requires n < |es| && ThresholdOf(p) >= 1 && Grants(At(Fresh(maxRetries, p), es, n), es[n])
    ensures
      var k := GrantsSinceReset(Fresh(maxRetries, p), es, n);
      DelayGranted(At(Fresh(maxRetries, p), es, n), es[n].now, es[n].call.jitter)
      == Some(Waiting(es, p, n, k, es[n].call.jitter))
  {
    Bookkeeping(maxRetries, p, es, n);
    CircuitIsExplained(maxRetries, p, es, n);
    CalculatedDelayIs(AfterNextDelay(At(Fresh(maxRetries, p), es, n), es[n].now), es, p, n, es[n].call.jitter);
  }
}
