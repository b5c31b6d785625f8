/** The arithmetic of the capped backoff policies. */
module Backoff {
  import opened Clock
  import opened RetryEngine

  /** Settings and measurements a sensible configuration supplies: nothing negative, and a multiplier that grows. */
  predicate Sensible(s: State) {
    && s.latencyMs >= 0.0 && s.lossPct >= 0.0
    && match s.policy
       case ExponentialBackoff(_, multiplier, _) => multiplier >= 1.0
       case Adaptive(_, multiplier, _, latencyWeight, lossWeight) =>
         multiplier >= 1.0 && latencyWeight >= 0.0 && lossWeight >= 0.0
       case Smart(_, multiplier, _, _, _) => multiplier >= 1.0
       case _ => true
  }

  lemma {:induction false} MulMonotone(x: real, y: real, z: real)
    requires x <= y && z >= 0.0
    ensures x * z <= y * z
  {
  }

  lemma {:induction false} PowMonotone(x: real, m: nat, n: nat)
    requires x >= 1.0 && m <= n
    ensures 1.0 <= Pow(x, m) <= Pow(x, n)
  {
    if n > 0 {
      PowMonotone(x, if m == 0 then 0 else m - 1, n - 1);
      if m > 0 {
        PowMonotone(x, m - 1, m - 1);
        MulMonotone(Pow(x, m - 1), Pow(x, n - 1), x);
        MulMonotone(1.0, x, Pow(x, m - 1));
      } else {
        MulMonotone(1.0, x, Pow(x, n - 1));
      }
    }
  }

  lemma {:induction false} BernoulliStep(x: real, k: real, pow: real)
    requires x >= 0.0 && k >= 0.0 && pow >= 1.0 + k * x
    ensures (1.0 + x) * pow >= 1.0 + (k + 1.0) * x
  {
    MulMonotone(1.0 + k * x, pow, 1.0 + x);
    assert (1.0 + k * x) * (1.0 + x) == 1.0 + (k + 1.0) * x + k * (x * x);
    assert x * x >= 0.0;
    MulMonotone(0.0, k, x * x);
  }

  /** Bernoulli's inequality. */
  lemma {:induction false} Bernoulli(multiplier: real, n: nat)
    requires multiplier >= 1.0
    ensures Pow(multiplier, n) >= 1.0 + n as real * (multiplier - 1.0)
  {
    if n > 0 {
      Bernoulli(multiplier, n - 1);
      BernoulliStep(multiplier - 1.0, (n - 1) as real, Pow(multiplier, n - 1));
    }
  }

  // ---- Penalties ----

  lemma {:induction false} SmartPenaltyRange(s: State)
    requires s.policy.Smart? && s.lossPct >= 0.0
    ensures 1.0 <= Penalty(s) <= 18.0
  {
  }

  lemma {:induction false} WeightedPart(x: real, weight: real)
    requires 0.0 <= x <= 5.0 && weight >= 0.0
    ensures 0.0 <= x * weight <= 5.0 * weight
  {
  }

  lemma {:induction false} AddBounds(a: real, x: real, b: real, y: real)
    requires a <= 5.0 * x && b <= 5.0 * y
    ensures a + b <= 5.0 * (x + y)
  {
  }

  lemma {:induction false} AdaptiveFactorRange(latencyPart: real, latencyWeight: real, lossPart: real, lossWeight: real)
    requires 0.0 <= latencyPart <= 5.0 && 0.0 <= lossPart <= 5.0 && latencyWeight >= 0.0 && lossWeight >= 0.0
    ensures 1.0 <= AdaptiveFactor(latencyPart, latencyWeight, lossPart, lossWeight)
                <= 1.0 + 5.0 * (latencyWeight + lossWeight)
  {
    WeightedPart(latencyPart, latencyWeight);
    WeightedPart(lossPart, lossWeight);
    AddBounds(latencyPart * latencyWeight, latencyWeight, lossPart * lossWeight, lossWeight);
  }

  lemma {:induction false} AdaptivePenaltyRange(s: State)
    requires s.policy.Adaptive? && Sensible(s)
    ensures 1.0 <= Penalty(s) <= 1.0 + 5.0 * (s.policy.latencyWeight + s.policy.lossWeight)
  {
    AdaptiveFactorRange(Min(s.latencyMs / 100.0, 5.0), s.policy.latencyWeight,
                        Min(s.lossPct / 20.0, 5.0), s.policy.lossWeight);
  }

  /** The range is tight: a lossy half-open circuit with ten failures pays the whole factor of 18. */
  lemma {:induction false} SmartPenaltyExtremes(s: State)
    requires s.policy.Smart? && s.lossPct >= 0.0
    ensures Penalty(s) == 18.0 <==> s.circuit.HalfOpen? && s.failures >= 10 && s.lossPct >= 30.0
    ensures Penalty(s) == 1.0 <==> !s.circuit.HalfOpen? && s.failures == 0 && s.lossPct == 0.0
  {
  }

  predicate CircuitNoWorse(c: Circuit, c': Circuit) {
    c.HalfOpen? ==> c'.HalfOpen?
  }

  lemma {:induction false} SmartFactorMonotone(c: Circuit, failures: nat, lossPct: real,
                                               c': Circuit, failures': nat, lossPct': real)
    requires CircuitNoWorse(c, c') && failures <= failures' && 0.0 <= lossPct <= lossPct'
    ensures SmartFactor(c, failures, lossPct) <= SmartFactor(c', failures', lossPct')
  {
  }

  lemma {:induction false} FactorByParts(latency: real, wLatency: real, loss: real, wLoss: real)
    requires 0.0 <= latency <= 5.0 && 0.0 <= loss <= 5.0 && wLatency >= 0.0 && wLoss >= 0.0
    ensures loss == 0.0 ==> AdaptiveFactor(latency, wLatency, loss, wLoss) <= 1.0 + 5.0 * wLatency
    ensures latency == 0.0 ==> AdaptiveFactor(latency, wLatency, loss, wLoss) <= 1.0 + 5.0 * wLoss
    ensures latency == 5.0 ==> AdaptiveFactor(latency, wLatency, loss, wLoss) >= 1.0 + 5.0 * wLatency
    ensures loss == 5.0 ==> AdaptiveFactor(latency, wLatency, loss, wLoss) >= 1.0 + 5.0 * wLoss
  {
    WeightedPart(latency, wLatency);
    WeightedPart(loss, wLoss);
  }

  /** Adaptive backoff listens to each measurement through its own weight, and each has its own saturation point. */
  lemma {:induction false} AdaptiveHearsEachWeight(s: State)
    requires s.policy.Adaptive? && Sensible(s)
    ensures s.lossPct == 0.0 ==> Penalty(s) <= 1.0 + 5.0 * s.policy.latencyWeight
    ensures s.latencyMs == 0.0 ==> Penalty(s) <= 1.0 + 5.0 * s.policy.lossWeight
    ensures s.latencyMs >= 500.0 ==> Penalty(s) >= 1.0 + 5.0 * s.policy.latencyWeight
    ensures s.lossPct >= 100.0 ==> Penalty(s) >= 1.0 + 5.0 * s.policy.lossWeight
  {
    FactorByParts(Min(s.latencyMs / 100.0, 5.0), s.policy.latencyWeight,
                  Min(s.lossPct / 20.0, 5.0), s.policy.lossWeight);
  }

  lemma {:induction false} AdaptiveFactorMonotone(latency: real, loss: real, latency': real, loss': real,
                                                  wLatency: real, wLoss: real)
    requires latency <= latency' && loss <= loss' && wLatency >= 0.0 && wLoss >= 0.0
    ensures AdaptiveFactor(latency, wLatency, loss, wLoss) <= AdaptiveFactor(latency', wLatency, loss', wLoss)
  {
  }

  lemma {:induction false} PenaltyMonotone(s: State, s': State)
    requires Sensible(s) && s'.policy == s.policy
    requires CircuitNoWorse(s.circuit, s'.circuit) && s.failures <= s'.failures
    requires s.latencyMs <= s'.latencyMs && s.lossPct <= s'.lossPct
    ensures 1.0 <= Penalty(s) <= Penalty(s')
  {
    PenaltyAtLeastOne(s);
    match s.policy
    case Adaptive(_, _, _, wLatency, wLoss) =>
      AdaptiveFactorMonotone(Min(s.latencyMs / 100.0, 5.0), Min(s.lossPct / 20.0, 5.0),
                             Min(s'.latencyMs / 100.0, 5.0), Min(s'.lossPct / 20.0, 5.0), wLatency, wLoss);
    case Smart(_, _, _, _, _) =>
      SmartFactorMonotone(s.circuit, s.failures, s.lossPct, s'.circuit, s'.failures, s'.lossPct);
    case _ =>
  }

  lemma {:induction false} PenaltyAtLeastOne(s: State)
    requires Sensible(s)
    ensures Penalty(s) >= 1.0
  {
    match s.policy
    case Adaptive(_, _, _, _, _) => AdaptivePenaltyRange(s);
    case Smart(_, _, _, _, _) => SmartPenaltyRange(s);
    case _ =>
  }

  // ---- The capped delay as a function of the attempt ----

  lemma {:induction false} ProductMonotone(x: real, y: real, penalty: real, penalty': real)
    requires 0.0 <= x <= y && 0.0 <= penalty <= penalty'
    ensures 0.0 <= x * penalty <= y * penalty'
  {
  }

  lemma {:induction false} MinMonotone(x: real, y: real, cap: real)
    requires 0.0 <= x <= y && cap >= 0.0
    ensures 0.0 <= Min(x, cap) <= Min(y, cap) <= cap
  {
  }

  lemma {:induction false} CappingMonotone(x: real, y: real, penalty: real, penalty': real, cap: real)
    requires 0.0 <= x <= y && 0.0 <= penalty <= penalty' && cap >= 0.0
    ensures 0.0 <= Capping(x, penalty, cap) <= Capping(y, penalty', cap) <= cap
  {
    ProductMonotone(x, y, penalty, penalty');
    MinMonotone(x * penalty, y * penalty', cap);
  }

  lemma {:induction false} CappingSaturates(x: real, penalty: real, cap: real)
    requires x >= cap >= 0.0 && penalty >= 1.0
    ensures Capping(x, penalty, cap) == cap
  {
  }

  lemma {:induction false} ExponentialMonotone(p: RetryPolicy, attempt: nat, later: nat)
    requires Capped(p) && p.multiplier >= 1.0 && 1 <= attempt <= later
    ensures 0.0 <= Exponential(p, attempt) <= Exponential(p, later)
  {
    PowMonotone(p.multiplier, attempt - 1, later - 1);
    ScaleMonotone(p.initial, Pow(p.multiplier, attempt - 1), Pow(p.multiplier, later - 1));
  }

  lemma {:induction false} ScaleMonotone(z: real, x: real, y: real)
    requires 0.0 <= x <= y && z >= 0.0
    ensures 0.0 <= z * x <= z * y
  {
  }

  lemma {:induction false} CappedDelayNonDecreasing(p: RetryPolicy, attempt: nat, later: nat, penalty: real)
    requires Capped(p) && p.multiplier >= 1.0 && penalty >= 1.0 && 1 <= attempt <= later
    ensures 0.0 <= CappedDelay(p, attempt, penalty) <= CappedDelay(p, later, penalty) <= p.maxDelay
  {
    ExponentialMonotone(p, attempt, later);
    CappingMonotone(Exponential(p, attempt), Exponential(p, later), penalty, penalty, p.maxDelay);
  }

  /** With everything else held still, a later attempt never waits less, and no wait is negative. */
  lemma {:induction false} BaseDelayNonDecreasing(s: State, later: nat)
    requires Capped(s.policy) && Sensible(s) && 1 <= s.attempt <= later
    ensures 0.0 <= BaseDelay(s) <= BaseDelay(s.(attempt := later)) <= s.policy.maxDelay
  {
    PenaltyAtLeastOne(s);
    CappedDelayNonDecreasing(s.policy, s.attempt, later, Penalty(s));
  }

  /** How many linear steps of the first growth lead up to the cap. */
  function GrowthSteps(initial: real, growth: real, cap: real): (steps: real)
    requires initial * growth > 0.0 && cap >= 0.0
    ensures steps >= 0.0
  {
    DivNonNegative(cap, initial * growth);
    cap / (initial * growth)
  }

  /** The attempt at which so many steps have been made. */
  function AttemptAfter(steps: real): (a: nat)
    requires steps >= 0.0
    ensures a >= 1 && (a - 1) as real >= steps
  {
    steps.Floor + 2
  }

  /** An attempt by which a growing backoff has certainly reached its cap. */
  function SaturationAttempt(p: RetryPolicy): (a: nat)
    requires Capped(p) && p.initial > 0.0 && p.multiplier > 1.0
    ensures a >= 1 && p.initial * (p.multiplier - 1.0) > 0.0
    ensures (a - 1) as real >= GrowthSteps(p.initial, p.multiplier - 1.0, p.maxDelay)
  {
    PositiveProduct(p.initial, p.multiplier - 1.0);
    AttemptAfter(GrowthSteps(p.initial, p.multiplier - 1.0, p.maxDelay))
  }

  lemma {:induction false} PositiveProduct(x: real, y: real)
    requires x > 0.0 && y > 0.0
    ensures x * y > 0.0
  {
  }

  lemma {:induction false} DivNonNegative(x: real, y: real)
    requires x >= 0.0 && y > 0.0
    ensures x / y >= 0.0
  {
  }

  lemma {:induction false} LinearGrowthReaches(initial: real, x: real, k: real, pow: real, cap: real)
    requires initial > 0.0 && x > 0.0 && initial * x > 0.0 && cap >= 0.0
    requires k >= GrowthSteps(initial, x, cap) && pow >= 1.0 + k * x
    ensures initial * pow >= cap
  {
  }

  lemma {:induction false} GrowthReachesCap(p: RetryPolicy, attempt: nat)
    requires Capped(p) && p.initial > 0.0 && p.multiplier > 1.0 && attempt >= SaturationAttempt(p)
    ensures Exponential(p, attempt) >= p.maxDelay
  {
    PositiveProduct(p.initial, p.multiplier - 1.0);
    Bernoulli(p.multiplier, attempt - 1);
    var growth := Pow(p.multiplier, attempt - 1);
    LinearGrowthReaches(p.initial, p.multiplier - 1.0, (attempt - 1) as real, growth, p.maxDelay);
  }

  lemma {:induction false} CappedDelaySaturates(p: RetryPolicy, attempt: nat, penalty: real)
    requires Capped(p) && p.initial > 0.0 && p.multiplier > 1.0 && penalty >= 1.0
    requires attempt >= SaturationAttempt(p)
    ensures CappedDelay(p, attempt, penalty) == p.maxDelay
  {
    GrowthReachesCap(p, attempt);
    CappingSaturates(Exponential(p, attempt), penalty, p.maxDelay);
  }

  /** From that attempt on the delay before jitter is exactly the cap, whatever the penalties are. */
  lemma {:induction false} BackoffSaturates(s: State)
    requires Capped(s.policy) && Sensible(s) && s.policy.initial > 0.0 && s.policy.multiplier > 1.0
    requires s.attempt >= SaturationAttempt(s.policy)
    ensures BaseDelay(s) == s.policy.maxDelay
  {
    PenaltyAtLeastOne(s);
    CappedDelaySaturates(s.policy, s.attempt, Penalty(s));
  }

  /** Every delay a sensible engine hands out lies between zero and the cap plus half a second. */
  lemma {:induction false} GrantedDelayInRange(s: State, now: Instant, jitter: Jitter)
    requires Capped(s.policy) && Sensible(s) && ShouldRetry(s, now)
    ensures DelayGranted(s, now, jitter).Some?
    ensures jitter <= DelayGranted(s, now, jitter).value < s.policy.maxDelay + 0.5
  {
    BaseDelayNonDecreasing(AfterNextDelay(s, now), s.attempt + 1);
  }

  lemma {:induction false} CappedDelayGrowsWithPenalty(p: RetryPolicy, attempt: nat, penalty: real, penalty': real)
    requires Capped(p) && p.multiplier >= 1.0 && attempt >= 1 && 1.0 <= penalty <= penalty'
    ensures CappedDelay(p, attempt, penalty) <= CappedDelay(p, attempt, penalty')
  {
    ExponentialMonotone(p, attempt, attempt);
    CappingMonotone(Exponential(p, attempt), Exponential(p, attempt), penalty, penalty', p.maxDelay);
  }

  /** At the same attempt, more failures, a half-open circuit or a worse network never shorten the delay. */
  lemma {:induction false} WorseNeverWaitsLess(s: State, s': State)
    requires Capped(s.policy) && Sensible(s) && s'.policy == s.policy && s'.attempt == s.attempt >= 1
    requires CircuitNoWorse(s.circuit, s'.circuit) && s.failures <= s'.failures
    requires s.latencyMs <= s'.latencyMs && s.lossPct <= s'.lossPct
    ensures BaseDelay(s) <= BaseDelay(s')
  {
    PenaltyMonotone(s, s');
    CappedDelayGrowsWithPenalty(s.policy, s.attempt, Penalty(s), Penalty(s'));
  }
}
