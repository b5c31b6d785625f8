/** The retry engine: failure classes, the timed circuit breaker, the attempt budget and the five backoff policies. */
module RetryEngine {
  import opened Collections
  import opened Clock

  /** Half of a random number from [0, 1). */
  type Jitter = j: real | 0.0 <= j < 0.5 witness 0.0

  datatype RetryPolicy =
    | Immediate
    | Fixed(delay: Duration)
    | ExponentialBackoff(initial: Duration, multiplier: real, maxDelay: Duration)
    | Adaptive(initial: Duration, multiplier: real, maxDelay: Duration, latencyWeight: real, lossWeight: real)
    | Smart(initial: Duration, multiplier: real, maxDelay: Duration, threshold: nat, cooldown: Duration)
  {
    function Threshold(): nat {
      if Smart? then threshold else 5
    }

    function Cooldown(): Duration {
      if Smart? then cooldown else 30.0
    }
  }

  datatype FailureClass =
    Transient | Permanent | Timeout | DnsFailure | NetworkUnreachable | RateLimited | Unknown
  {
    predicate IsRetryable() {
      this != Permanent
    }
  }

  predicate Contains(text: string, word: string) {
    exists i :: 0 <= i <= |text| && word <= text[i..]
  }

  /** `lower` is the error message after lower-casing. */
  function Classify(lower: string): FailureClass {
    if Contains(lower, "timeout") || Contains(lower, "timed out") then Timeout
    else if Contains(lower, "dns") || Contains(lower, "name resolution") then DnsFailure
    else if Contains(lower, "unreachable") || Contains(lower, "network is") then NetworkUnreachable
    else if Contains(lower, "429") || Contains(lower, "rate limit") || Contains(lower, "too many") then RateLimited
    else if Contains(lower, "404") || Contains(lower, "not found") || Contains(lower, "403")
            || Contains(lower, "forbidden") || Contains(lower, "401") || Contains(lower, "unauthorized") then Permanent
    else Transient
  }

  datatype Circuit = Closed | Open(since: Instant) | HalfOpen

  datatype FailureRecord = FailureRecord(class_: FailureClass, latencyMs: real, lossPct: real, timestamp: Instant)

  datatype State = State(
    attempt: nat,
    maxRetries: nat,
    policy: RetryPolicy,
    latencyMs: real,
    lossPct: real,
    failures: nat,
    circuit: Circuit,
    history: seq<FailureRecord>,
    lastClass: Option<FailureClass>)

  const HISTORY_LIMIT: nat := 100

  function Fresh(maxRetries: nat, policy: RetryPolicy): State {
    State(0, maxRetries, policy, 0.0, 0.0, 0, Closed, [], None)
  }

  function Elapsed(since: Instant, now: Instant): Duration {
    if now >= since then now - since else 0.0
  }

  predicate CircuitAllows(s: State, now: Instant) {
    match s.circuit
    case Closed => true
    case Open(since) => Elapsed(since, now) >= s.policy.Cooldown()
    case HalfOpen => true
  }

  function UpdatedCircuit(s: State, now: Instant): Circuit {
    match s.circuit
    case Closed => if s.failures >= s.policy.Threshold() then Open(now) else Closed
    case Open(since) => if Elapsed(since, now) >= s.policy.Cooldown() then HalfOpen else s.circuit
    case HalfOpen => if s.failures >= 1 then Open(now) else HalfOpen
  }

  function AfterFailure(s: State, c: FailureClass, now: Instant): State {
    var record := FailureRecord(c, s.latencyMs, s.lossPct, now);
    var counted := s.(lastClass := Some(c),
                      failures := if c.IsRetryable() then s.failures + 1 else s.failures,
                      history := Suffix(s.history + [record], HISTORY_LIMIT));
    counted.(circuit := UpdatedCircuit(counted, now))
  }

  function AfterSuccess(s: State): State {
    s.(failures := 0, circuit := Closed, lastClass := None)
  }

  function AfterReset(s: State): State {
    s.(attempt := 0)
  }

  predicate ShouldRetry(s: State, now: Instant) {
    s.attempt < s.maxRetries && CircuitAllows(s, now)
  }

  function Pow(x: real, n: nat): real {
    if n == 0 then 1.0 else x * Pow(x, n - 1)
  }

  function Min(x: real, y: real): real {
    if x <= y then x else y
  }

  function AdaptiveFactor(latencyPart: real, latencyWeight: real, lossPart: real, lossWeight: real): real {
    1.0 + latencyPart * latencyWeight + lossPart * lossWeight
  }

  function SmartFactor(circuit: Circuit, failures: nat, lossPct: real): real {
    (if circuit.HalfOpen? then 2.0 else 1.0)
    * (1.0 + Min(failures as real, 10.0) * 0.5 + Min(lossPct / 10.0, 3.0))
  }

  /** What the network and the breaker multiply the exponential delay by. */
  function Penalty(s: State): real {
    match s.policy
    case Adaptive(_, _, _, latencyWeight, lossWeight) =>
      AdaptiveFactor(Min(s.latencyMs / 100.0, 5.0), latencyWeight, Min(s.lossPct / 20.0, 5.0), lossWeight)
    case Smart(_, _, _, _, _) => SmartFactor(s.circuit, s.failures, s.lossPct)
    case _ => 1.0
  }

  predicate Capped(p: RetryPolicy) {
    p.ExponentialBackoff? || p.Adaptive? || p.Smart?
  }

  /** The exponential delay before penalty and cap. */
  function Exponential(p: RetryPolicy, attempt: nat): real
    requires Capped(p) && attempt >= 1
  {
    p.initial * Pow(p.multiplier, attempt - 1)
  }

  function Capping(exponential: real, penalty: real, cap: real): real {
    Min(exponential * penalty, cap)
  }

  /** The delay before jitter. */
  function CappedDelay(p: RetryPolicy, attempt: nat, penalty: real): real
    requires Capped(p) && attempt >= 1
  {
    Capping(Exponential(p, attempt), penalty, p.maxDelay)
  }

  function BaseDelay(s: State): real
    requires Capped(s.policy) && s.attempt >= 1
  {
    CappedDelay(s.policy, s.attempt, Penalty(s))
  }

  function CalculateDelay(s: State, jitter: Jitter): real
    requires s.attempt >= 1
  {
    match s.policy
    case Immediate => 0.0
    case Fixed(delay) => delay
    case _ => BaseDelay(s) + jitter
  }

  function AfterNextDelay(s: State, now: Instant): State {
    if ShouldRetry(s, now) then s.(attempt := s.attempt + 1) else s
  }

  function DelayGranted(s: State, now: Instant, jitter: Jitter): Option<real> {
    if ShouldRetry(s, now) then Some(CalculateDelay(AfterNextDelay(s, now), jitter)) else None
  }

  class RetryState {
    var attempt: nat
    var maxRetries: nat
    var policy: RetryPolicy
    var latencyMs: real
    var lossPct: real
    var failures: nat
    var circuit: Circuit
    var history: seq<FailureRecord>
    var lastClass: Option<FailureClass>

    function View(): State
      reads this
    {
      State(attempt, maxRetries, policy, latencyMs, lossPct, failures, circuit, history, lastClass)
    }

    constructor (maxRetries: nat, policy: RetryPolicy)
      ensures View() == Fresh(maxRetries, policy)
    {
      this.attempt, this.maxRetries, this.policy := 0, maxRetries, policy;
      this.latencyMs, this.lossPct := 0.0, 0.0;
      this.failures, this.circuit := 0, Closed;
      this.history, this.lastClass := [], None;
    }

    method NextDelay(now: Instant, jitter: Jitter) returns (delay: Option<real>)
      modifies this`attempt
      ensures View() == AfterNextDelay(old(View()), now)
      ensures delay == DelayGranted(old(View()), now, jitter)
      ensures delay.Some? <==> ShouldRetry(old(View()), now)
    {
      if attempt >= maxRetries {
        return None;
      }
      if !CircuitAllows(View(), now) {
        return None;
      }
      attempt := attempt + 1;
      delay := Some(CalculateDelay(View(), jitter));
    }

    method RecordFailure(lower: string, now: Instant)
      requires |history| <= HISTORY_LIMIT
      modifies this`lastClass, this`failures, this`history, this`circuit
      ensures View() == AfterFailure(old(View()), Classify(lower), now)
      ensures |history| <= HISTORY_LIMIT
    {
      var c := Classify(lower);
      lastClass := Some(c);
      if c.IsRetryable() {
        failures := failures + 1;
      }
      Remember(FailureRecord(c, latencyMs, lossPct, now));
      UpdateCircuitState(now);
    }

    method Remember(record: FailureRecord)
      requires |history| <= HISTORY_LIMIT
      modifies this`history
      ensures history == Suffix(old(history) + [record], HISTORY_LIMIT)
    {
      history := history + [record];
      if |history| > HISTORY_LIMIT {
        history := history[1..];
      }
    }

    method UpdateCircuitState(now: Instant)
      modifies this`circuit
      ensures circuit == UpdatedCircuit(old(View()), now)
    {
      match circuit {
        case Closed =>
          if failures >= policy.Threshold() {
            circuit := Open(now);
          }
        case Open(since) =>
          if Elapsed(since, now) >= policy.Cooldown() {
            circuit := HalfOpen;
          }
        case HalfOpen =>
          if failures >= 1 {
            circuit := Open(now);
          }
      }
    }

    method RecordSuccess()
      modifies this`failures, this`circuit, this`lastClass
      ensures View() == AfterSuccess(old(View()))
    {
      failures := 0;
      circuit := Closed;
      lastClass := None;
    }

    method Reset()
      modifies this`attempt
      ensures View() == AfterReset(old(View()))
    {
      attempt := 0;
    }

    method SetNetworkConditions(latencyMs: real, lossPct: real)
      modifies this`latencyMs, this`lossPct
      ensures View() == old(View()).(latencyMs := latencyMs, lossPct := lossPct)
    {
      this.latencyMs := latencyMs;
      this.lossPct := lossPct;
    }
  }
}
