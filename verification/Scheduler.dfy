/** The adaptive scheduler: a saturating counter of active jobs, and the concurrency it suggests. */
module Scheduler {
  import opened Collections
  import opened Clock
  import opened Network

  const USIZE_MAX: nat := 0xFFFF_FFFF_FFFF_FFFF

  datatype Config = Config(
    maxConcurrency: nat,
    minConcurrency: nat,
    good: nat,
    degraded: nat,
    bad: nat,
    cooldownSecs: nat)

  datatype NetworkQuality = Good | Degraded | Bad

  function ClassifyQuality(status: ConnectionStatus, latencyMs: real, lossPct: real): NetworkQuality {
    if status.Offline? || lossPct >= 50.0 then Bad
    else if status == ConnectionStatus.Degraded || latencyMs > 200.0 || lossPct > 10.0 then NetworkQuality.Degraded
    else Good
  }

  function Lesser(x: nat, y: nat): nat {
    if x <= y then x else y
  }

  function Greater(x: nat, y: nat): nat {
    if x >= y then x else y
  }

  function SaturatingSub(x: nat, y: nat): nat {
    if x >= y then x - y else 0
  }

  function FailurePenalty(failures: nat): nat {
    if failures > 0 then
      var half := failures as real * 0.5;
      (if half <= 2.0 then half else 2.0).Floor
    else 0
  }

  function Suggestion(c: Config, failures: nat, inCooldown: bool, status: ConnectionStatus, latencyMs: real,
                      lossPct: real): nat {
    var base := match ClassifyQuality(status, latencyMs, lossPct)
                case Good => c.good
                case Degraded => c.degraded
                case Bad => c.bad;
    var suggested := if inCooldown then c.minConcurrency
                     else Greater(SaturatingSub(base, FailurePenalty(failures)), c.minConcurrency);
    Lesser(suggested, c.maxConcurrency)
  }

  function AfterActive(active: nat, delta: int): nat {
    if delta > 0 then Lesser(active + delta, USIZE_MAX) else SaturatingSub(active, -delta)
  }

  predicate InCooldown(lastFailure: Option<Instant>, c: Config, now: Instant) {
    lastFailure.Some?
    && (if now >= lastFailure.value then now - lastFailure.value else 0.0) < c.cooldownSecs as real
  }

  class AdaptiveScheduler {
    const config: Config
    var activeCount: nat
    var queueDepth: nat
    var recentFailures: nat
    var lastFailureTime: Option<Instant>

    constructor (config: Config)
      ensures this.config == config && activeCount == queueDepth == recentFailures == 0 && lastFailureTime == None
    {
      this.config := config;
      activeCount, queueDepth, recentFailures, lastFailureTime := 0, 0, 0, None;
    }

    method SuggestConcurrency(status: ConnectionStatus, latencyMs: real, lossPct: real, now: Instant)
      returns (suggested: nat)
      ensures suggested == Suggestion(config, recentFailures, InCooldown(lastFailureTime, config, now), status,
                                      latencyMs, lossPct)
    {
      var base := match ClassifyQuality(status, latencyMs, lossPct)
                  case Good => config.good
                  case Degraded => config.degraded
                  case Bad => config.bad;
      var penalty := FailurePenalty(recentFailures);
      if InCooldown(lastFailureTime, config, now) {
        suggested := config.minConcurrency;
      } else {
        suggested := Greater(SaturatingSub(base, penalty), config.minConcurrency);
      }
      suggested := Lesser(suggested, config.maxConcurrency);
    }

    method RecordActive(delta: int)
      modifies this`activeCount
      ensures activeCount == AfterActive(old(activeCount), delta)
    {
      if delta > 0 {
        activeCount := Lesser(activeCount + delta, USIZE_MAX);
      } else {
        activeCount := SaturatingSub(activeCount, -delta);
      }
    }

    method RecordQueueDepth(depth: nat)
      modifies this`queueDepth
      ensures queueDepth == depth
    {
      queueDepth := depth;
    }

    method RecordFailure(now: Instant)
      modifies this`recentFailures, this`lastFailureTime
      ensures recentFailures == old(recentFailures) + 1 && lastFailureTime == Some(now)
    {
      recentFailures := recentFailures + 1;
      lastFailureTime := Some(now);
    }

    /** A success forgets the failures but not when the last one was. */
    method RecordSuccess()
      modifies this`recentFailures
      ensures recentFailures == 0
    {
      recentFailures := 0;
    }
  }

  // ---- The active counter is a reflected walk ----

  function Active(deltas: seq<int>, n: nat): nat
    requires n <= |deltas|
  {
    if n == 0 then 0 else AfterActive(Active(deltas, n - 1), deltas[n - 1])
  }

  function PrefixSum(deltas: seq<int>, n: nat): int
    requires n <= |deltas|
  {
    if n == 0 then 0 else PrefixSum(deltas, n - 1) + deltas[n - 1]
  }

  /** The least of the first `n` prefix sums and of 0, the sum of nothing. */
  function LowestPrefix(deltas: seq<int>, n: nat): (low: int)
    requires n <= |deltas|
    ensures forall k :: 0 <= k <= n ==> low <= PrefixSum(deltas, k)
    ensures exists k :: 0 <= k <= n && low == PrefixSum(deltas, k)
  {
    if n == 0 then 0
    else if PrefixSum(deltas, n) < LowestPrefix(deltas, n - 1) then PrefixSum(deltas, n)
    else LowestPrefix(deltas, n - 1)
  }

  /** The counter is the running sum pushed up by its deepest undershoot, as long as it does not saturate above. */
  lemma {:induction false} ActiveIsReflectedWalk(deltas: seq<int>, n: nat)
    requires n <= |deltas|
    requires forall k :: 0 <= k < n ==> PrefixSum(deltas, k + 1) - LowestPrefix(deltas, k) <= USIZE_MAX
    ensures Active(deltas, n) == PrefixSum(deltas, n) - LowestPrefix(deltas, n)
  {
    if n > 0 {
      ActiveIsReflectedWalk(deltas, n - 1);
    }
  }

  // ---- Suggestions ----

  /** The suggestion respects both limits exactly when the limits are in order; the upper one wins otherwise. */
  lemma {:induction false} SuggestionInRangeIff(c: Config)
    ensures c.minConcurrency <= c.maxConcurrency <==>
            forall failures: nat, inCooldown, status, latencyMs, lossPct ::
              c.minConcurrency <= Suggestion(c, failures, inCooldown, status, latencyMs, lossPct) <= c.maxConcurrency
  {
    assert Suggestion(c, 0, true, Online, 0.0, 0.0) <= c.maxConcurrency;
  }

  function Severity(status: ConnectionStatus): nat {
    match status
    case Online => 0
    case Degraded => 1
    case Offline => 2
  }

  /** Every second failure costs one slot, up to two. */
  lemma {:induction false} PenaltyIsHalfCappedAtTwo(failures: nat)
    ensures FailurePenalty(failures) == Lesser(failures / 2, 2)
  {
  }

  /** Nothing that gets worse ever raises the suggestion. */
  lemma {:induction false} SuggestionMonotone(c: Config, inCooldown: bool,
                           failures: nat, status: ConnectionStatus, latencyMs: real, lossPct: real,
                           failures': nat, status': ConnectionStatus, latencyMs': real, lossPct': real)
    requires c.good >= c.degraded >= c.bad
    requires failures <= failures' && Severity(status) <= Severity(status')
    requires latencyMs <= latencyMs' && lossPct <= lossPct'
    ensures Suggestion(c, failures', inCooldown, status', latencyMs', lossPct')
            <= Suggestion(c, failures, inCooldown, status, latencyMs, lossPct)
  {
  }

  /** A success forgets the failures but does not end their cooldown: the suggestion after it is the minimum until the
      cooldown runs out, failures or not. The suggestion for a network without failures is back if and only if the
      cooldown has run out or that suggestion is the minimum anyway. */
  lemma {:induction false} SuccessRecoversIffCooledDown(c: Config, failures: nat, lastFailure: Instant, now: Instant,
                                                        status: ConnectionStatus, latencyMs: real, lossPct: real)
    requires lastFailure <= now && c.minConcurrency <= c.maxConcurrency
    ensures
      var afterSuccess := Suggestion(c, 0, InCooldown(Some(lastFailure), c, now), status, latencyMs, lossPct);
      var withoutFailure := Suggestion(c, 0, false, status, latencyMs, lossPct);
      var cooledDown := now - lastFailure >= c.cooldownSecs as real;
      && (afterSuccess == withoutFailure <==> cooledDown || withoutFailure == c.minConcurrency)
      && (!cooledDown ==> afterSuccess == c.minConcurrency == Suggestion(c, failures, true, status, latencyMs, lossPct))
      && (cooledDown ==> afterSuccess >= Suggestion(c, failures, false, status, latencyMs, lossPct))
  {
  }

  /** With a cooldown and room above the minimum, a success right after a failure recovers nothing. */
  lemma {:induction false} SuccessMayRecoverNothing(c: Config, now: Instant)
    requires c.cooldownSecs > 0 && c.minConcurrency < c.maxConcurrency && c.minConcurrency < c.good
    ensures
      Suggestion(c, 0, InCooldown(Some(now), c, now), Online, 0.0, 0.0)
      == Suggestion(c, 1, InCooldown(Some(now), c, now), Online, 0.0, 0.0)
      == c.minConcurrency < Suggestion(c, 0, false, Online, 0.0, 0.0)
  {
  }

  // ---- The suggestion in numbers ----

  /** The setting for the network: bad when offline or at half the packets lost, good when online, within 200 ms and
      within ten per cent of loss, and degraded otherwise. */
  function BaseFor(c: Config, status: ConnectionStatus, latencyMs: real, lossPct: real): nat {
    if status == Offline then c.bad
    else if lossPct >= 50.0 then c.bad
    else if status == Online && latencyMs <= 200.0 && lossPct <= 10.0 then c.good
    else c.degraded
  }

  /** What recent failures take from it. */
  function SlotsLost(failures: nat): nat {
    if failures < 2 then 0 else if failures < 4 then 1 else 2
  }

  function Clamp(x: int, low: nat, high: nat): nat
    requires low <= high
  {
    if x < low then low else if x > high then high else x
  }

  /** With limits in order, the suggestion is the minimum in the cooldown, and otherwise the network's setting less the
      lost slots, brought within the limits. With limits out of order it is the upper one. */
  lemma {:induction false} SuggestionIs(c: Config, failures: nat, inCooldown: bool, status: ConnectionStatus,
                                        latencyMs: real, lossPct: real)
    ensures Suggestion(c, failures, inCooldown, status, latencyMs, lossPct)
            == if c.minConcurrency > c.maxConcurrency then c.maxConcurrency
               else if inCooldown then c.minConcurrency
               else Clamp(BaseFor(c, status, latencyMs, lossPct) - SlotsLost(failures),
                          c.minConcurrency, c.maxConcurrency)
  {
    PenaltyIsHalfCappedAtTwo(failures);
  }

  /** The cooldown runs from the last failure, if there was one, for the configured time. */
  lemma {:induction false} InCooldownIff(lastFailure: Option<Instant>, c: Config, now: Instant)
    requires lastFailure.Some? ==> lastFailure.value <= now
    ensures InCooldown(lastFailure, c, now)
            <==> exists failed :: lastFailure == Some(failed) && now < failed + c.cooldownSecs as real
  {
  }
}
