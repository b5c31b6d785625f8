/** What holds over whole runs of one retry engine: bookkeeping, the spacing of circuit openings, the cooldown,
    how often the circuit can open, and the total time a caller can be told to wait. */
module CircuitBreaker {
  import opened Collections
  import opened Clock
  import opened RetryEngine

  datatype Call =
    | Failure(class_: FailureClass)
    | Success
    | NextRetry(jitter: Jitter)
    | Reset
    | Network(latencyMs: real, lossPct: real)

  datatype Event = Event(call: Call, now: Instant)

  function Step(s: State, e: Event): State {
    match e.call
    case Failure(c) => AfterFailure(s, c, e.now)
    case Success => AfterSuccess(s)
    case NextRetry(_) => AfterNextDelay(s, e.now)
    case Reset => AfterReset(s)
    case Network(latency, loss) => s.(latencyMs := latency, lossPct := loss)
  }

  /** The engine's state after the first `n` events. */
  function At(s: State, es: seq<Event>, n: nat): State
    requires n <= |es|
  {
    if n == 0 then s else Step(At(s, es, n - 1), es[n - 1])
  }

  predicate MonotoneClock(es: seq<Event>) {
    forall i, j :: 0 <= i <= j < |es| ==> es[i].now <= es[j].now
  }

  /** The event is a request for a retry, and it is granted. */
  predicate Grants(s: State, e: Event) {
    e.call.NextRetry? && ShouldRetry(s, e.now)
  }

  /** Event `i` moves the circuit to Open. */
  predicate Opens(s: State, es: seq<Event>, i: nat)
    requires i < |es|
  {
    es[i].call.Failure? && !At(s, es, i).circuit.Open? && At(s, es, i + 1).circuit.Open?
  }

  predicate NoSuccessBetween(es: seq<Event>, i: nat, j: nat)
    requires j <= |es|
  {
    forall k :: i < k < j ==> !es[k].call.Success?
  }

  // ---- Bookkeeping: every counter against the events themselves ----

  predicate IsRetryableFailure(e: Event) {
    e.call.Failure? && e.call.class_.IsRetryable()
  }

  function RetryableSinceSuccess(es: seq<Event>, n: nat): nat
    requires n <= |es|
  {
    if n == 0 || es[n - 1].call.Success? then 0
    else RetryableSinceSuccess(es, n - 1) + if IsRetryableFailure(es[n - 1]) then 1 else 0
  }

  function GrantsSinceReset(s: State, es: seq<Event>, n: nat): nat
    requires n <= |es|
  {
    if n == 0 || es[n - 1].call.Reset? then 0
    else GrantsSinceReset(s, es, n - 1) + if Grants(At(s, es, n - 1), es[n - 1]) then 1 else 0
  }

  /** The measurements in force after `n` events. */
  function Measured(es: seq<Event>, n: nat): (real, real)
    requires n <= |es|
  {
    if n == 0 then (0.0, 0.0)
    else if es[n - 1].call.Network? then (es[n - 1].call.latencyMs, es[n - 1].call.lossPct)
    else Measured(es, n - 1)
  }

  /** A record of every failure so far, with the measurements in force when it came. */
  function AllRecords(es: seq<Event>, n: nat): seq<FailureRecord>
    requires n <= |es|
  {
    if n == 0 then []
    else
      var before := AllRecords(es, n - 1);
      match es[n - 1].call
      case Failure(c) =>
        before + [FailureRecord(c, Measured(es, n - 1).0, Measured(es, n - 1).1, es[n - 1].now)]
      case _ => before
  }

  function LatestClass(es: seq<Event>, n: nat): Option<FailureClass>
    requires n <= |es|
  {
    if n == 0 then None
    else match es[n - 1].call
      case Failure(c) => Some(c)
      case Success => None
      case _ => LatestClass(es, n - 1)
  }

  /** Every counter, the history and the last class are what the first `n` events say. */
  predicate Booked(maxRetries: nat, policy: RetryPolicy, es: seq<Event>, n: nat)
    requires n <= |es|
  {
    var s := At(Fresh(maxRetries, policy), es, n);
    && s.policy == policy && s.maxRetries == maxRetries
    && s.failures == RetryableSinceSuccess(es, n)
    && s.attempt == GrantsSinceReset(Fresh(maxRetries, policy), es, n) <= maxRetries
    && (s.latencyMs, s.lossPct) == Measured(es, n)
    && s.history == Suffix(AllRecords(es, n), 100)
    && s.lastClass == LatestClass(es, n)
  }

  lemma {:induction false} BookedNext(maxRetries: nat, policy: RetryPolicy, es: seq<Event>, n: nat)
    requires n < |es| && Booked(maxRetries, policy, es, n)
    ensures Booked(maxRetries, policy, es, n + 1)
  {
    if es[n].call.Failure? {
      var all := AllRecords(es, n + 1);
      SuffixAppend(AllRecords(es, n), all[|all| - 1], HISTORY_LIMIT);
    }
  }

  lemma {:induction false} Bookkeeping(maxRetries: nat, policy: RetryPolicy, es: seq<Event>, n: nat)
    requires n <= |es|
    ensures Booked(maxRetries, policy, es, n)
  {
    if n > 0 {
      Bookkeeping(maxRetries, policy, es, n - 1);
      BookedNext(maxRetries, policy, es, n - 1);
    }
  }

  /** Closed exactly while the failures since the last success are below the threshold. */
  predicate ClosedBelowThreshold(s: State) {
    s.circuit.Closed? <==> s.failures < s.policy.Threshold()
  }

  lemma {:induction false} StepKeepsClosedBelow(s: State, e: Event)
    requires s.policy.Threshold() >= 1 && ClosedBelowThreshold(s)
    ensures ClosedBelowThreshold(Step(s, e)) && Step(s, e).policy == s.policy
  {
  }

  lemma {:induction false} ClosedIffBelow(maxRetries: nat, policy: RetryPolicy, es: seq<Event>, n: nat)
    requires n <= |es| && policy.Threshold() >= 1
    ensures ClosedBelowThreshold(At(Fresh(maxRetries, policy), es, n))
    ensures At(Fresh(maxRetries, policy), es, n).policy == policy
  {
    if n > 0 {
      ClosedIffBelow(maxRetries, policy, es, n - 1);
      StepKeepsClosedBelow(At(Fresh(maxRetries, policy), es, n - 1), es[n - 1]);
    }
  }

  /** A threshold of zero is the one configuration for which that fails. */
  lemma {:induction false} ClosedBelowThresholdIffPositive(maxRetries: nat, policy: RetryPolicy)
    ensures policy.Threshold() >= 1 <==>
            forall es: seq<Event>, n: nat | n <= |es| :: ClosedBelowThreshold(At(Fresh(maxRetries, policy), es, n))
  {
    if policy.Threshold() >= 1 {
      forall es: seq<Event>, n: nat | n <= |es|
        ensures ClosedBelowThreshold(At(Fresh(maxRetries, policy), es, n))
      {
        ClosedIffBelow(maxRetries, policy, es, n);
      }
    } else {
      assert !ClosedBelowThreshold(At(Fresh(maxRetries, policy), [], 0));
    }
  }

  /** Half-open is not forgiving: whatever failure comes next, a permanent one included, reopens the circuit. */
  lemma {:induction false} HalfOpenReopensOnAnyFailure(maxRetries: nat, policy: RetryPolicy, es: seq<Event>, n: nat,
                                    c: FailureClass, now: Instant)
    requires n <= |es| && policy.Threshold() >= 1
    requires At(Fresh(maxRetries, policy), es, n).circuit.HalfOpen?
    ensures AfterFailure(At(Fresh(maxRetries, policy), es, n), c, now).circuit == Open(now)
  {
    ClosedIffBelow(maxRetries, policy, es, n);
  }

  // ---- Spacing and cooldown ----

  /** The opening at clock reading `opening` still holds the circuit back at `latest`. */
  predicate Held(s: State, opening: Instant, latest: Instant) {
    match s.circuit
    case Closed => false
    case Open(since) => opening <= since <= latest
    case HalfOpen => latest - opening >= s.policy.Cooldown()
  }

  lemma {:induction false} HeldNext(s: State, e: Event, opening: Instant, latest: Instant)
    requires Held(s, opening, latest) && latest <= e.now && !e.call.Success?
    ensures Held(Step(s, e), opening, e.now) && Step(s, e).policy == s.policy
  {
  }

  lemma {:induction false} HeldFromOpening(s: State, e: Event)
    requires e.call.Failure? && !s.circuit.Open? && Step(s, e).circuit.Open?
    ensures Held(Step(s, e), e.now, e.now) && Step(s, e).policy == s.policy
  {
  }

  /** Until a success, the clock reading of an opening keeps holding the circuit back. */
  lemma {:induction false} HeldSinceOpening(s: State, es: seq<Event>, i: nat, n: nat)
    requires i < n <= |es| && MonotoneClock(es) && Opens(s, es, i) && NoSuccessBetween(es, i, n)
    ensures Held(At(s, es, n), es[i].now, es[n - 1].now)
    ensures At(s, es, n).policy == At(s, es, i).policy
  {
    if n == i + 1 {
      HeldFromOpening(At(s, es, i), es[i]);
    } else {
      HeldSinceOpening(s, es, i, n - 1);
      assert es[n - 2].now <= es[n - 1].now;
      HeldNext(At(s, es, n - 1), es[n - 1], es[i].now, es[n - 2].now);
    }
  }

  lemma {:induction false} OpeningsAreSpaced(s: State, es: seq<Event>, i: nat, j: nat)
    requires i < j < |es| && MonotoneClock(es) && NoSuccessBetween(es, i, j)
    requires Opens(s, es, i) && Opens(s, es, j)
    ensures es[j].now - es[i].now >= At(s, es, i).policy.Cooldown()
  {
    HeldSinceOpening(s, es, i, j);
    assert es[j - 1].now <= es[j].now;
  }

  lemma {:induction false} NoGrantDuringCooldown(s: State, es: seq<Event>, i: nat, j: nat)
    requires i < j < |es| && MonotoneClock(es) && NoSuccessBetween(es, i, j)
    requires Opens(s, es, i) && Grants(At(s, es, j), es[j])
    ensures es[j].now - es[i].now >= At(s, es, i).policy.Cooldown()
  {
    HeldSinceOpening(s, es, i, j);
    assert es[j - 1].now <= es[j].now;
  }

  // ---- How often the circuit can open ----

  function Failures(es: seq<Event>, n: nat): nat
    requires n <= |es|
  {
    if n == 0 then 0 else Failures(es, n - 1) + if es[n - 1].call.Failure? then 1 else 0
  }

  function OpeningsFromClosed(s: State, es: seq<Event>, n: nat): nat
    requires n <= |es|
  {
    if n == 0 then 0
    else OpeningsFromClosed(s, es, n - 1)
         + if Opens(s, es, n - 1) && At(s, es, n - 1).circuit.Closed? then 1 else 0
  }

  function Reopenings(s: State, es: seq<Event>, n: nat): nat
    requires n <= |es|
  {
    if n == 0 then 0
    else Reopenings(s, es, n - 1)
         + if Opens(s, es, n - 1) && At(s, es, n - 1).circuit.HalfOpen? then 1 else 0
  }

  /** Failures already paid towards the next opening. */
  function Progress(s: State): nat {
    match s.circuit
    case Closed => s.failures
    case Open(_) => 0
    case HalfOpen => 1
  }

  /** One event spends on an opening no more progress than there was, and only a failure adds any. */
  lemma {:induction false} OpeningIsPaid(s: State, e: Event)
    requires s.policy.Threshold() >= 1 && ClosedBelowThreshold(s)
    ensures
      var opens := e.call.Failure? && !s.circuit.Open? && Step(s, e).circuit.Open?;
      Progress(Step(s, e))
      + (if opens && s.circuit.Closed? then s.policy.Threshold() else 0)
      + (if opens && s.circuit.HalfOpen? then 2 else 0)
      <= Progress(s) + (if e.call.Failure? then 1 else 0)
  {
  }

  lemma {:induction false} EventIsPaid(s: State, es: seq<Event>, n: nat)
    requires n < |es| && At(s, es, n).policy.Threshold() >= 1 && ClosedBelowThreshold(At(s, es, n))
    ensures
      var fromClosed := OpeningsFromClosed(s, es, n + 1) - OpeningsFromClosed(s, es, n);
      var again := Reopenings(s, es, n + 1) - Reopenings(s, es, n);
      && 0 <= fromClosed <= 1
      && (if fromClosed == 1 then At(s, es, n).policy.Threshold() else 0) + 2 * again + Progress(At(s, es, n + 1))
         <= Progress(At(s, es, n)) + Failures(es, n + 1) - Failures(es, n)
  {
    OpeningIsPaid(At(s, es, n), es[n]);
  }

  lemma {:induction false} OneMoreOpening(threshold: nat, openings: nat, more: nat)
    requires more <= 1
    ensures threshold * (openings + more) == threshold * openings + if more == 1 then threshold else 0
  {
  }

  /** The failures so far pay for all openings so far and for the progress towards the next one. */
  predicate Earned(s: State, es: seq<Event>, n: nat, threshold: nat)
    requires n <= |es|
  {
    threshold * OpeningsFromClosed(s, es, n) + 2 * Reopenings(s, es, n) + Progress(At(s, es, n)) <= Failures(es, n)
  }

  predicate Regular(s: State, es: seq<Event>, n: nat, threshold: nat)
    requires n <= |es|
  {
    At(s, es, n).policy.Threshold() == threshold && ClosedBelowThreshold(At(s, es, n))
  }

  lemma {:induction false} EarnedNext(s: State, es: seq<Event>, n: nat, threshold: nat)
    requires n < |es| && threshold >= 1 && Regular(s, es, n, threshold) && Earned(s, es, n, threshold)
    ensures Earned(s, es, n + 1, threshold)
  {
    EventIsPaid(s, es, n);
    var before := OpeningsFromClosed(s, es, n);
    OneMoreOpening(threshold, before, OpeningsFromClosed(s, es, n + 1) - before);
  }

  lemma {:induction false} EarnedFrom(s: State, es: seq<Event>, n: nat, threshold: nat)
    requires n <= |es| && threshold >= 1 && Earned(s, es, 0, threshold)
    requires forall k :: 0 <= k < n ==> Regular(s, es, k, threshold)
    ensures Earned(s, es, n, threshold)
  {
    if n > 0 {
      EarnedFrom(s, es, n - 1, threshold);
      EarnedNext(s, es, n - 1, threshold);
    }
  }

  lemma {:induction false} OpeningsAreEarned(maxRetries: nat, policy: RetryPolicy, es: seq<Event>, n: nat)
    requires n <= |es| && policy.Threshold() >= 1
    ensures Earned(Fresh(maxRetries, policy), es, n, policy.Threshold())
  {
    forall k | 0 <= k < n
      ensures Regular(Fresh(maxRetries, policy), es, k, policy.Threshold())
    {
      ClosedIffBelow(maxRetries, policy, es, k);
    }
    EarnedFrom(Fresh(maxRetries, policy), es, n, policy.Threshold());
  }

  // ---- Grants, and how long they make a caller wait ----

  /** How long event `e` makes the caller wait. */
  function Wait(s: State, e: Event): real {
    if Grants(s, e) then DelayGranted(s, e.now, e.call.jitter).value else 0.0
  }

  function WaitSinceReset(s: State, es: seq<Event>, n: nat, wait: (State, Event) -> real): real
    requires n <= |es|
  {
    if n == 0 || es[n - 1].call.Reset? then 0.0
    else WaitSinceReset(s, es, n - 1, wait) + wait(At(s, es, n - 1), es[n - 1])
  }

  /** The longest single wait each policy can ask for. */
  function LongestWait(p: RetryPolicy): Duration {
    match p
    case Immediate => 0.0
    case Fixed(delay) => delay
    case _ => p.maxDelay + 0.5
  }

  lemma {:induction false} OneMore(grants: nat, longest: real)
    ensures (grants + 1) as real * longest == grants as real * longest + longest
  {
  }

  ghost predicate WaitsAtMost(wait: (State, Event) -> real, policy: RetryPolicy, longest: real) {
    forall s: State, e: Event :: s.policy == policy ==> wait(s, e) <= if Grants(s, e) then longest else 0.0
  }

  predicate Waited(s: State, es: seq<Event>, wait: (State, Event) -> real, longest: real, n: nat)
    requires n <= |es|
  {
    && WaitSinceReset(s, es, n, wait) <= GrantsSinceReset(s, es, n) as real * longest
    && At(s, es, n).policy == s.policy
  }

  lemma {:induction false} WaitedNext(s: State, es: seq<Event>, wait: (State, Event) -> real, longest: real, n: nat)
    requires n < |es| && WaitsAtMost(wait, s.policy, longest) && Waited(s, es, wait, longest, n)
    ensures Waited(s, es, wait, longest, n + 1)
  {
    OneMore(GrantsSinceReset(s, es, n), longest);
  }

  lemma {:induction false} WaitPerGrant(s: State, es: seq<Event>, wait: (State, Event) -> real, longest: real, n: nat)
    requires n <= |es| && WaitsAtMost(wait, s.policy, longest)
    ensures Waited(s, es, wait, longest, n)
  {
    if n > 0 {
      WaitPerGrant(s, es, wait, longest, n - 1);
      WaitedNext(s, es, wait, longest, n - 1);
    }
  }

  lemma {:induction false} FewerIsLess(total: real, grants: nat, maxRetries: nat, longest: Duration)
    requires grants <= maxRetries && total <= grants as real * longest
    ensures total <= maxRetries as real * longest
  {
  }

  lemma {:induction false} BudgetTimesLongest(maxRetries: nat, policy: RetryPolicy, es: seq<Event>, n: nat,
                           wait: (State, Event) -> real, longest: Duration)
    requires n <= |es| && WaitsAtMost(wait, policy, longest)
    ensures WaitSinceReset(Fresh(maxRetries, policy), es, n, wait) <= maxRetries as real * longest
  {
    var s := Fresh(maxRetries, policy);
    WaitPerGrant(s, es, wait, longest, n);
    Bookkeeping(maxRetries, policy, es, n);
    FewerIsLess(WaitSinceReset(s, es, n, wait), GrantsSinceReset(s, es, n), maxRetries, longest);
  }

  lemma {:induction false} WaitIsAtMostLongest(policy: RetryPolicy)
    ensures WaitsAtMost(Wait, policy, LongestWait(policy))
  {
  }

  /** However the network behaves, the waits handed out between two resets add up to a bounded total. */
  lemma {:induction false} TotalWaitIsBounded(maxRetries: nat, policy: RetryPolicy, es: seq<Event>, n: nat)
    requires n <= |es|
    ensures WaitSinceReset(Fresh(maxRetries, policy), es, n, Wait) <= maxRetries as real * LongestWait(policy)
  {
    WaitIsAtMostLongest(policy);
    BudgetTimesLongest(maxRetries, policy, es, n, Wait, LongestWait(policy));
  }
}
