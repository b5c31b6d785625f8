/** The retry orchestrator: one retry engine shared by all jobs, deciding after each failure whether a job
    becomes Pending again or Failed. */
module Orchestrator {
  import opened Collections
  import opened Clock
  import opened Jobs
  import opened RetryEngine
  import CircuitBreaker
  import Grants
  import opened Messages

  /** The engine's and the job's state after a failure of class `c`: the engine records it, one retry is taken
      from the budget if the engine grants one, and only then is the verdict decided. */
  function EngineAfterFailure(s: State, c: FailureClass, now: Instant): State {
    AfterNextDelay(AfterFailure(s, c, now), now)
  }

  function Verdict(s: State, job: Job, c: FailureClass, error: string, now: Instant): JobStatus {
    if !c.IsRetryable() then Failed(error)
    else if !ShouldRetry(EngineAfterFailure(s, c, now), now) || job.retryCount + 1 >= job.maxRetries then Failed(error)
    else Pending
  }

  function JobAfterFailure(s: State, job: Job, c: FailureClass, error: string, now: Instant): Job {
    job.(retryCount := job.retryCount + 1, status := Verdict(s, job, c, error, now))
  }

  class RetryOrchestrator {
    const engine: RetryState

    constructor (maxRetries: nat, policy: RetryPolicy)
      ensures fresh(engine) && engine.View() == Fresh(maxRetries, policy)
    {
      engine := new RetryState(maxRetries, policy);
    }

    /** `lower` is `error` after lower-casing; `delay` is what the published event announces. */
    method HandleFailure(job: Job, error: string, lower: string, now: Instant, jitter: Jitter)
      returns (updated: Job, delay: real)
      requires |engine.history| <= HISTORY_LIMIT
      modifies engine
      ensures engine.View() == EngineAfterFailure(old(engine.View()), Classify(lower), now)
      ensures updated == JobAfterFailure(old(engine.View()), job, Classify(lower), error, now)
      ensures match DelayGranted(AfterFailure(old(engine.View()), Classify(lower), now), now, jitter)
              case Some(granted) => delay == granted
              case None => delay == 0.0
      ensures |engine.history| <= HISTORY_LIMIT
    {
      var c := Classify(lower);
      engine.RecordFailure(lower, now);
      updated := job.(retryCount := job.retryCount + 1);
      var granted := engine.NextDelay(now, jitter);
      delay := match granted case Some(d) => d case None => 0.0;
      if !c.IsRetryable() {
        updated := updated.(status := Failed(error));
        return;
      }
      if !ShouldRetry(engine.View(), now) || updated.retryCount >= updated.maxRetries {
        updated := updated.(status := Failed(error));
        return;
      }
      updated := updated.(status := Pending);
    }

    method HandleSuccess(job: Job) returns (updated: Job)
      modifies engine
      ensures engine.View() == AfterSuccess(old(engine.View()))
      ensures updated == job.(status := Completed)
    {
      engine.RecordSuccess();
      updated := job.(status := Completed);
    }

    method NextRetryDelay(now: Instant, jitter: Jitter) returns (delay: Option<real>)
      modifies engine
      ensures engine.View() == AfterNextDelay(old(engine.View()), now)
      ensures delay == DelayGranted(old(engine.View()), now, jitter)
    {
      delay := engine.NextDelay(now, jitter);
    }
  }

  /** Exactly when a failure is answered with Pending: each such answer costs one attempt of the shared budget
      and must leave another one over. */
  lemma {:induction false} PendingExactlyWhen(s: State, job: Job, c: FailureClass, error: string, now: Instant)
    ensures Verdict(s, job, c, error, now) == Pending <==>
            && c != Permanent
            && s.attempt + 1 < s.maxRetries
            && job.retryCount + 1 < job.maxRetries
            && CircuitAllows(AfterFailure(s, c, now), now)
    ensures Verdict(s, job, c, error, now) != Pending ==> Verdict(s, job, c, error, now) == Failed(error)
  {
  }

  // ---- Whole runs: one engine, many jobs ----

  datatype Call =
    | Failure(job: JobId, class_: FailureClass, error: string)
    | Success(job: JobId)
    | NextRetry
    | Reset
    | Network(latencyMs: real, lossPct: real)

  datatype Event = Event(call: Call, now: Instant)

  datatype Shared = Shared(engine: State, jobs: map<JobId, Job>)

  function Step(s: Shared, e: Event): Shared {
    match e.call
    case Failure(id, c, error) =>
      Shared(EngineAfterFailure(s.engine, c, e.now),
             if id in s.jobs then s.jobs[id := JobAfterFailure(s.engine, s.jobs[id], c, error, e.now)] else s.jobs)
    case Success(id) =>
      Shared(AfterSuccess(s.engine), if id in s.jobs then s.jobs[id := s.jobs[id].(status := Completed)] else s.jobs)
    case NextRetry => s.(engine := AfterNextDelay(s.engine, e.now))
    case Reset => s.(engine := AfterReset(s.engine))
    case Network(latency, loss) => s.(engine := s.engine.(latencyMs := latency, lossPct := loss))
  }

  function At(s: Shared, es: seq<Event>, n: nat): Shared
    requires n <= |es|
  {
    if n == 0 then s else Step(At(s, es, n - 1), es[n - 1])
  }

  /** Event `i` is a failure of a known job that is answered with Pending. */
  predicate AnswersPending(s: Shared, es: seq<Event>, i: nat)
    requires i < |es|
  {
    match es[i].call
    case Failure(id, c, error) =>
      id in At(s, es, i).jobs && Verdict(At(s, es, i).engine, At(s, es, i).jobs[id], c, error, es[i].now) == Pending
    case _ => false
  }

  /** Pending answers among the events from `from` up to `n`. */
  function PendingAnswers(s: Shared, es: seq<Event>, from: nat, n: nat): nat
    requires from <= n <= |es|
  {
    if n == from then 0 else PendingAnswers(s, es, from, n - 1) + if AnswersPending(s, es, n - 1) then 1 else 0
  }

  function PendingAnswersFor(s: Shared, es: seq<Event>, id: JobId, n: nat): nat
    requires n <= |es|
  {
    if n == 0 then 0
    else PendingAnswersFor(s, es, id, n - 1)
         + if AnswersPending(s, es, n - 1) && es[n - 1].call.job == id then 1 else 0
  }

  function Max0(x: int): nat {
    if x < 0 then 0 else x
  }

  lemma {:induction false} EngineStep(s: Shared, e: Event)
    ensures Step(s, e).engine.maxRetries == s.engine.maxRetries
    ensures !e.call.Reset? ==> Step(s, e).engine.attempt >= s.engine.attempt
    ensures match e.call
            case Failure(id, c, error) =>
              id in s.jobs && Verdict(s.engine, s.jobs[id], c, error, e.now) == Pending ==>
                s.engine.attempt + 1 == Step(s, e).engine.attempt < s.engine.maxRetries
            case _ => true
  {
  }

  /** Every Pending answer has taken an attempt and left one over. */
  predicate WithinBudget(s: Shared, es: seq<Event>, from: nat, n: nat)
    requires from <= n <= |es|
  {
    && PendingAnswers(s, es, from, n) <= Max0(At(s, es, from).engine.maxRetries - 1)
    && PendingAnswers(s, es, from, n) <= At(s, es, n).engine.attempt - At(s, es, from).engine.attempt
    && At(s, es, n).engine.maxRetries == At(s, es, from).engine.maxRetries
  }

  lemma {:induction false} BudgetNext(s: Shared, es: seq<Event>, from: nat, n: nat)
    requires from <= n < |es| && !es[n].call.Reset? && WithinBudget(s, es, from, n)
    ensures WithinBudget(s, es, from, n + 1)
  {
    EngineStep(At(s, es, n), es[n]);
  }

  /** Between two resets all jobs together get at most `maxRetries - 1` Pending answers, whatever succeeds. */
  lemma {:induction false} GlobalBudget(s: Shared, es: seq<Event>, from: nat, n: nat)
    requires from <= n <= |es|
    requires forall k :: from <= k < n ==> !es[k].call.Reset?
    ensures WithinBudget(s, es, from, n)
  {
    if n > from {
      GlobalBudget(s, es, from, n - 1);
      BudgetNext(s, es, from, n - 1);
    }
  }

  lemma {:induction false} JobStep(s: Shared, e: Event, id: JobId)
    requires id in s.jobs
    ensures id in Step(s, e).jobs && Step(s, e).jobs[id].maxRetries == s.jobs[id].maxRetries
    ensures Step(s, e).jobs[id].retryCount ==
            s.jobs[id].retryCount + if e.call.Failure? && e.call.job == id then 1 else 0
    ensures e.call.Failure? && e.call.job == id ==>
              Step(s, e).jobs[id].status == Verdict(s.engine, s.jobs[id], e.call.class_, e.call.error, e.now)
    ensures !(e.call.Failure? && e.call.job == id) && !(e.call.Success? && e.call.job == id) ==>
              Step(s, e).jobs[id] == s.jobs[id]
  {
  }

  function FailuresOf(es: seq<Event>, id: JobId, n: nat): nat
    requires n <= |es|
  {
    if n == 0 then 0
    else FailuresOf(es, id, n - 1) + if es[n - 1].call.Failure? && es[n - 1].call.job == id then 1 else 0
  }

  /** A job's own counter: it counts every failure, and allows at most `maxRetries - 1` Pending answers. */
  lemma {:induction false} JobBudget(s: Shared, es: seq<Event>, id: JobId, n: nat)
    requires n <= |es| && id in s.jobs && s.jobs[id].retryCount == 0
    ensures id in At(s, es, n).jobs && At(s, es, n).jobs[id].maxRetries == s.jobs[id].maxRetries
    ensures At(s, es, n).jobs[id].retryCount == FailuresOf(es, id, n)
    ensures PendingAnswersFor(s, es, id, n) <= FailuresOf(es, id, n)
    ensures PendingAnswersFor(s, es, id, n) <= Max0(s.jobs[id].maxRetries - 1)
  {
    if n > 0 {
      JobBudget(s, es, id, n - 1);
      JobStep(At(s, es, n - 1), es[n - 1], id);
      if AnswersPending(s, es, n - 1) && es[n - 1].call.job == id {
        var before := At(s, es, n - 1);
        PendingExactlyWhen(before.engine, before.jobs[id], es[n - 1].call.class_, es[n - 1].call.error, es[n - 1].now);
      }
    }
  }

  /** A permanent failure leaves its job Failed with that error and is not counted, but it takes an attempt from the
      other jobs whenever the engine still grants one. */
  lemma {:induction false} PermanentFailureIsFinal(s: Shared, e: Event)
    requires e.call.Failure? && e.call.class_ == Permanent && e.call.job in s.jobs
    ensures Step(s, e).jobs[e.call.job].status == Failed(e.call.error)
    ensures Step(s, e).engine.failures == s.engine.failures
    ensures Step(s, e).engine.attempt
            == s.engine.attempt + if ShouldRetry(AfterFailure(s.engine, Permanent, e.now), e.now) then 1 else 0
  {
  }

  lemma {:induction false} StepKeepsClosedBelow(s: Shared, e: Event)
    requires s.engine.policy.Threshold() >= 1 && CircuitBreaker.ClosedBelowThreshold(s.engine)
    ensures CircuitBreaker.ClosedBelowThreshold(Step(s, e).engine)
    ensures Step(s, e).engine.policy == s.engine.policy
  {
  }

  lemma {:induction false} SharedClosedBelow(maxRetries: nat, policy: RetryPolicy, jobs: map<JobId, Job>,
                                             es: seq<Event>, n: nat)
    requires n <= |es| && policy.Threshold() >= 1
    ensures CircuitBreaker.ClosedBelowThreshold(At(Shared(Fresh(maxRetries, policy), jobs), es, n).engine)
    ensures At(Shared(Fresh(maxRetries, policy), jobs), es, n).engine.policy == policy
  {
    if n > 0 {
      SharedClosedBelow(maxRetries, policy, jobs, es, n - 1);
      StepKeepsClosedBelow(At(Shared(Fresh(maxRetries, policy), jobs), es, n - 1), es[n - 1]);
    }
  }

  /** In every run a permanent failure moves the breaker that all jobs share if and only if the circuit is half-open
      or its cooldown has just run out. From half-open it takes no attempt when there is a cooldown: it reopens the
      circuit, and every job is refused until another cooldown has passed. */
  lemma {:induction false} PermanentFailureMovesCircuitIff(maxRetries: nat, policy: RetryPolicy, jobs: map<JobId, Job>,
                                                           es: seq<Event>, n: nat, now: Instant)
    requires n <= |es| && policy.Threshold() >= 1
    ensures
      var s := At(Shared(Fresh(maxRetries, policy), jobs), es, n).engine;
      var after := EngineAfterFailure(s, Permanent, now);
      && (after.circuit != s.circuit <==>
          s.circuit.HalfOpen? || (s.circuit.Open? && Elapsed(s.circuit.since, now) >= policy.Cooldown()))
      && (s.circuit.HalfOpen? ==> after.circuit == Open(now))
      && (s.circuit.HalfOpen? && policy.Cooldown() > 0.0 ==> after.attempt == s.attempt)
      && (s.circuit.HalfOpen? ==> forall t :: ShouldRetry(after, t) ==> Elapsed(now, t) >= policy.Cooldown())
      && (s.circuit.Open? && after.circuit != s.circuit ==> after.circuit == HalfOpen)
  {
    SharedClosedBelow(maxRetries, policy, jobs, es, n);
  }

  /** Once the shared budget is down to its last attempt, no failure is ever answered with Pending again until
      somebody resets the engine, no matter how many jobs succeed. */
  lemma {:induction false} ExhaustedForGood(s: Shared, es: seq<Event>, from: nat, n: nat)
    requires from <= n < |es|
    requires forall k :: from <= k < n ==> !es[k].call.Reset?
    requires At(s, es, from).engine.attempt + 1 >= At(s, es, from).engine.maxRetries
    ensures At(s, es, n).engine.attempt + 1 >= At(s, es, n).engine.maxRetries
    ensures !AnswersPending(s, es, n)
  {
    if n > from {
      ExhaustedForGood(s, es, from, n - 1);
      EngineStep(At(s, es, n - 1), es[n - 1]);
    }
    EngineStep(At(s, es, n), es[n]);
  }

  /** The jobs in `ids` fail in turn, each failure followed by a success of `other`, all at one clock reading. */
  function Alternating(ids: seq<JobId>, other: JobId): seq<Event> {
    if ids == [] then []
    else Alternating(ids[..|ids| - 1], other)
         + [Event(Failure(ids[|ids| - 1], Transient, ""), 0.0), Event(Success(other), 0.0)]
  }

  lemma {:induction false} AtPrefix(s: Shared, es: seq<Event>, more: seq<Event>, n: nat)
    requires n <= |es|
    ensures At(s, es + more, n) == At(s, es, n)
    ensures PendingAnswers(s, es + more, 0, n) == PendingAnswers(s, es, 0, n)
  {
    if n > 0 {
      AtPrefix(s, es, more, n - 1);
      assert (es + more)[n - 1] == es[n - 1];
    }
  }

  /** No failure is remembered, and every job named may still fail as often as it is named. */
  predicate CanAfford(s: Shared, ids: seq<JobId>) {
    && s.engine.circuit.Closed? && s.engine.failures == 0 && s.engine.policy.Threshold() >= 2
    && s.engine.attempt + |ids| < s.engine.maxRetries
    && forall id :: id in ids ==> id in s.jobs && s.jobs[id].retryCount + multiset(ids)[id] < s.jobs[id].maxRetries
  }

  /** The failures of `ids` later everything else that matters is as it was. */
  predicate Spent(s: Shared, s': Shared, ids: seq<JobId>) {
    && s'.engine.circuit.Closed? && s'.engine.failures == 0
    && s'.engine.policy == s.engine.policy && s'.engine.maxRetries == s.engine.maxRetries
    && s'.engine.attempt == s.engine.attempt + |ids|
    && forall id :: id in s.jobs ==>
         && id in s'.jobs && s'.jobs[id].maxRetries == s.jobs[id].maxRetries
         && s'.jobs[id].retryCount == s.jobs[id].retryCount + multiset(ids)[id]
  }

  lemma {:induction false} RoundAnswersPending(s: Shared, id: JobId, other: JobId)
    requires CanAfford(s, [id])
    ensures Verdict(s.engine, s.jobs[id], Transient, "", 0.0) == Pending
    ensures Spent(s, Step(Step(s, Event(Failure(id, Transient, ""), 0.0)), Event(Success(other), 0.0)), [id])
  {
  }

  lemma {:induction false} TwoMoreEvents(s: Shared, es: seq<Event>, n: nat)
    requires n + 2 == |es|
    ensures At(s, es, n + 2) == Step(Step(At(s, es, n), es[n]), es[n + 1])
    ensures PendingAnswers(s, es, 0, n + 2) == PendingAnswers(s, es, 0, n)
            + (if AnswersPending(s, es, n) then 1 else 0) + (if AnswersPending(s, es, n + 1) then 1 else 0)
  {
  }

  lemma {:induction false} FewerAreAffordable(s: Shared, ids: seq<JobId>, id: JobId)
    requires CanAfford(s, ids + [id])
    ensures CanAfford(s, ids)
  {
    assert multiset(ids + [id]) == multiset(ids) + multiset{id};
    assert forall x :: x in ids ==> x in ids + [id];
  }

  lemma {:induction false} SpentLeavesRoom(s: Shared, s': Shared, ids: seq<JobId>, id: JobId)
    requires CanAfford(s, ids + [id]) && Spent(s, s', ids)
    ensures CanAfford(s', [id])
  {
    assert multiset(ids + [id]) == multiset(ids) + multiset{id};
    assert id in ids + [id];
  }

  lemma {:induction false} SpentTogether(s: Shared, s': Shared, s'': Shared, ids: seq<JobId>, id: JobId)
    requires Spent(s, s', ids) && Spent(s', s'', [id])
    ensures Spent(s, s'', ids + [id])
  {
    assert multiset(ids + [id]) == multiset(ids) + multiset{id};
  }

  lemma {:induction false} OneMoreFailure(s: Shared, es: seq<Event>, ids: seq<JobId>, id: JobId, other: JobId)
    requires CanAfford(s, ids + [id])
    requires Spent(s, At(s, es, |es|), ids) && PendingAnswers(s, es, 0, |es|) == |ids|
    ensures
      var es' := es + [Event(Failure(id, Transient, ""), 0.0), Event(Success(other), 0.0)];
      Spent(s, At(s, es', |es'|), ids + [id]) && PendingAnswers(s, es', 0, |es'|) == |ids| + 1
  {
    var more := [Event(Failure(id, Transient, ""), 0.0), Event(Success(other), 0.0)];
    var s', n := At(s, es, |es|), |es|;
    AtPrefix(s, es, more, n);
    TwoMoreEvents(s, es + more, n);
    SpentLeavesRoom(s, s', ids, id);
    RoundAnswersPending(s', id, other);
    SpentTogether(s, s', Step(Step(s', more[0]), more[1]), ids, id);
  }

  /** The global bound is reached by any mixture of jobs that stay within their own limits, as different jobs do that
      fail once or twice each: every failure gets a Pending answer, up to `maxRetries - 1`, and the breaker never
      opens. */
  lemma {:induction false} BudgetIsReached(s: Shared, ids: seq<JobId>, other: JobId)
    requires CanAfford(s, ids)
    ensures
      var es := Alternating(ids, other);
      PendingAnswers(s, es, 0, |es|) == |ids| && Spent(s, At(s, es, |es|), ids)
  {
    if ids != [] {
      var before, id := ids[..|ids| - 1], ids[|ids| - 1];
      assert ids == before + [id];
      FewerAreAffordable(s, before, id);
      BudgetIsReached(s, before, other);
      OneMoreFailure(s, Alternating(before, other), before, id, other);
    }
  }

  /** With the defaults, five attempts of the engine and three of each job, four queued jobs reach it. */
  lemma {:induction false} DefaultBudgetIsReached(s: Shared, a: JobId, b: JobId, c: JobId, d: JobId)
    requires s.engine == Fresh(5, s.engine.policy) && s.engine.policy.Threshold() >= 2
    requires |{a, b, c, d}| == 4
    requires forall id :: id in {a, b, c, d} ==>
               id in s.jobs && s.jobs[id].retryCount == 0 && s.jobs[id].maxRetries == 3
    ensures exists es :: PendingAnswers(s, es, 0, |es|) == 4 == Max0(s.engine.maxRetries - 1)
  {
    BudgetIsReached(s, [a, b, c, d], a);
  }

  // ---- The same told from the calls alone ----

  /** What one call of the orchestrator asks of the engine. */
  function EngineCalls(e: Event): seq<CircuitBreaker.Event> {
    match e.call
    case Failure(_, c, _) =>
      [CircuitBreaker.Event(CircuitBreaker.Failure(c), e.now),
       CircuitBreaker.Event(CircuitBreaker.NextRetry(0.0), e.now)]
    case Success(_) => [CircuitBreaker.Event(CircuitBreaker.Success, e.now)]
    case NextRetry => [CircuitBreaker.Event(CircuitBreaker.NextRetry(0.0), e.now)]
    case Reset => [CircuitBreaker.Event(CircuitBreaker.Reset, e.now)]
    case Network(latency, loss) => [CircuitBreaker.Event(CircuitBreaker.Network(latency, loss), e.now)]
  }

  function AllEngineCalls(es: seq<Event>, n: nat): seq<CircuitBreaker.Event>
    requires n <= |es|
  {
    if n == 0 then [] else AllEngineCalls(es, n - 1) + EngineCalls(es[n - 1])
  }

  lemma {:induction false} EngineAfterMore(s: State, es: seq<CircuitBreaker.Event>,
                                           more: seq<CircuitBreaker.Event>, n: nat)
    requires n <= |es|
    ensures CircuitBreaker.At(s, es + more, n) == CircuitBreaker.At(s, es, n)
  {
    if n > 0 {
      EngineAfterMore(s, es, more, n - 1);
    }
  }

  lemma {:induction false} EngineAfterOne(s: State, es: seq<CircuitBreaker.Event>, e: CircuitBreaker.Event)
    ensures CircuitBreaker.At(s, es + [e], |es| + 1) == CircuitBreaker.Step(CircuitBreaker.At(s, es, |es|), e)
  {
    EngineAfterMore(s, es, [e], |es|);
  }

  lemma {:induction false} StepIsCalls(shared: Shared, e: Event)
    ensures
      var calls := EngineCalls(e);
      && 1 <= |calls| <= 2
      && var once := CircuitBreaker.Step(shared.engine, calls[0]);
         Step(shared, e).engine == if |calls| == 1 then once else CircuitBreaker.Step(once, calls[1])
  {
  }

  lemma {:induction false} EngineAfterSome(s: State, es: seq<CircuitBreaker.Event>, calls: seq<CircuitBreaker.Event>)
    requires 1 <= |calls| <= 2
    ensures
      var once := CircuitBreaker.Step(CircuitBreaker.At(s, es, |es|), calls[0]);
      CircuitBreaker.At(s, es + calls, |es + calls|)
      == if |calls| == 1 then once else CircuitBreaker.Step(once, calls[1])
  {
    EngineAfterOne(s, es, calls[0]);
    if |calls| == 2 {
      EngineAfterOne(s, es + [calls[0]], calls[1]);
      assert es + calls == es + [calls[0]] + [calls[1]];
    } else {
      assert calls == [calls[0]];
    }
  }

  /** The shared engine is where the calls so far bring an engine. */
  predicate RunsAsEngine(s: Shared, es: seq<Event>, n: nat)
    requires n <= |es|
  {
    At(s, es, n).engine == CircuitBreaker.At(s.engine, AllEngineCalls(es, n), |AllEngineCalls(es, n)|)
  }

  lemma {:induction false} RunsAsEngineNext(s: Shared, es: seq<Event>, n: nat)
    requires n < |es| && RunsAsEngine(s, es, n)
    ensures RunsAsEngine(s, es, n + 1)
  {
    StepIsCalls(At(s, es, n), es[n]);
    EngineAfterSome(s.engine, AllEngineCalls(es, n), EngineCalls(es[n]));
  }

  /** Whatever the jobs do, the shared engine runs as an engine does on those calls. */
  lemma {:induction false} SharedEngineRuns(s: Shared, es: seq<Event>, n: nat)
    requires n <= |es|
    ensures RunsAsEngine(s, es, n)
  {
    if n > 0 {
      SharedEngineRuns(s, es, n - 1);
      RunsAsEngineNext(s, es, n - 1);
    }
  }

  predicate MonotoneClock(es: seq<Event>) {
    forall i, j :: 0 <= i <= j < |es| ==> es[i].now <= es[j].now
  }

  predicate NoneAfter(calls: seq<CircuitBreaker.Event>, now: Instant) {
    forall i :: 0 <= i < |calls| ==> calls[i].now <= now
  }

  lemma {:induction false} MoreCallsAreMonotone(calls: seq<CircuitBreaker.Event>,
                                                more: seq<CircuitBreaker.Event>, now: Instant)
    requires CircuitBreaker.MonotoneClock(calls) && NoneAfter(calls, now)
    requires forall i :: 0 <= i < |more| ==> more[i].now == now
    ensures CircuitBreaker.MonotoneClock(calls + more) && NoneAfter(calls + more, now)
  {
  }

  lemma {:induction false} CallsAreMonotone(es: seq<Event>, n: nat)
    requires n <= |es| && MonotoneClock(es)
    ensures CircuitBreaker.MonotoneClock(AllEngineCalls(es, n))
    ensures n > 0 ==> NoneAfter(AllEngineCalls(es, n), es[n - 1].now)
  {
    if n > 0 {
      CallsAreMonotone(es, n - 1);
      assert n > 1 ==> es[n - 2].now <= es[n - 1].now;
      assert NoneAfter(AllEngineCalls(es, n - 1), es[n - 1].now);
      MoreCallsAreMonotone(AllEngineCalls(es, n - 1), EngineCalls(es[n - 1]), es[n - 1].now);
    }
  }

  /** The calls up to the failure in event `n`, and one more request for a retry. */
  function AskedAgain(es: seq<Event>, n: nat): seq<CircuitBreaker.Event>
    requires n < |es|
  {
    AllEngineCalls(es, n + 1) + [CircuitBreaker.Event(CircuitBreaker.NextRetry(0.0), es[n].now)]
  }

  lemma {:induction false} VerdictIsGrant(s: Shared, es: seq<Event>, n: nat)
    requires n < |es| && es[n].call.Failure? && es[n].call.job in At(s, es, n).jobs
    ensures
      var e, asked := es[n], AskedAgain(es, n);
      var job := At(s, es, n).jobs[e.call.job];
      AnswersPending(s, es, n) <==>
        && e.call.class_ != Permanent && job.retryCount + 1 < job.maxRetries
        && CircuitBreaker.Grants(CircuitBreaker.At(s.engine, asked, |asked| - 1), asked[|asked| - 1])
  {
    SharedEngineRuns(s, es, n + 1);
    EngineAfterMore(s.engine, AllEngineCalls(es, n + 1),
                    [CircuitBreaker.Event(CircuitBreaker.NextRetry(0.0), es[n].now)], |AllEngineCalls(es, n + 1)|);
  }

  /** In every run under a monotone clock a failure is answered with Pending if and only if it is not a permanent one,
      its job has a retry left, and one more retry would be granted: the attempts since the last reset leave one, and
      either the failures since the last success are below the threshold or the last opening is a cooldown ago. */
  lemma {:induction false} PendingIff(maxRetries: nat, policy: RetryPolicy, jobs: map<JobId, Job>,
                                      es: seq<Event>, n: nat)
    requires n < |es| && MonotoneClock(es) && Grants.ThresholdOf(policy) >= 1
    requires
      var s := Shared(Fresh(maxRetries, policy), jobs);
      es[n].call.Failure? && es[n].call.job in At(s, es, n).jobs
    ensures
      var s, e, asked := Shared(Fresh(maxRetries, policy), jobs), es[n], AskedAgain(es, n);
      var job := At(s, es, n).jobs[e.call.job];
      AnswersPending(s, es, n) <==>
        && e.call.class_ != Permanent && job.retryCount + 1 < job.maxRetries
        && CircuitBreaker.GrantsSinceReset(s.engine, asked, |asked| - 1) < maxRetries
        && Grants.CooledDown(asked, policy, |asked| - 1)
  {
    var asked := AskedAgain(es, n);
    VerdictIsGrant(Shared(Fresh(maxRetries, policy), jobs), es, n);
    CallsAreMonotone(es, n + 1);
    Grants.GrantedIff(maxRetries, policy, asked, |asked| - 1);
  }

  // ---- What becomes of jobs ----

  /** A success completes its own job and no other, and makes the engine forget its failures but not its attempts. */
  lemma {:induction false} SuccessCompletes(s: Shared, e: Event)
    requires e.call.Success? && e.call.job in s.jobs
    ensures Step(s, e).jobs.Keys == s.jobs.Keys
    ensures forall id :: id in s.jobs ==>
              Step(s, e).jobs[id] == if id == e.call.job then s.jobs[id].(status := Completed) else s.jobs[id]
    ensures Step(s, e).engine.circuit.Closed? && Step(s, e).engine.failures == 0
    ensures Step(s, e).engine.attempt == s.engine.attempt
  {
  }

  /** The first failing process of a fresh job, whatever its exit code, is answered with Pending, and counted. */
  lemma {:induction false} FirstExitIsPending(maxRetries: nat, policy: RetryPolicy, job: Job, code: int, now: Instant)
    requires -1 <= code <= 255 && maxRetries >= 2 && Grants.ThresholdOf(policy) >= 2
    requires job.retryCount == 0 && job.maxRetries >= 2
    ensures
      var error := ExitMessage(code);
      && JobAfterFailure(Fresh(maxRetries, policy), job, Classify(error), error, now)
         == job.(status := Pending, retryCount := 1)
      && EngineAfterFailure(Fresh(maxRetries, policy), Classify(error), now).failures == 1
  {
    ExitCodesAreTransient(code);
  }
}
