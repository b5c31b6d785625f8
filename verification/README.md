# NetGuardian: models and proofs

NetGuardian is a job-running daemon for unreliable networks. This project models the state that its correctness rests
on and proves properties of whole runs of it:

- **Retry control.** `RetryEngine` holds the timed circuit breaker, the attempt budget and the five backoff policies;
  `CircuitBreaker` proves what every run of one engine keeps; `Grants` tells from the calls alone when it opens, grants
  and how long a grant waits; `Messages` does so for the class of an error message; `Backoff` is the real arithmetic of
  the delays; `Orchestrator` shares one engine among all jobs.
- **Queue and dispatch.** `Jobs` and `Queue` are the status machine and the priority queue; `QueueCalls` tells from the
  statuses what each call does; `QueueOrder` says in which order jobs leave; `QueueRuns` covers every interleaving of
  producers, dispatchers and updaters; `Executor` adds any number of concurrent `execute_next` calls and the plugin
  manager's lock.
- **Cache.** `Eviction` is the eviction loop against a declarative specification with exactly one solution;
  `Retention` says what a put can push out; `Cache` is the manager; `CacheRuns` and `CacheDisk` are about whole runs
  and about the files on disk; `CacheUses` follows each entry through the gets that return it.
- **Companions.** `Rules` with `Conditions`, `Metrics`, `Scheduler`, `JobStore` (over `Persistence`) and `Plugins`.

Each manager method runs under one lock, so it is one atomic step; drawing a job id happens before the lock and is a
step of its own. The metrics engine does not wait for its lock: a call that finds it taken panics, which `Executor`
models for the calls of a worker, and `Metrics` is about the calls that get it. Objects the program updates in place
are classes whose methods are proved against functions of the old state, and the run theorems are about those
functions. A clock is read once per call and is monotone where a theorem says so, as Rust's `Instant` is. Durations and
`f64` are reals, jitter is any number in [0, 0.5). Error messages enter as their lower-cased text. Files are a map from
paths to sizes; which characters are alphanumeric is a parameter. RFC 3339 time stamps of one clock compare as strings
in the order of time, so `last_access` is a number.

## What the proofs found

- A non-zero exit code stops all work. `execute_next` keeps the plugin manager's lock (src/executor.rs:74) until it
  returns and asks for it again to call `handle_failure` (src/executor.rs:167), so it waits for itself, and no process
  is ever started again (`Executor.OneFailingJobStopsAllWork`). The same lock makes any `max_concurrent` above 0 behave
  like 1 (`Executor.AtMostOneProcess`).
- A good job can stop all work too: recording how it ended panics when a request for metrics or the monitor holds the
  metrics at that moment (src/metrics.rs:161), and that ends the one task that runs jobs
  (`Executor.OneCollisionStopsLoneWorker`). In the model of `execute_next` these two are
  the only causes (`Executor.WorkGoesOnIff`).
- A dispatched job never comes back. `dequeue` removes it (src/queue_manager.rs:64), so each `update_status` of
  `execute_next` finds nothing, the "re-enqueue for retry" of src/orchestrator.rs:107 reaches no queue, and no job is
  ever run twice (`Executor.NoJobRunsTwice`).
- The orchestrator's attempt budget is shared by all jobs, a success does not restore it, and nothing in the program
  resets it (`Orchestrator.GlobalBudget`, `Orchestrator.ExhaustedForGood`).
- Equal priorities are served newest first, and a job can be overtaken for ever (`QueueOrder.EqualPriorityStarves`).
- A failure reopens a half-open circuit even when it is a permanent one (`CircuitBreaker.HalfOpenReopensOnAnyFailure`),
  which refuses all jobs for another cooldown (`Orchestrator.PermanentFailureMovesCircuitIff`),
  and a threshold of 0 is the one setting for which "closed while below the threshold" is false.
- Reusing a cache file breaks the agreement of records and files, unless old and new entry are evicted together
  (`CacheDisk.PutMirrorsIff`).
- A rule's cooldown is measured from its oldest record, so it is not renewed by later firings
  (`Rules.CooldownIsNotRenewed`), and two firings can be less than a cooldown apart (`Rules.FiringsComeTooClose`), as
  they can when the log forgets the record altogether (`Rules.PushOutShortensCooldown`). When they cannot is said by
  `Rules.FiringsKeepDistanceIff`.
- A snapshot overwrites the total of the present state, and the next change of state adds the whole stretch to it
  again (`Metrics.SnapshotsMislead`). Every request for metrics or health takes one (src/ipc.rs:75-105). When the
  numbers are right all the same is said by `Metrics.SnapshotRightIff` and `Metrics.TotalsRightIff`.
- The overview promises that a success recovers concurrency; it does not end the cooldown
  (`Scheduler.SuccessMayRecoverNothing`, `Scheduler.SuccessRecoversIffCooledDown`).
- A plain save that fails on a clean job store is not noticed by the dirty flag (`JobStore.FailedSaveCoherentIff`);
  `save_if_dirty` never gets there. The plugin registry ignores every failed write (`Plugins.FailedWriteConsistentIff`).
- The queue's own tests (src/queue_manager.rs:244-267) rely on Pending->Failed and Pending->Paused, which
  src/job.rs:111-118 forbids. The model follows the code.

## Model

| member | source | states |
|---|---|---|
| RetryEngine.RetryState.NextDelay | src/retry_engine.rs:121-132 | grants a delay exactly when the budget and the circuit allow it at this reading, spends one attempt, and touches nothing else |
| RetryEngine.RetryState.RecordFailure | src/retry_engine.rs:134-153 | counts only retryable failures, keeps the last 100 records, then moves the circuit |
| RetryEngine.RetryState.UpdateCircuitState | src/retry_engine.rs:195-222 | the circuit's move on a failure, from each of its three states |
| RetryEngine.RetryState.RecordSuccess | src/retry_engine.rs:155-159 | closes the circuit and forgets failures, but leaves the attempts as they are |
| RetryEngine.RetryState.Reset | src/retry_engine.rs:173-175 | only the attempts go back to zero |
| CircuitBreaker.Bookkeeping | src/retry_engine.rs:107-159 | in every reachable state each counter, the history and the last class are what the events so far say, and attempts never pass the limit |
| CircuitBreaker.ClosedIffBelow | src/retry_engine.rs:138-140 | in every reachable state the circuit is closed exactly while retryable failures since the last success are below the threshold, for thresholds of at least 1 |
| CircuitBreaker.ClosedBelowThresholdIffPositive | src/retry_engine.rs:195-206 | that invariant holds over all runs if and only if the threshold is positive |
| CircuitBreaker.HalfOpenReopensOnAnyFailure | src/retry_engine.rs:216-220 | any recorded failure, also a permanent one, reopens a half-open circuit |
| CircuitBreaker.OpeningsAreSpaced | src/retry_engine.rs:181-222 | without a success in between, two openings of the circuit are at least a cooldown apart |
| CircuitBreaker.NoGrantDuringCooldown | src/retry_engine.rs:121-132 | without a success in between, no retry is granted less than a cooldown after an opening |
| CircuitBreaker.OpeningsAreEarned | src/retry_engine.rs:201-221 | threshold times openings from closed, plus two per reopening, never exceeds the recorded failures |
| CircuitBreaker.TotalWaitIsBounded | src/retry_engine.rs:224-262 | all waits between two resets add up to at most max_retries times the policy's longest wait |
| Grants.OpensIff | src/retry_engine.rs:195-222 | in every run the circuit opens at exactly the retryable failures that reach the threshold and at the first failure after one that came a cooldown after the last opening |
| Grants.GrantedIff | src/retry_engine.rs:121-132 | in every run under a monotone clock a retry is granted if and only if the budget is not spent and either the failures since the last success are below the threshold or the last opening is a cooldown ago |
| Grants.GrantedDelayIs | src/retry_engine.rs:224-262 | in every run the wait of a granted retry, for each of the five policies, from the number of grants since the reset, the measurements in force and the failures since the last success |
| Messages.ClassByWords | src/retry_engine.rs:51-70 | a message has the class of the first group of words, in order, of which it contains one, and is transient without |
| Messages.PermanentIff | src/retry_engine.rs:51-79 | a message is not retried if and only if it has one of the six permanent words and none of the nine checked before them |
| Messages.ExitMessageClass | src/executor.rs:165 | a reported exit code is permanent exactly when its number contains 401, 403 or 404, and not 429 |
| Messages.ExitCodesAreTransient | src/executor.rs:165 | every code a process can end with, -1 for a killed one included, is reported as a transient failure |
| Backoff.BaseDelayNonDecreasing | src/retry_engine.rs:228-256 | the capped delay before jitter never shrinks as attempts go on, and stays between zero and the cap |
| Backoff.Bernoulli | src/retry_engine.rs:229 | Bernoulli's inequality for the exponential factor |
| Backoff.BackoffSaturates | src/retry_engine.rs:228-256 | a growing backoff equals its cap from a computable attempt on, whatever the penalties are |
| Backoff.SmartPenaltyRange | src/retry_engine.rs:237-246 | the Smart factor lies between 1 and 18 |
| Backoff.SmartPenaltyExtremes | src/retry_engine.rs:237-246 | exactly when the Smart factor takes each end of that range |
| Backoff.AdaptivePenaltyRange | src/retry_engine.rs:231-236 | the Adaptive factor lies between 1 and 1 plus five times the sum of the weights |
| Backoff.AdaptiveHearsEachWeight | src/retry_engine.rs:233-235 | latency acts only through its own weight and loss only through its own, each up to five times |
| Backoff.WorseNeverWaitsLess | src/retry_engine.rs:224-246 | at one attempt, more failures, a half-open circuit or a worse network never shorten the delay |
| Backoff.GrantedDelayInRange | src/retry_engine.rs:249-262 | every delay handed out lies between its jitter and the cap plus half a second |
| Orchestrator.RetryOrchestrator.HandleFailure | src/orchestrator.rs:44-109 | the engine and job after a failure: recorded, one retry taken while announcing it, then the verdict |
| Orchestrator.RetryOrchestrator.HandleSuccess | src/orchestrator.rs:111-113 | the job is Completed and the shared engine forgets its failures |
| Orchestrator.PendingExactlyWhen | src/orchestrator.rs:65-108 | a failure is answered with Pending if and only if it is retryable, both budgets leave one over and the circuit allows it; otherwise the job is Failed with that error |
| Orchestrator.SharedEngineRuns | src/orchestrator.rs:44-136 | the shared engine of every run is an engine run on the calls the orchestrator makes of it |
| Orchestrator.PendingIff | src/orchestrator.rs:44-109 | in every run under a monotone clock a failure is answered with Pending if and only if it is not permanent, its job has a retry left, the attempts since the last reset leave one, and the breaker, told from the calls, allows it |
| Orchestrator.FirstExitIsPending | src/executor.rs:163-168 | the first failing process of a fresh job on a fresh engine, whatever its exit code, is answered with Pending and counted |
| Orchestrator.SuccessCompletes | src/orchestrator.rs:111-113 | a success completes its own job and no other, and the engine forgets its failures but not its attempts |
| Orchestrator.GlobalBudget | src/orchestrator.rs:44-113 | between two engine resets all jobs together get at most max_retries - 1 Pending answers, successes notwithstanding |
| Orchestrator.BudgetIsReached | src/orchestrator.rs:44-113 | that bound is attained by any mixture of jobs that stay within their own limits: every one of their failures gets a Pending answer up to max_retries - 1 |
| Orchestrator.DefaultBudgetIsReached | src/storage.rs:171 | with the default of 5 attempts, four queued jobs of limit 3 attain the bound of 4 |
| Orchestrator.ExhaustedForGood | src/orchestrator.rs:86-105 | once one attempt is left, no failure is answered with Pending until a reset |
| Orchestrator.JobBudget | src/orchestrator.rs:54-108 | a job's own counter counts its failures and allows at most its max_retries - 1 Pending answers |
| Orchestrator.PermanentFailureIsFinal | src/orchestrator.rs:65-84 | a permanent failure ends Failed, is not counted by the breaker, and still costs the others one attempt whenever the engine grants it |
| Orchestrator.PermanentFailureMovesCircuitIff | src/retry_engine.rs:195-222 | in every run a permanent failure moves the shared circuit if and only if it is half-open or its cooldown has run out; from half-open it reopens it and all jobs are refused for a cooldown |
| Queue.BestOf | src/queue_manager.rs:55-61 | the last of the Pending jobs of highest priority, or none if and only if nothing is Pending |
| Queue.QueueManager.Enqueue | src/queue_manager.rs:38-51 | the new Pending job goes to the back |
| Queue.QueueManager.Dequeue | src/queue_manager.rs:53-70 | removes that job from the queue and hands it out as Running |
| Queue.QueueManager.UpdateStatus | src/queue_manager.rs:72-80 | true exactly when the id is queued, even if the transition is forbidden and nothing changes |
| Queue.QueueManager.RetryFailed | src/queue_manager.rs:125-140 | every Failed job with retries left becomes Pending with one retry more, the others stay, and exactly their ids are returned in order |
| Queue.QueueManager.ResumeAll | src/queue_manager.rs:142-154 | every Paused job becomes Pending, the others stay, and exactly their ids are returned in order |
| Queue.QueueManager.Remove | src/queue_manager.rs:82-87 | drops the jobs with that id and says whether there were any |
| Queue.QueueManager.ClearCompleted | src/queue_manager.rs:156-163 | drops the Completed jobs and returns their number |
| Queue.QueueManager.Stats | src/queue_manager.rs:99-123 | each number is the count of its status, and together with the Cancelled jobs they make up the total |
| QueueCalls.UpdateEffect | src/queue_manager.rs:72-80 | an update takes effect on exactly the listed pairs of statuses of the first job with that id, and changes nothing else |
| QueueCalls.CancelIsFinal | src/executor.rs:254-264 | in every run a Pending, Running or Paused job that is cancelled is Cancelled until it is removed, and is never handed out again |
| QueueCalls.DequeueEffect | src/queue_manager.rs:53-70 | what is taken is a Pending job with no more urgent one anywhere and no equally urgent one behind it, handed out Running; all others stay in order |
| QueueCalls.EditEffects | src/queue_manager.rs:125-154 | retry_failed makes exactly the Failed jobs with retries left Pending with one retry more, resume_all exactly the Paused ones, and nothing is left to do for either |
| QueueCalls.DropEffects | src/queue_manager.rs:82-87 | a removal drops exactly the jobs with that id, clearing exactly the Completed ones |
| QueueCalls.ReturnedIds | src/queue_manager.rs:125-154 | the returned ids are those of exactly these jobs, in queue order |
| QueueCalls.CountsAreOfStatuses | src/queue_manager.rs:99-123 | the six counts are the numbers of jobs with each status |
| QueueOrder.DrainIsPriorityOrder | src/queue_manager.rs:53-70 | draining returns exactly the Pending jobs by descending priority, each priority from back to front, and leaves the others in place and order |
| QueueOrder.ServedWhenLineEmpties | src/queue_manager.rs:38-70 | for every script of arrivals and takes, a Pending job leaves at exactly the take a simple waiting line predicts, after at least as urgent jobs only, or is still there |
| QueueOrder.TakenAtItsRank | src/queue_manager.rs:53-70 | a job with k jobs ahead is the result of exactly the (k+1)-th take while only lower priorities arrive |
| QueueOrder.EqualPriorityStarves | src/queue_manager.rs:60 | a steady stream of equal priority keeps a job waiting for ever |
| QueueRuns.AlwaysPartitioned | src/job.rs:74 | in every interleaving the drawn ids split exactly into waiting to be pushed, queued, dispatched and discarded, without repetition |
| QueueRuns.DispatchedAtMostOnce | src/queue_manager.rs:53-70 | no id is handed out twice in any run |
| QueueRuns.ReportOnOwnJobIsLost | src/executor.rs:81-194 | an update on a dispatched job finds nothing and changes nothing, at any later time |
| QueueRuns.QueuedJobComesFrom | src/job.rs:111-127 | every step moves a queued job along can_transition, Failed to Pending with a retry counted, or Paused to Pending, and nothing else |
| QueueRuns.HistoryIsPath | src/job.rs:111-127 | in every run the whole status history of a queued job is a path of those moves, starting with its push as a fresh Pending job |
| QueueRuns.RetriesAlwaysAccounted | src/queue_manager.rs:125-140 | a job's retry count never passes its limit and equals its returns from Failed; it enters Failed at most four times, one more than its limit of 3 |
| QueueRuns.FinishedStaysFinished | src/job.rs:111-118 | a Completed or Cancelled job keeps its status while it stays and is never dispatched |
| Executor.OutcomeLeavesQueue | src/executor.rs:76-198 | whatever becomes of a plugin lookup, a spawn or a process, the queue does not change |
| Executor.AtMostOneProcess | src/executor.rs:74-202 | however many workers run, at most one has a process at any time |
| Executor.NonZeroExitStopsAllWork | src/executor.rs:163-173 | after a non-zero exit code within the hour the worker never moves again and no process is ever started again, whatever follows |
| Executor.FateIffExitOrCollision | src/executor.rs:74-202 | in every run a worker waits for its own lock if and only if it has polled a non-zero exit code before the timeout, and has crashed if and only if it has found the metrics in use when recording an operation |
| Executor.LaunchEffect | src/executor.rs:77-111 | a process is started exactly when the plugin is known and can be spawned; otherwise the worker is through and the plugin manager is free, with nothing recorded for an unknown plugin |
| Executor.PollEffect | src/executor.rs:123-202 | what each result of a poll does, before and after the hour: nothing, waiting for the own lock, or the end that gives the plugin manager back |
| Executor.OtherEffects | src/executor.rs:55-74 | an idle worker takes the next job if there is one |
| Executor.WorkGoesOnIff | src/executor.rs:74-202 | in every run another process can still be started if and only if no process has exited with a non-zero code before its timeout and some worker has never found the metrics in use when recording an operation |
| Executor.OneFailingJobStopsAllWork | src/executor.rs:163-173 | after one job of one worker with exit code 1 nothing can be started |
| Executor.OneCollisionStopsLoneWorker | src/metrics.rs:161 | after one job of one worker that ends well while somebody else is using the metrics nothing can be started |
| Executor.NoJobRunsTwice | src/executor.rs:55-111 | in every run the processes ever started belong to distinct jobs |
| Eviction.EvictionRefinesSpec | src/cache_manager.rs:130-134 | the loop keeps exactly what remains after dropping the shortest prefix in the order (access count, last access, position) that makes the rest fit, in the old order, and removes all else |
| Eviction.EvictionIsUnique | src/cache_manager.rs:247-263 | that specification has only one solution |
| Retention.PutKeepsAccessed | src/cache_manager.rs:117-134 | a put into a cache that fits evicts no entry that was ever read |
| Retention.NewcomerSurvivesIffFits | src/cache_manager.rs:117-134 | the new entry survives exactly when it fits beside all entries ever read; otherwise only those survive |
| Cache.CacheManager.Get | src/cache_manager.rs:79-96 | returns the first listed entry whose file exists, as it was before the hit is recorded; counts a hit or a miss |
| Cache.CacheManager.Put | src/cache_manager.rs:98-137 | on success the file and the entry are there before the eviction loop runs; a failed write adds no entry and may leave anything in its file |
| Cache.CacheManager.PutPath | src/cache_manager.rs:139-180 | as a put, with the size read from the source, which may lie in the cache directory; a copy onto itself leaves an empty file; an unreadable source changes nothing |
| Cache.CacheManager.EvictWhileOver | src/cache_manager.rs:130-134 | the loop ends with the cache within its bound and never takes its break |
| Cache.CacheManager.EvictOne | src/cache_manager.rs:247-263 | removes the victim and its file, and fails exactly on an empty cache |
| Cache.CacheManager.Remove | src/cache_manager.rs:182-194 | drops all entries of that key and type with their files and says whether there were any |
| Cache.CacheManager.Contains | src/cache_manager.rs:196-202 | true exactly when the next get hits |
| Cache.CacheManager.Clear | src/cache_manager.rs:229-235 | no entry is left and every listed file is gone |
| Cache.CacheManager.Stats | src/cache_manager.rs:204-227 | each type's number and size are those of the list of that type |
| Cache.GetEffect | src/cache_manager.rs:79-96 | a get returns the first entry with exactly that key and type whose file is there, and nothing exactly when there is none |
| Cache.RemoveEffect | src/cache_manager.rs:182-194 | exactly the entries of that key and type go, and exactly their files |
| Cache.CopyEffect | src/cache_manager.rs:148-160 | what can be read as the source of a copy, and how much the copy holds |
| Cache.BrokenEffect | src/cache_manager.rs:113 | a failed write touches its own file and nothing else |
| Cache.FileOfKey | src/cache_manager.rs:281-292 | a file lies in the directory of its type, under its key with every unsafe character replaced, and a suffix |
| Cache.TypesAddUp | src/cache_manager.rs:204-245 | the six types together account for every entry and every byte |
| Cache.SamePathIff | src/cache_manager.rs:281-292 | two keys share a file if and only if they have the same type and length and agree after mapping each character |
| Cache.TypeNamesDiffer | src/cache_manager.rs:16-27 | type directories never clash |
| CacheRuns.AlwaysFits | src/cache_manager.rs:130-134 | in every run from an empty cache the total size is within the bound |
| CacheRuns.NoPutEvictsAccessed | src/cache_manager.rs:98-180 | in every run no successful put evicts an entry with an access |
| CacheRuns.PutSurvivesIff | src/cache_manager.rs:98-180 | under a monotone clock the new entry is still there exactly when its size plus the size of the accessed entries is within the bound |
| CacheRuns.HitsAreConserved | src/cache_manager.rs:79-96 | hits equal the access counts of live entries plus those of entries since gone, and hits and misses add up to the gets |
| CacheUses.LastAccessIsLastUse | src/cache_manager.rs:79-96 | in every run each live entry is labelled with its put and the gets that returned it: its last access is the time of the last of these, its access count the number of the gets |
| CacheUses.EvictedWasLessUsed | src/cache_manager.rs:247-263 | in every run what a put evicts was returned by fewer gets than what it keeps, or by as many and was not used later |
| CacheDisk.AlwaysMirrors | src/cache_manager.rs:79-263 | over an empty directory, without reuse of a live entry's file and with failed writes that leave the files alone, entries and files correspond one to one with equal sizes |
| CacheDisk.DiskUseIsBounded | src/cache_manager.rs:98-202 | in such runs disk use equals the recorded total and is within the bound, and a key is found exactly when it is listed |
| CacheDisk.PutMirrorsIff | src/cache_manager.rs:98-180 | after any successful put the correspondence holds if and only if its file was unused, or its old entry was never read and the new one does not fit |
| CacheDisk.FailedPutMirrorsIff | src/cache_manager.rs:107-113 | after a failed put the correspondence holds if and only if the files are exactly as they were |
| Rules.RuleEngine.Evaluate | src/rule_engine.rs:124-167 | the loop's results and log are those of checking each rule against the log its predecessors left |
| Rules.RuleEngine.LoadDefaults | src/rule_engine.rs:169-231 | the six default rules are added, in order |
| Conditions.EvaluatesAsRead | src/rule_engine.rs:77-94 | every condition has the value it reads: leaves by the fields of the status, And, Or and Not by all, some and none of their parts, true and false told apart |
| Conditions.AboveExcludesBelow | src/rule_engine.rs:81-84 | above and below exclude each other, and both are false exactly at the threshold |
| Conditions.DefaultRulesFire | src/rule_engine.rs:169-231 | which of the six default rules a fresh engine returns, in order, for every network status |
| Conditions.FiredRulesRest | src/rule_engine.rs:134-142 | after a first evaluation a rule with a distinct name may fire again exactly when it did not fire or its cooldown has passed |
| Conditions.DefaultsRest | src/rule_engine.rs:47-60 | the default rules rest for half a minute |
| Conditions.EvaluationsNameRules | src/rule_engine.rs:152-162 | each evaluation names a rule that fired, in the same order, and lists its actions |
| Rules.EvaluationReadsStartLog | src/rule_engine.rs:129-164 | with distinct names and room in the log, exactly the enabled, cooled-down, matching rules of the starting log fire, in order, each recorded once |
| Rules.LogStaysSorted | src/rule_engine.rs:146-150 | under a monotone clock the log stays sorted by time and at most 1000 long |
| Rules.CooledIff | src/rule_engine.rs:134-142 | a rule may fire exactly when the whole cooldown has passed since its oldest record in the log |
| Rules.LogAtIsWindow | src/rule_engine.rs:146-150 | after any rounds the log is the last 1000 of the starting log and all firings since |
| Rules.FiredAtCheck | src/rule_engine.rs:129-164 | whether a rule is among those that fire is decided by the log its predecessors in the round left |
| Rules.CooldownIsNotRenewed | src/rule_engine.rs:134-142 | until enough firings have pushed its first record out of the log, a rule fires at exactly those checks at which it is enabled and matches and a cooldown has passed since that first record |
| Rules.FiringsKeepDistanceIff | src/rule_engine.rs:134-150 | after every run under a monotone clock, and over every continuation with a bounded number of other firings, the next firing of a rule is sure to be a cooldown after all its firings in the log if and only if it can never fire, or all of them are a cooldown old already, or all came at one time and so many other firings cannot push the last of them out |
| Rules.FiringsComeTooClose | src/rule_engine.rs:134-142 | three rounds of one rule, with two firings half a cooldown apart |
| Rules.PushOutShortensCooldown | src/rule_engine.rs:146-150 | a rule fires half a cooldown after its only firing, because a thousand firings of another rule came in between |
| Metrics.MetricsEngine.RecordOnline | src/metrics.rs:124-135 | the first online report after offline adds the downtime and one reconnect; a redundant one changes nothing |
| Metrics.MetricsEngine.RecordOffline | src/metrics.rs:137-146 | the first offline report after online adds the uptime; a redundant one changes nothing |
| Metrics.MetricsEngine.RecordConnectivity | src/metrics.rs:112-122 | both windows hold the last 1000 samples |
| Metrics.MetricsEngine.RecordOperation | src/metrics.rs:148-172 | counts by outcome and keeps the last 10000 operations |
| Metrics.MetricsEngine.Snapshot | src/metrics.rs:195-205 | reports the totals after overwriting the one of the current state |
| Metrics.FieldsTrackStretch | src/metrics.rs:124-146 | in every run of reports and snapshots the fields hold the start of the running stretch; the reconnects are listed with their times, counted alike, and lead the losses by one while online |
| Metrics.CountedIsTimePlusDrift | src/metrics.rs:124-205 | a total with the running stretch is the time really spent in its state, plus what the last snapshot taken in that state counted twice, minus what it forgot |
| Metrics.TotalsRightIff | src/metrics.rs:124-205 | a total with the running stretch is the time really spent in its state if and only if no snapshot was taken in that state, or the last one came as long after its stretch began as all earlier stretches had lasted |
| Metrics.TotalsSpanTheRun | src/metrics.rs:124-146 | at every change of state uptime plus downtime is the time since the first online report, but for those two drifts, which are 0 without snapshots |
| Metrics.SnapshotRightIff | src/metrics.rs:195-205 | in every run a snapshot is right about the present state if and only if no time was spent in it before this stretch, and about the other one if and only if that total is undisturbed |
| Metrics.SnapshotsMislead | src/metrics.rs:198-205 | three runs in which uptime is forgotten, downtime is forgotten, and uptime is counted twice |
| Scheduler.AdaptiveScheduler.SuggestConcurrency | src/adaptive_scheduler.rs:85-112 | the suggestion for the current failures, cooldown and measurements |
| Scheduler.AdaptiveScheduler.RecordActive | src/adaptive_scheduler.rs:114-121 | the counter moves by the delta and saturates at both ends |
| Scheduler.ActiveIsReflectedWalk | src/adaptive_scheduler.rs:114-121 | the counter is the running sum minus its lowest prefix, while it does not saturate above |
| Scheduler.SuggestionInRangeIff | src/adaptive_scheduler.rs:105-111 | every suggestion lies within the limits if and only if the limits are in order |
| Scheduler.SuggestionIs | src/adaptive_scheduler.rs:85-112 | the suggestion is the setting for the network, told from status, latency and loss, less the slots lost to failures, within the limits, and the minimum in the cooldown |
| Scheduler.InCooldownIff | src/adaptive_scheduler.rs:101-103 | the cooldown runs from the last failure for the configured time |
| Scheduler.SuggestionMonotone | src/adaptive_scheduler.rs:85-137 | with ordered settings a worse status, latency, loss or failure count never raises the suggestion |
| Scheduler.PenaltyIsHalfCappedAtTwo | src/adaptive_scheduler.rs:95-99 | every second failure costs one slot, at most two |
| Scheduler.SuccessRecoversIffCooledDown | src/adaptive_scheduler.rs:85-137 | after a success the suggestion is that of a network without failures if and only if the cooldown has run out or that suggestion is the minimum anyway |
| Scheduler.SuccessMayRecoverNothing | src/adaptive_scheduler.rs:134-137 | a success right after a failure leaves the suggestion at the minimum for every configuration with a cooldown and room above the minimum |
| Persistence.RoundTripIff | src/storage.rs:27-33 | writing a map's values in any order and reading them back gives the map if and only if each value sits under its own key |
| JobStore.Store.Save | src/storage.rs:27-33 | the file holds the values and the store is clean, or the write failed, left anything behind and the dirty flag as it was |
| JobStore.Store.SaveIfDirty | src/storage.rs:35-41 | saves exactly when dirty |
| JobStore.FlagIsTrue | src/storage.rs:12-33 | a store is opened clean; a save keeps the jobs and clears the flag exactly when it succeeds |
| JobStore.StoreIsCoherent | src/storage.rs:12-60 | in every reachable state a clean store reloads to its memory, and so does any store after a successful save_if_dirty, however earlier ones failed |
| JobStore.SaveReloadsIff | src/storage.rs:82-86 | a save reloads to the same map if and only if no job's id was changed under its key |
| JobStore.FailedSaveCoherentIff | src/storage.rs:27-33 | a save may fail in any way and keep that if and only if the store was dirty before |
| Plugins.VersionLt | src/community_plugins.rs:339-348 | decides the strict lexicographic order of the component lists |
| Plugins.LexTrichotomy | src/community_plugins.rs:339-348 | never less both ways, and neither way if and only if the component lists are equal |
| Plugins.LexTransitive | src/community_plugins.rs:339-348 | the order is transitive |
| Plugins.LexLessByHeads | src/community_plugins.rs:339-348 | the first components decide, then the rest, and a list that runs out first is less |
| Plugins.DecimalParses | src/community_plugins.rs:340-341 | numbers parse up to 32 bits and greater ones do not |
| Plugins.ComponentsByPieces | src/community_plugins.rs:340-341 | the components are those of the pieces between dots, in order, and a piece that is no number has none |
| Plugins.VersionRoundTrip | src/community_plugins.rs:340-341 | every non-empty list of 32-bit numbers is the component list of its dotted string |
| Plugins.CompatibleIffInInterval | src/community_plugins.rs:313-336 | with bounds given, accepted if and only if the current version lies between them |
| Plugins.SomeVersionIffNonEmpty | src/community_plugins.rs:313-336 | some version is accepted if and only if the interval is not empty |
| Plugins.Registry.Install | src/community_plugins.rs:224-242 | the three refusals and the success, and the registry and file after each |
| Plugins.Registry.Remove | src/community_plugins.rs:244-250 | true exactly when it was installed, and only then the file is rewritten |
| Plugins.Registry.RefreshIndex | src/community_plugins.rs:274-283 | only a fetched and non-empty index replaces the old one |
| Plugins.FoundIsFirst | src/community_plugins.rs:228-231 | of manifests with one name the first in the index is found |
| Plugins.InstallEffect | src/community_plugins.rs:224-242 | a plugin is installed exactly when it is not yet, is listed, and its first manifest fits version 0.1.0; then it alone is added with that manifest |
| Plugins.RemoveEffect | src/community_plugins.rs:244-250 | exactly that plugin goes, and an unknown name changes nothing |
| Plugins.RefreshEffect | src/community_plugins.rs:274-283 | only the index changes, and only to a fetched non-empty one |
| Plugins.Registry.ListAvailable | src/community_plugins.rs:258-264 | the manifests not installed, each as often as in the index, sorted by name, with equal names in the order of the index |
| Plugins.RegistryIsConsistent | src/community_plugins.rs:194-250 | in every run with successful writes the registry is what its file reloads to, and every plugin in it was compatible |
| Plugins.FailedWriteConsistentIff | src/community_plugins.rs:205-250 | a write may fail in any way and keep registry and file together if and only if the installation was refused or there was nothing to remove |
| Plugins.NextWriteRepairs | src/community_plugins.rs:205-250 | the next successful write brings registry and file together again, whatever the file holds |

## Left out

- Network probes, HTTP, the Unix socket, the command line and `main.rs`: input and output over libraries that are not part of this model.
- Processes and signals: a process is an arbitrary sequence of poll results. Progress estimates, download tracking and published events are not modelled.
- `execute_next` as one method: its body is split into the atomic steps Fetch, Launch and Poll, so that other calls can come in between.
- Jobs as objects: a job is a value, because queue and executor clone and move it. Time stamps, progress, owner, error and metadata fields are not modelled.
- Integer widths: counters are unbounded, so wrap-around of ids, attempts and failure counts is not modelled; the active counter saturates at the 64-bit limit, and a delta of -2^31 is negated exactly.
- Float rounding and the panic of `Duration::from_secs_f64` on a negative or huge value; delays are proved non-negative for non-negative settings.
- Fields of the engine that are public and could be assigned from outside between calls.
- Plugins.Registry.ListAvailable: the library's sort is an insertion sort here; its result is the only one the contract allows.
- Scheduler.ActiveIsReflectedWalk: assumes that no prefix saturates at the upper limit, because above it the sum is lost.
- CacheDisk.AlwaysMirrors: assumes that deletions succeed, that nobody else changes the directory, and that a failed write leaves the files alone; `FailedPutMirrorsIff` says what happens when it does not.
- Copying a file onto itself is documented by the standard library as likely to truncate it; the model takes it to. Links between cache files are not modelled.
- JobStore.StoreIsCoherent: callers of `get_mut` leave ids alone and no plain save breaks the file of a clean store; `SaveReloadsIff` and `FailedSaveCoherentIff` say what happens otherwise.
- Plugins.RegistryIsConsistent: assumes that writes succeed; `FailedWriteConsistentIff` and `NextWriteRepairs` say what happens when they do not.
- Panics of the metrics engine in its other callers, the monitor and the socket server, and the half-made changes they leave.
- Text formats (JSON, RFC 3339, Prometheus), configuration defaults and the lower-casing of messages.
- `EventLog`, `DownloadManager`, the event bus, `PluginManager` and the built-in plugins: small state machines with easy facts.
