/** What each call of the queue does to which jobs, told from their statuses. */
module QueueCalls {
  import opened Collections
  import opened Jobs
  import opened Queue
  import opened QueueRuns

  // ---- Updates ----

  /** Statuses a job may leave by an update, and what for. */
  predicate Takes(from: JobStatus, to: JobStatus) {
    || (to == Running && (from == Pending || from == Paused))
    || (to == Paused && from == Running)
    || (to == Completed && from == Running)
    || (to.Failed? && from == Running)
    || (to == Cancelled && (from == Pending || from == Running || from == Paused))
  }

  /** An update of a queued job takes effect exactly on those pairs; otherwise, and for an unknown id, nothing does. */
  lemma {:induction false} UpdateEffect(jobs: seq<Job>, id: JobId, status: JobStatus)
    ensures (forall i :: 0 <= i < |jobs| ==> jobs[i].id != id) ==> AfterUpdate(jobs, id, status) == jobs
    ensures forall i :: 0 <= i < |jobs| && jobs[i].id == id && (forall k :: 0 <= k < i ==> jobs[k].id != id) ==>
              AfterUpdate(jobs, id, status)
              == if Takes(jobs[i].status, status) then jobs[i := jobs[i].(status := status)] else jobs
  {
    if Find(jobs, id).Some? {
      var found := Find(jobs, id).value;
      assert jobs[found := jobs[found]] == jobs;
    }
  }

  lemma {:induction false} CancelEffect(w: World, j: Job)
    requires DistinctIds(w.jobs) && j in w.jobs && Takes(j.status, Cancelled)
    ensures j.(status := Cancelled) in Next(w, Update(j.id, Cancelled)).jobs
  {
    var i :| 0 <= i < |w.jobs| && w.jobs[i] == j;
    UpdateEffect(w.jobs, j.id, Cancelled);
    assert w.jobs[i := j.(status := Cancelled)][i] == j.(status := Cancelled);
  }

  lemma {:induction false} FinishedIsNotHandedOut(steps: seq<Step>, n: nat, m: nat, j: Job)
    requires n <= m < |steps| && IsFinished(j) && j in At(steps, n).jobs && HandedOut(steps, m).Some?
    ensures HandedOut(steps, m).value.id != j.id
  {
    FinishedStaysFinished(steps, n, m + 1, j);
    HandedOutIsDispatched(steps, m);
  }

  lemma {:induction false} CancelledNext(steps: seq<Step>, n: nat, j: Job)
    requires n < |steps| && steps[n] == Update(j.id, Cancelled) && InQueue(steps, n, j)
    requires j.status == Pending || j.status == Running || j.status == Paused
    ensures InQueue(steps, n + 1, j.(status := Cancelled))
  {
    AlwaysPartitioned(steps, n);
    CancelEffect(At(steps, n), j);
  }

  /** In every run a Pending, Running or Paused job that is cancelled stays Cancelled until it is removed, and no later
      dispatch hands it out. */
  lemma {:induction false} CancelIsFinal(steps: seq<Step>, n: nat, j: Job, m: nat)
    requires n < m <= |steps| && steps[n] == Update(j.id, Cancelled) && InQueue(steps, n, j)
    requires j.status == Pending || j.status == Running || j.status == Paused
    ensures InQueue(steps, n + 1, j.(status := Cancelled))
    ensures InQueue(steps, m, j.(status := Cancelled)) || j.id in At(steps, m).discarded
    ensures m < |steps| && HandedOut(steps, m).Some? ==> HandedOut(steps, m).value.id != j.id
  {
    CancelledNext(steps, n, j);
    FinishedStaysFinished(steps, n + 1, m, j.(status := Cancelled));
    if m < |steps| && HandedOut(steps, m).Some? {
      FinishedIsNotHandedOut(steps, n + 1, m, j.(status := Cancelled));
    }
  }

  lemma {:induction false} HandedOutIsDispatched(steps: seq<Step>, m: nat)
    requires m < |steps| && HandedOut(steps, m).Some?
    ensures HandedOut(steps, m).value.id in IdsOf(At(steps, m + 1).dispatched)
  {
    IdsOfAppend(At(steps, m).dispatched, HandedOut(steps, m).value);
  }

  // ---- Taking the next job ----

  predicate MoreUrgent(p: JobPriority, q: JobPriority) {
    || (p == Critical && q != Critical)
    || (p == High && (q == Normal || q == Low))
    || (p == Normal && q == Low)
  }

  /** The job at position `i` is Pending, no Pending job is more urgent, and none behind it is as urgent. */
  predicate NextInLine(jobs: seq<Job>, i: nat) {
    && i < |jobs| && jobs[i].status == Pending
    && (forall k :: 0 <= k < |jobs| && jobs[k].status == Pending ==> !MoreUrgent(jobs[k].priority, jobs[i].priority))
    && (forall k :: i < k < |jobs| && jobs[k].status == Pending ==> MoreUrgent(jobs[i].priority, jobs[k].priority))
  }

  lemma {:induction false} BestIsNext(jobs: seq<Job>)
    requires BestOf(jobs, |jobs|).Some?
    ensures NextInLine(jobs, BestOf(jobs, |jobs|).value)
  {
  }

  /** What is taken is the next in line, handed out Running and otherwise as it was, and all others stay in their order;
      without a Pending job nothing happens. */
  lemma {:induction false} DequeueEffect(jobs: seq<Job>)
    ensures Dequeued(jobs).None? <==> forall i :: 0 <= i < |jobs| ==> jobs[i].status != Pending
    ensures Dequeued(jobs).None? ==> AfterDequeue(jobs) == jobs
    ensures Dequeued(jobs).Some? ==>
              exists i: nat :: NextInLine(jobs, i) && Dequeued(jobs) == Some(jobs[i].(status := Running))
                          && AfterDequeue(jobs) == jobs[..i] + jobs[i + 1..]
  {
    if BestOf(jobs, |jobs|).Some? {
      BestIsNext(jobs);
    } else {
      assert forall i :: 0 <= i < |jobs| ==> !IsPending(jobs[i]);
    }
  }

  // ---- Calls that edit or drop many jobs ----

  /** What `retry_failed` makes of a job: a Failed one with retries left is Pending again with one retry more. */
  predicate RetriedAs(before: Job, after: Job) {
    match before.status
    case Failed(_) =>
      if before.retryCount >= before.maxRetries then after == before
      else after == before.(status := Pending, retryCount := before.retryCount + 1)
    case _ => after == before
  }

  /** What `resume_all` makes of a job: a Paused one is Pending again. */
  predicate ResumedAs(before: Job, after: Job) {
    match before.status
    case Paused => after == before.(status := Pending)
    case _ => after == before
  }

  /** Both calls edit every job and keep its place; afterwards nothing is left to do for them. */
  lemma {:induction false} EditEffects(w: World)
    ensures
      var jobs := Next(w, RetryFailed).jobs;
      && |jobs| == |w.jobs|
      && (forall i :: 0 <= i < |jobs| ==> RetriedAs(w.jobs[i], jobs[i]))
      && (forall j :: j in jobs ==> !(j.status.Failed? && j.retryCount < j.maxRetries))
    ensures
      var jobs := Next(w, ResumeAll).jobs;
      && |jobs| == |w.jobs|
      && (forall i :: 0 <= i < |jobs| ==> ResumedAs(w.jobs[i], jobs[i]))
      && (forall j :: j in jobs ==> j.status != Paused)
  {
  }

  /** Exactly the jobs with that id go, and exactly the Completed ones. */
  lemma {:induction false} DropEffects(w: World, id: JobId)
    ensures forall j :: j in Next(w, Remove(id)).jobs <==> j in w.jobs && j.id != id
    ensures forall j :: j in Next(w, ClearCompleted).jobs <==> j in w.jobs && j.status != Completed
  {
    FilterHas(w.jobs, HasOtherId(id));
    FilterHas(w.jobs, NotCompleted());
  }

  function IdsOfSeq(jobs: seq<Job>): seq<JobId> {
    seq(|jobs|, i requires 0 <= i < |jobs| => jobs[i].id)
  }

  /** The ids a call returns are those of the jobs it concerns, in queue order. */
  lemma {:induction false} IdsAreOfThoseJobs(jobs: seq<Job>, p: Job -> bool)
    ensures Ids(jobs, p) == IdsOfSeq(Filter(jobs, p))
  {
    if jobs != [] {
      IdsAreOfThoseJobs(jobs[..|jobs| - 1], p);
      FilterLast(jobs, p);
    }
  }

  /** `retry_failed` returns the ids of the Failed jobs with retries left, `resume_all` those of the Paused ones. */
  lemma {:induction false} ReturnedIds(jobs: seq<Job>)
    ensures Ids(jobs, CanRetry) == IdsOfSeq(Filter(jobs, (j: Job) => j.status.Failed? && j.retryCount < j.maxRetries))
    ensures Ids(jobs, IsPaused) == IdsOfSeq(Filter(jobs, (j: Job) => j.status == Paused))
  {
    IdsAreOfThoseJobs(jobs, CanRetry);
    IdsAreOfThoseJobs(jobs, IsPaused);
    SameFilter(jobs, CanRetry, (j: Job) => j.status.Failed? && j.retryCount < j.maxRetries);
    SameFilter(jobs, IsPaused, (j: Job) => j.status == Paused);
  }

  lemma {:induction false} SameFilter(jobs: seq<Job>, p: Job -> bool, q: Job -> bool)
    requires forall j :: j in jobs ==> p(j) == q(j)
    ensures Filter(jobs, p) == Filter(jobs, q)
  {
    if jobs != [] {
      SameFilter(jobs[1..], p, q);
    }
  }

  // ---- Counting ----

  /** How many jobs have that status; failures count alike whatever their error is. */
  function WithStatus(jobs: seq<Job>, status: JobStatus): nat {
    if jobs == [] then 0
    else WithStatus(jobs[..|jobs| - 1], status)
         + if jobs[|jobs| - 1].status == status || (status.Failed? && jobs[|jobs| - 1].status.Failed?) then 1 else 0
  }

  lemma {:induction false} CountsAreOfStatuses(jobs: seq<Job>)
    ensures Count(jobs, IsPending) == WithStatus(jobs, Pending)
    ensures Count(jobs, IsRunning) == WithStatus(jobs, Running)
    ensures Count(jobs, IsPaused) == WithStatus(jobs, Paused)
    ensures Count(jobs, IsCompleted) == WithStatus(jobs, Completed)
    ensures Count(jobs, IsFailed) == WithStatus(jobs, Failed(""))
    ensures Count(jobs, IsCancelled) == WithStatus(jobs, Cancelled)
  {
    if jobs != [] {
      CountsAreOfStatuses(jobs[..|jobs| - 1]);
    }
  }
}
