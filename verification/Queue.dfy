/** The job queue: a list edited in place, from which the next job to run is taken by priority. */
module Queue {
  import opened Collections
  import opened Jobs

  predicate IsPending(j: Job) {
    j.status.Pending?
  }

  predicate IsRunning(j: Job) {
    j.status.Running?
  }

  predicate IsPaused(j: Job) {
    j.status.Paused?
  }

  predicate IsCompleted(j: Job) {
    j.status.Completed?
  }

  predicate IsFailed(j: Job) {
    j.status.Failed?
  }

  predicate IsCancelled(j: Job) {
    j.status.Cancelled?
  }

  /** The last of the Pending jobs of highest priority among the first `n`. */
  function BestOf(jobs: seq<Job>, n: nat): (best: Option<nat>)
    requires n <= |jobs|
    ensures best.None? <==> forall i :: 0 <= i < n ==> !IsPending(jobs[i])
    ensures best.Some? ==> best.value < n && IsPending(jobs[best.value])
    ensures best.Some? ==> forall i :: 0 <= i < n && IsPending(jobs[i]) ==>
              jobs[i].priority.AsNat() <= jobs[best.value].priority.AsNat()
    ensures best.Some? ==> forall i :: best.value < i < n && IsPending(jobs[i]) ==>
              jobs[i].priority.AsNat() < jobs[best.value].priority.AsNat()
  {
    if n == 0 then None
    else
      var best := BestOf(jobs, n - 1);
      if IsPending(jobs[n - 1])
         && (best.None? || jobs[n - 1].priority.AsNat() >= jobs[best.value].priority.AsNat())
      then Some(n - 1)
      else best
  }

  function AfterDequeue(jobs: seq<Job>): seq<Job> {
    match BestOf(jobs, |jobs|)
    case None => jobs
    case Some(i) => RemoveAt(jobs, i)
  }

  function Dequeued(jobs: seq<Job>): Option<Job> {
    match BestOf(jobs, |jobs|)
    case None => None
    case Some(i) => Some(jobs[i].(status := Running))
  }

  /** The first position holding `id`. */
  function Find(jobs: seq<Job>, id: JobId): (found: Option<nat>)
    ensures found.None? <==> forall i :: 0 <= i < |jobs| ==> jobs[i].id != id
    ensures found.Some? ==> found.value < |jobs| && jobs[found.value].id == id
    ensures found.Some? ==> forall i :: 0 <= i < found.value ==> jobs[i].id != id
  {
    if jobs == [] then None
    else if jobs[0].id == id then Some(0)
    else match Find(jobs[1..], id)
      case None => None
      case Some(i) => Some(i + 1)
  }

  function AfterUpdate(jobs: seq<Job>, id: JobId, status: JobStatus): (r: seq<Job>)
    ensures |r| == |jobs|
  {
    match Find(jobs, id)
    case None => jobs
    case Some(i) => jobs[i := SetStatus(jobs[i], status).0]
  }

  function HasOtherId(id: JobId): Job -> bool {
    (j: Job) => j.id != id
  }

  function AfterRemove(jobs: seq<Job>, id: JobId): seq<Job> {
    Filter(jobs, HasOtherId(id))
  }

  function NotCompleted(): Job -> bool {
    (j: Job) => !IsCompleted(j)
  }

  function AfterClear(jobs: seq<Job>): seq<Job> {
    Filter(jobs, NotCompleted())
  }

  predicate CanRetry(j: Job) {
    j.status.Failed? && j.retryCount < j.maxRetries
  }

  function Retried(j: Job): Job {
    if CanRetry(j) then j.(retryCount := j.retryCount + 1, status := Pending) else j
  }

  function Resumed(j: Job): Job {
    if j.status.Paused? then j.(status := Pending) else j
  }

  function AfterRetryFailed(jobs: seq<Job>): (r: seq<Job>) {
    seq(|jobs|, i requires 0 <= i < |jobs| => Retried(jobs[i]))
  }

  function AfterResumeAll(jobs: seq<Job>): (r: seq<Job>) {
    seq(|jobs|, i requires 0 <= i < |jobs| => Resumed(jobs[i]))
  }

  /** The ids, in queue order, of the jobs satisfying `p`. */
  function Ids(jobs: seq<Job>, p: Job -> bool): seq<JobId> {
    if jobs == [] then []
    else Ids(jobs[..|jobs| - 1], p) + if p(jobs[|jobs| - 1]) then [jobs[|jobs| - 1].id] else []
  }

  function Count(jobs: seq<Job>, p: Job -> bool): nat {
    |Ids(jobs, p)|
  }

  datatype QueueStats = QueueStats(total: nat, pending: nat, running: nat, paused: nat, completed: nat, failed: nat)

  class QueueManager {
    var jobs: seq<Job>
    var autoResume: bool

    constructor ()
      ensures jobs == [] && autoResume
    {
      jobs, autoResume := [], true;
    }

    /** `id` is the number the counter gave the job before the queue was locked. */
    method Enqueue(id: JobId, payload: Payload, priority: JobPriority) returns (job: Job)
      modifies this`jobs
      ensures job == NewJob(id, payload, priority) && jobs == old(jobs) + [job]
    {
      job := NewJob(id, payload, priority);
      jobs := jobs + [job];
    }

    method Dequeue() returns (next: Option<Job>)
      modifies this`jobs
      ensures jobs == AfterDequeue(old(jobs)) && next == Dequeued(old(jobs))
    {
      var pos := BestOf(jobs, |jobs|);
      if pos.Some? {
        var job := jobs[pos.value];
        jobs := RemoveAt(jobs, pos.value);
        next := Some(job.(status := Running));
      } else {
        next := None;
      }
    }

    method UpdateStatus(id: JobId, status: JobStatus) returns (found: bool)
      modifies this`jobs
      ensures jobs == AfterUpdate(old(jobs), id, status)
      ensures found <==> exists i :: 0 <= i < |old(jobs)| && old(jobs)[i].id == id
    {
      var pos := Find(jobs, id);
      if pos.Some? {
        var (job, _) := SetStatus(jobs[pos.value], status);
        jobs := jobs[pos.value := job];
        found := true;
      } else {
        found := false;
      }
    }

    method Remove(id: JobId) returns (removed: bool)
      modifies this`jobs
      ensures jobs == AfterRemove(old(jobs), id)
      ensures removed <==> |jobs| < |old(jobs)|
    {
      var before := |jobs|;
      jobs := Filter(jobs, HasOtherId(id));
      removed := |jobs| < before;
    }

    method ClearCompleted() returns (cleared: int)
      modifies this`jobs
      ensures jobs == AfterClear(old(jobs)) && cleared == |old(jobs)| - |jobs|
    {
      var before := |jobs|;
      jobs := Filter(jobs, NotCompleted());
      cleared := before - |jobs|;
    }

    method RetryFailed() returns (retried: seq<JobId>)
      modifies this`jobs
      ensures jobs == AfterRetryFailed(old(jobs))
      ensures retried == Ids(old(jobs), CanRetry)
    {
      retried := [];
      ghost var was := jobs;
      for i := 0 to |jobs|
        invariant |jobs| == |was|
        invariant forall k :: 0 <= k < i ==> jobs[k] == Retried(was[k])
        invariant forall k :: i <= k < |was| ==> jobs[k] == was[k]
        invariant retried == Ids(was[..i], CanRetry)
      {
        assert was[..i + 1][..i] == was[..i];
        if jobs[i].status.Failed? && jobs[i].retryCount < jobs[i].maxRetries {
          retried := retried + [jobs[i].id];
          jobs := jobs[i := jobs[i].(retryCount := jobs[i].retryCount + 1, status := Pending)];
        }
      }
      assert was[..|was|] == was;
    }

    method ResumeAll() returns (resumed: seq<JobId>)
      modifies this`jobs
      ensures jobs == AfterResumeAll(old(jobs))
      ensures resumed == Ids(old(jobs), IsPaused)
    {
      resumed := [];
      ghost var was := jobs;
      for i := 0 to |jobs|
        invariant |jobs| == |was|
        invariant forall k :: 0 <= k < i ==> jobs[k] == Resumed(was[k])
        invariant forall k :: i <= k < |was| ==> jobs[k] == was[k]
        invariant resumed == Ids(was[..i], IsPaused)
      {
        assert was[..i + 1][..i] == was[..i];
        if jobs[i].status.Paused? {
          resumed := resumed + [jobs[i].id];
          jobs := jobs[i := jobs[i].(status := Pending)];
        }
      }
      assert was[..|was|] == was;
    }

    /** Cancelled jobs are in the total and in no other number. */
    method Stats() returns (stats: QueueStats)
      ensures stats.total == |jobs|
      ensures stats.pending == Count(jobs, IsPending)
      ensures stats.running == Count(jobs, IsRunning)
      ensures stats.paused == Count(jobs, IsPaused)
      ensures stats.completed == Count(jobs, IsCompleted)
      ensures stats.failed == Count(jobs, IsFailed)
      ensures stats.total == stats.pending + stats.running + stats.paused + stats.completed + stats.failed
                             + Count(jobs, IsCancelled)
    {
      stats := QueueStats(0, 0, 0, 0, 0, 0);
      for i := 0 to |jobs|
        invariant stats.total == i
        invariant stats.pending == Count(jobs[..i], IsPending)
        invariant stats.running == Count(jobs[..i], IsRunning)
        invariant stats.paused == Count(jobs[..i], IsPaused)
        invariant stats.completed == Count(jobs[..i], IsCompleted)
        invariant stats.failed == Count(jobs[..i], IsFailed)
        invariant stats.total == stats.pending + stats.running + stats.paused + stats.completed + stats.failed
                                 + Count(jobs[..i], IsCancelled)
      {
        assert jobs[..i + 1][..i] == jobs[..i];
        stats := stats.(total := stats.total + 1);
        match jobs[i].status {
          case Pending => stats := stats.(pending := stats.pending + 1);
          case Running => stats := stats.(running := stats.running + 1);
          case Paused => stats := stats.(paused := stats.paused + 1);
          case Completed => stats := stats.(completed := stats.completed + 1);
          case Failed(_) => stats := stats.(failed := stats.failed + 1);
          case Cancelled =>
        }
      }
      assert jobs[..|jobs|] == jobs;
    }

    method SetAutoResume(enabled: bool)
      modifies this`autoResume
      ensures autoResume == enabled
    {
      autoResume := enabled;
    }
  }
}
