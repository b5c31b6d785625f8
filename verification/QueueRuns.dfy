/** Every interleaving of producers, dispatchers and updaters over one queue. A producer draws its job id from
    the shared counter first and pushes under the queue's lock later; every other step is one locked call. */
module QueueRuns {
  import opened Collections
  import opened Jobs
  import opened Queue

  datatype World = World(
    nextId: JobId,
    waiting: map<JobId, Job>,   // drawn an id, not yet pushed
    jobs: seq<Job>,             // the queue
    dispatched: seq<Job>,       // handed out by Dequeue, in that order
    discarded: set<JobId>)      // removed or cleared

  datatype Step =
    | Draw(payload: Payload, priority: JobPriority)
    | Push(id: JobId)
    | Dispatch
    | Update(id: JobId, status: JobStatus)
    | Remove(id: JobId)
    | RetryFailed
    | ResumeAll
    | ClearCompleted

  const START := World(1, map[], [], [], {})

  function IdsOf(jobs: seq<Job>): set<JobId> {
    set j | j in jobs :: j.id
  }

  function Next(w: World, s: Step): World {
    match s
    case Draw(payload, priority) =>
      w.(nextId := w.nextId + 1, waiting := w.waiting[w.nextId := NewJob(w.nextId, payload, priority)])
    case Push(id) =>
      if id in w.waiting then w.(waiting := w.waiting - {id}, jobs := w.jobs + [w.waiting[id]]) else w
    case Dispatch =>
      (match Dequeued(w.jobs)
       case None => w
       case Some(j) => w.(jobs := AfterDequeue(w.jobs), dispatched := w.dispatched + [j]))
    case Update(id, status) => w.(jobs := AfterUpdate(w.jobs, id, status))
    case Remove(id) =>
      w.(jobs := AfterRemove(w.jobs, id), discarded := w.discarded + (IdsOf(w.jobs) * {id}))
    case RetryFailed => w.(jobs := AfterRetryFailed(w.jobs))
    case ResumeAll => w.(jobs := AfterResumeAll(w.jobs))
    case ClearCompleted =>
      w.(jobs := AfterClear(w.jobs), discarded := w.discarded + (IdsOf(w.jobs) - IdsOf(AfterClear(w.jobs))))
  }

  /** The world after the first `n` steps. */
  function At(steps: seq<Step>, n: nat): World
    requires n <= |steps|
  {
    if n == 0 then START else Next(At(steps, n - 1), steps[n - 1])
  }

  predicate DistinctIds(jobs: seq<Job>) {
    forall i, j :: 0 <= i < j < |jobs| ==> jobs[i].id != jobs[j].id
  }

  /** The ids the counter gave out before it reached `next`; it starts at 1. */
  function DrawnBelow(next: JobId): (ids: set<JobId>)
    ensures forall id :: id in ids <==> 1 <= id < next
  {
    if next <= 1 then {} else DrawnBelow(next - 1) + {next - 1}
  }

  /** Every id drawn so far is in exactly one place, and nowhere twice. */
  ghost predicate Partitioned(w: World) {
    && w.nextId >= 1 && DistinctIds(w.jobs) && DistinctIds(w.dispatched)
    && (forall id :: id in w.waiting ==> w.waiting[id].id == id)
    && w.waiting.Keys !! IdsOf(w.jobs) && w.waiting.Keys !! IdsOf(w.dispatched) && w.waiting.Keys !! w.discarded
    && IdsOf(w.jobs) !! IdsOf(w.dispatched) && IdsOf(w.jobs) !! w.discarded && IdsOf(w.dispatched) !! w.discarded
    && w.waiting.Keys + IdsOf(w.jobs) + IdsOf(w.dispatched) + w.discarded == DrawnBelow(w.nextId)
  }

  lemma {:induction false} IdsOfAppend(jobs: seq<Job>, j: Job)
    ensures IdsOf(jobs + [j]) == IdsOf(jobs) + {j.id}
  {
  }

  lemma {:induction false} AppendKeepsDistinct(jobs: seq<Job>, j: Job)
    requires DistinctIds(jobs) && j.id !in IdsOf(jobs)
    ensures DistinctIds(jobs + [j])
  {
  }

  lemma {:induction false} IdsOfRemoveAt(jobs: seq<Job>, i: nat)
    requires i < |jobs| && DistinctIds(jobs)
    ensures DistinctIds(RemoveAt(jobs, i)) && IdsOf(RemoveAt(jobs, i)) == IdsOf(jobs) - {jobs[i].id}
    ensures forall x :: x in RemoveAt(jobs, i) ==> x in jobs
  {
  }

  lemma {:induction false} FilterKeepsDistinct(jobs: seq<Job>, p: Job -> bool)
    requires DistinctIds(jobs)
    ensures DistinctIds(Filter(jobs, p))
  {
    if jobs != [] {
      var tail := jobs[1..];
      FilterKeepsDistinct(tail, p);
      FilterHas(tail, p);
      forall x | x in tail
        ensures x.id != jobs[0].id
      {
        var k :| 0 <= k < |tail| && tail[k] == x;
        assert jobs[k + 1] == x;
      }
    }
  }

  lemma {:induction false} SameIds(a: seq<Job>, b: seq<Job>)
    requires |a| == |b| && forall i :: 0 <= i < |a| ==> a[i].id == b[i].id
    ensures IdsOf(a) == IdsOf(b) && (DistinctIds(a) ==> DistinctIds(b))
  {
  }

  lemma {:induction false} DrawKeepsPartition(w: World, payload: Payload, priority: JobPriority)
    requires Partitioned(w)
    ensures Partitioned(Next(w, Draw(payload, priority)))
  {
  }

  lemma {:induction false} PushKeepsPartition(w: World, id: JobId)
    requires Partitioned(w)
    ensures Partitioned(Next(w, Push(id)))
  {
  }

  lemma {:induction false} DispatchKeepsPartition(w: World)
    requires Partitioned(w)
    ensures Partitioned(Next(w, Dispatch))
  {
    var best := BestOf(w.jobs, |w.jobs|);
    if best.Some? {
      var i := best.value;
      var j := w.jobs[i].(status := Running);
      assert w.jobs[i] in w.jobs;
      IdsOfRemoveAt(w.jobs, i);
      IdsOfAppend(w.dispatched, j);
      AppendKeepsDistinct(w.dispatched, j);
    }
  }

  lemma {:induction false} DiscardKeepsPartition(w: World, s: Step)
    requires Partitioned(w) && (s.Remove? || s.ClearCompleted?)
    ensures Partitioned(Next(w, s))
  {
    var w' := Next(w, s);
    var kept := if s.Remove? then HasOtherId(s.id) else NotCompleted();
    FilterHas(w.jobs, kept);
    FilterKeepsDistinct(w.jobs, kept);
    assert w'.discarded == w.discarded + (IdsOf(w.jobs) - IdsOf(w'.jobs));
    assert IdsOf(w'.jobs) <= IdsOf(w.jobs);
  }

  lemma {:induction false} EditKeepsPartition(w: World, s: Step)
    requires Partitioned(w) && (s.Update? || s.RetryFailed? || s.ResumeAll?)
    ensures Partitioned(Next(w, s))
  {
    SameIds(w.jobs, Next(w, s).jobs);
  }

  lemma {:induction false} NextKeepsPartition(w: World, s: Step)
    requires Partitioned(w)
    ensures Partitioned(Next(w, s))
  {
    match s
    case Draw(payload, priority) => DrawKeepsPartition(w, payload, priority);
    case Push(id) => PushKeepsPartition(w, id);
    case Dispatch => DispatchKeepsPartition(w);
    case Remove(_) => DiscardKeepsPartition(w, s);
    case ClearCompleted => DiscardKeepsPartition(w, s);
    case _ => EditKeepsPartition(w, s);
  }

  lemma {:induction false} AlwaysPartitioned(steps: seq<Step>, n: nat)
    requires n <= |steps|
    ensures Partitioned(At(steps, n))
  {
    if n > 0 {
      AlwaysPartitioned(steps, n - 1);
      NextKeepsPartition(At(steps, n - 1), steps[n - 1]);
    }
  }

  // ---- Dispatching ----

  /** `later` grew out of `earlier` by appending. */
  lemma {:induction false} DispatchedOnlyGrows(steps: seq<Step>, n: nat, m: nat)
    requires n <= m <= |steps|
    ensures At(steps, n).dispatched <= At(steps, m).dispatched
  {
    if n < m {
      DispatchedOnlyGrows(steps, n, m - 1);
    }
  }

  /** The job that step `n` hands out, if it does. */
  function HandedOut(steps: seq<Step>, n: nat): Option<Job>
    requires n < |steps|
  {
    if steps[n].Dispatch? then Dequeued(At(steps, n).jobs) else None
  }

  lemma {:induction false} HandedOutLater(steps: seq<Step>, n: nat, m: nat)
    requires n < m <= |steps| && HandedOut(steps, n).Some?
    ensures At(steps, n).dispatched + [HandedOut(steps, n).value] <= At(steps, m).dispatched
  {
    DispatchedOnlyGrows(steps, n + 1, m);
  }

  lemma {:induction false} HandedOutDistinct(steps: seq<Step>, m: nat)
    requires m < |steps| && HandedOut(steps, m).Some?
    ensures DistinctIds(At(steps, m).dispatched + [HandedOut(steps, m).value])
  {
    AlwaysPartitioned(steps, m + 1);
  }

  lemma {:induction false} EarlierDiffers(before: seq<Job>, x: Job, middle: seq<Job>, y: Job)
    requires before + [x] <= middle && DistinctIds(middle + [y])
    ensures x.id != y.id
  {
    assert (middle + [y])[|before|] == x && (middle + [y])[|middle|] == y;
  }

  /** No id is ever handed out twice, in the whole of any run. */
  lemma {:induction false} DispatchedAtMostOnce(steps: seq<Step>, n: nat, m: nat)
    requires n < m < |steps| && HandedOut(steps, n).Some? && HandedOut(steps, m).Some?
    ensures HandedOut(steps, n).value.id != HandedOut(steps, m).value.id
  {
    HandedOutLater(steps, n, m);
    HandedOutDistinct(steps, m);
    EarlierDiffers(At(steps, n).dispatched, HandedOut(steps, n).value,
                   At(steps, m).dispatched, HandedOut(steps, m).value);
  }

  /** A dispatcher that reports on a job it was given, at any later time, reports to nobody:
      `update_status` returns false and the queue stays as it is. */
  lemma {:induction false} ReportOnOwnJobIsLost(steps: seq<Step>, n: nat, id: JobId, status: JobStatus)
    requires n <= |steps| && id in IdsOf(At(steps, n).dispatched)
    ensures Find(At(steps, n).jobs, id) == None
    ensures Next(At(steps, n), Update(id, status)) == At(steps, n)
  {
    AlwaysPartitioned(steps, n);
    var w := At(steps, n);
    FoundIsQueued(w.jobs, id);
    assert w.(jobs := w.jobs) == w;
  }

  lemma {:induction false} FoundIsQueued(jobs: seq<Job>, id: JobId)
    ensures Find(jobs, id).Some? <==> id in IdsOf(jobs)
  {
  }

  // ---- The life of one job in the queue ----

  /** What a step may do to a job that stays queued. */
  predicate Move(a: Job, b: Job) {
    && a.id == b.id && a.payload == b.payload && a.priority == b.priority && a.maxRetries == b.maxRetries
    && ( || a == b
         || (CanTransition(a.status, b.status) && b.retryCount == a.retryCount)
         || (a.status.Failed? && b.status.Pending? && b.retryCount == a.retryCount + 1 <= a.maxRetries)
         || (a.status.Paused? && b.status.Pending? && b.retryCount == a.retryCount))
  }

  /** Where a queued job comes from: the queue before the step, or the producer that pushes it. */
  ghost predicate ComesFrom(w: World, s: Step, b: Job) {
    || (exists a :: a in w.jobs && Move(a, b))
    || (s == Push(b.id) && b.id in w.waiting && b == w.waiting[b.id])
  }

  lemma {:induction false} QueuedJobComesFrom(w: World, s: Step, b: Job)
    requires Partitioned(w) && b in Next(w, s).jobs
    ensures ComesFrom(w, s, b)
  {
    var w' := Next(w, s);
    var k :| 0 <= k < |w'.jobs| && w'.jobs[k] == b;
    match s
    case Draw(_, _) => assert Move(b, b);
    case Push(id) =>
      if k < |w.jobs| {
        assert w.jobs[k] in w.jobs && Move(b, b);
      }
    case Dispatch =>
      if BestOf(w.jobs, |w.jobs|).Some? {
        IdsOfRemoveAt(w.jobs, BestOf(w.jobs, |w.jobs|).value);
      }
      assert Move(b, b);
    case Remove(id) =>
      FilterHas(w.jobs, HasOtherId(id));
      assert Move(b, b);
    case ClearCompleted =>
      FilterHas(w.jobs, NotCompleted());
      assert Move(b, b);
    case _ => assert w.jobs[k] in w.jobs && Move(w.jobs[k], b);
  }

  predicate InQueue(steps: seq<Step>, n: nat, j: Job)
    requires n <= |steps|
  {
    j in At(steps, n).jobs
  }

  predicate IsPath(history: seq<Job>) {
    forall i :: 0 <= i < |history| - 1 ==> Move(history[i], history[i + 1])
  }

  /** What one job was after each step, from the step `push` that pushed it fresh to the queue. */
  predicate IsHistory(steps: seq<Step>, push: nat, history: seq<Job>)
    requires push + |history| <= |steps|
  {
    && history != [] && IsPath(history)
    && (forall i :: 0 <= i < |history| ==> InQueue(steps, push + 1 + i, history[i]))
    && steps[push] == Push(history[0].id)
    && history[0].status.Pending? && history[0].retryCount == 0 && history[0].maxRetries == 3
  }

  lemma {:induction false} PathGrows(history: seq<Job>, b: Job)
    requires history != [] && IsPath(history) && Move(history[|history| - 1], b)
    ensures IsPath(history + [b])
  {
  }

  lemma {:induction false} HistoryGrows(steps: seq<Step>, push: nat, history: seq<Job>, b: Job)
    requires push + |history| < |steps| && IsHistory(steps, push, history)
    requires Move(history[|history| - 1], b) && InQueue(steps, push + |history| + 1, b)
    ensures IsHistory(steps, push, history + [b])
  {
    PathGrows(history, b);
  }

  /** The whole life of every queued job is a path: it starts with the push of a fresh Pending job, and each later
      step moves it along `can_transition`, from Failed to Pending with a retry counted, or from Paused to Pending. */
  lemma {:induction false} HistoryIsPath(steps: seq<Step>, n: nat, b: Job) returns (push: nat, history: seq<Job>)
    requires n <= |steps| && InQueue(steps, n, b)
    ensures push + |history| == n && IsHistory(steps, push, history) && history[|history| - 1] == b
  {
    var w := At(steps, n - 1);
    AlwaysPartitioned(steps, n - 1);
    QueuedJobComesFrom(w, steps[n - 1], b);
    if a :| a in w.jobs && Move(a, b) {
      push, history := HistoryIsPath(steps, n - 1, a);
      HistoryGrows(steps, push, history, b);
      history := history + [b];
    } else {
      RetriesAlwaysAccounted(steps, b.id, n - 1);
      push, history := n - 1, [b];
    }
  }

  ghost predicate FailedIn(w: World, id: JobId) {
    exists j :: j in w.jobs && j.id == id && j.status.Failed?
  }

  /** How often the job has entered the status Failed during the first `n` steps. */
  ghost function FailedEntries(steps: seq<Step>, id: JobId, n: nat): nat
    requires n <= |steps|
  {
    if n == 0 then 0
    else FailedEntries(steps, id, n - 1)
         + if FailedIn(At(steps, n), id) && !FailedIn(At(steps, n - 1), id) then 1 else 0
  }

  /** A queued job's retry counter counts its returns from Failed, and never passes the job's own limit;
      an id not yet queued has never failed. */
  ghost predicate RetriesAccounted(w: World, id: JobId, entries: nat) {
    && (forall j :: j in w.jobs && j.id == id ==>
         j.retryCount <= j.maxRetries == 3 && entries == j.retryCount + if j.status.Failed? then 1 else 0)
    && (id in w.waiting ==>
          && entries == 0 && w.waiting[id].status.Pending?
          && w.waiting[id].retryCount == 0 && w.waiting[id].maxRetries == 3)
    && (id >= w.nextId ==> entries == 0)
    && entries <= 4
  }

  lemma {:induction false} RetriesAlwaysAccounted(steps: seq<Step>, id: JobId, n: nat)
    requires n <= |steps|
    ensures RetriesAccounted(At(steps, n), id, FailedEntries(steps, id, n))
  {
    if n > 0 {
      RetriesAlwaysAccounted(steps, id, n - 1);
      RetriesAccountedAt(steps, id, n, FailedEntries(steps, id, n - 1));
    }
  }

  lemma {:induction false} RetriesAccountedAt(steps: seq<Step>, id: JobId, n: nat, entries: nat)
    requires 0 < n <= |steps| && RetriesAccounted(At(steps, n - 1), id, entries)
    ensures
      var w, w' := At(steps, n - 1), At(steps, n);
      RetriesAccounted(w', id, entries + if FailedIn(w', id) && !FailedIn(w, id) then 1 else 0)
  {
    AlwaysPartitioned(steps, n - 1);
    AlwaysPartitioned(steps, n);
    RetriesStep(At(steps, n - 1), steps[n - 1], At(steps, n), id, entries);
  }

  lemma {:induction false} QueuedRetries(w: World, s: Step, b: Job, entries: nat)
    requires Partitioned(w) && RetriesAccounted(w, b.id, entries) && ComesFrom(w, s, b)
    ensures b.retryCount <= b.maxRetries == 3
    ensures entries + (if b.status.Failed? && !FailedIn(w, b.id) then 1 else 0)
            == b.retryCount + if b.status.Failed? then 1 else 0
  {
  }

  /** An id that is not queued yet was not queued before, and carries the job it was drawn with. */
  lemma {:induction false} UnqueuedBefore(w: World, s: Step, id: JobId)
    requires Partitioned(w) && (id in Next(w, s).waiting || id >= Next(w, s).nextId)
    ensures id in w.waiting || id >= w.nextId
    ensures id in Next(w, s).waiting && id in w.waiting ==> Next(w, s).waiting[id] == w.waiting[id]
    ensures id in Next(w, s).waiting && id !in w.waiting ==>
              exists payload, priority :: Next(w, s).waiting[id] == NewJob(id, payload, priority)
    ensures id >= Next(w, s).nextId ==> id >= w.nextId
  {
  }

  lemma {:induction false} RetriesStep(w: World, s: Step, w': World, id: JobId, entries: nat)
    requires Partitioned(w) && w' == Next(w, s) && Partitioned(w') && RetriesAccounted(w, id, entries)
    ensures RetriesAccounted(w', id, entries + if FailedIn(w', id) && !FailedIn(w, id) then 1 else 0)
  {
    if b :| b in w'.jobs && b.id == id {
      QueuedJobComesFrom(w, s, b);
      QueuedRetries(w, s, b, entries);
      OnlyOne(w', b);
      assert id in IdsOf(w'.jobs);
    } else {
      assert !FailedIn(w', id);
      if id in w'.waiting || id >= w'.nextId {
        UnqueuedBefore(w, s, id);
      }
    }
  }

  lemma {:induction false} OnlyOne(w: World, a: Job)
    requires DistinctIds(w.jobs) && a in w.jobs
    ensures FailedIn(w, a.id) <==> a.status.Failed?
    ensures forall b :: b in w.jobs && b.id == a.id ==> b == a
  {
  }

  // ---- Absorbing states ----

  predicate IsFinished(j: Job) {
    j.status.Completed? || j.status.Cancelled?
  }

  lemma {:induction false} FinishedStep(w: World, s: Step, j: Job)
    requires DistinctIds(w.jobs) && IsFinished(j) && j in w.jobs
    ensures j in Next(w, s).jobs || j.id in Next(w, s).discarded
  {
    var w' := Next(w, s);
    var k :| 0 <= k < |w.jobs| && w.jobs[k] == j;
    match s
    case Dispatch =>
      if BestOf(w.jobs, |w.jobs|).Some? {
        var i := BestOf(w.jobs, |w.jobs|).value;
        assert RemoveAt(w.jobs, i)[if k < i then k else k - 1] == j;
      }
    case Remove(id) => FilterHas(w.jobs, HasOtherId(id));
    case ClearCompleted => FilterHas(w.jobs, NotCompleted());
    case _ => assert w'.jobs[k] == j;
  }

  lemma {:induction false} FinishedNext(steps: seq<Step>, n: nat, j: Job)
    requires n < |steps| && IsFinished(j) && (j in At(steps, n).jobs || j.id in At(steps, n).discarded)
    ensures j in At(steps, n + 1).jobs || j.id in At(steps, n + 1).discarded
  {
    if j in At(steps, n).jobs {
      AlwaysPartitioned(steps, n);
      FinishedStep(At(steps, n), steps[n], j);
    }
  }

  lemma {:induction false} FinishedStays(steps: seq<Step>, n: nat, m: nat, j: Job)
    requires n <= m <= |steps| && IsFinished(j) && (j in At(steps, n).jobs || j.id in At(steps, n).discarded)
    ensures j in At(steps, m).jobs || j.id in At(steps, m).discarded
    decreases m - n
  {
    if n < m {
      FinishedNext(steps, n, j);
      FinishedStays(steps, n + 1, m, j);
    }
  }

  lemma {:induction false} NotDispatched(w: World, id: JobId)
    requires Partitioned(w) && (id in IdsOf(w.jobs) || id in w.discarded)
    ensures id !in IdsOf(w.dispatched)
  {
  }

  /** A job once seen Completed or Cancelled keeps that status while it stays, and is never handed out. */
  lemma {:induction false} FinishedStaysFinished(steps: seq<Step>, n: nat, m: nat, j: Job)
    requires n <= m <= |steps| && IsFinished(j) && j in At(steps, n).jobs
    ensures j in At(steps, m).jobs || j.id in At(steps, m).discarded
    ensures j.id !in IdsOf(At(steps, m).dispatched)
  {
    FinishedStays(steps, n, m, j);
    AlwaysPartitioned(steps, m);
    NotDispatched(At(steps, m), j.id);
  }
}
