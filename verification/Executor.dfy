/** Any number of concurrent calls of `execute_next`, with everyone else's queue and plugin-manager calls in between.
    A worker keeps the plugin manager's lock from the moment it looks its plugin up until it returns, and after a
    non-zero exit code it asks for that lock a second time. Whenever it records how a job ended, it panics if somebody
    else is using the metrics at that moment, which ends the worker and drops the lock. */
module Executor {
  import opened Collections
  import opened Jobs
  import opened Queue
  import opened QueueRuns

  datatype Phase =
    | Idle
    | WantsPlugins(job: Job)   // dequeued, waiting for the plugin manager
    | Supervising(job: Job)    // process spawned, polling it
    | Wedged(job: Job)         // waiting for the lock it holds itself
    | Crashed(job: Job)        // ended by a panic

  datatype Holder = Free | Worker(w: nat) | Other

  datatype System = System(world: World, phases: seq<Phase>, plugins: Holder, spawned: seq<Job>)

  datatype Exit = StillRunning | Exited(code: int) | WaitError(message: string)

  datatype Action =
    | QueueCall(step: Step)
    | OtherLocks
    | OtherUnlocks
    | Fetch(w: nat)
    | Launch(w: nat, known: bool, spawnError: Option<string>, metricsBusy: bool)
    | Poll(w: nat, elapsedSecs: real, exit: Exit, metricsBusy: bool)

  const JOB_TIMEOUT_SECS := 3600.0

  /** The worker tells the queue how its job ended and returns, dropping the lock. */
  function Report(s: System, w: nat, id: JobId, status: JobStatus): System
    requires w < |s.phases|
  {
    s.(world := Next(s.world, Update(id, status)), phases := s.phases[w := Idle], plugins := Free)
  }

  /** It also records the operation, which takes the metrics without waiting for them. */
  function ReportAndRecord(s: System, w: nat, job: Job, status: JobStatus, metricsBusy: bool): System
    requires w < |s.phases|
  {
    var told := Report(s, w, job.id, status);
    if metricsBusy then told.(phases := told.phases[w := Crashed(job)]) else told
  }

  function AfterFetch(s: System, w: nat): System {
    if w < |s.phases| && s.phases[w].Idle? && Dequeued(s.world.jobs).Some? then
      s.(world := Next(s.world, Dispatch), phases := s.phases[w := WantsPlugins(Dequeued(s.world.jobs).value)])
    else s
  }

  function AfterLaunch(s: System, w: nat, known: bool, spawnError: Option<string>, metricsBusy: bool): System {
    if w < |s.phases| && s.phases[w].WantsPlugins? && s.plugins.Free? then
      var job := s.phases[w].job;
      if !known then Report(s, w, job.id, Failed("plugin '" + job.payload.plugin + "' not found"))
      else match spawnError
        case Some(message) => ReportAndRecord(s, w, job, Failed("failed to spawn: " + message), metricsBusy)
        case None => s.(phases := s.phases[w := Supervising(job)], plugins := Worker(w), spawned := s.spawned + [job])
    else s
  }

  function AfterPoll(s: System, w: nat, elapsedSecs: real, exit: Exit, metricsBusy: bool): System {
    if w < |s.phases| && s.phases[w].Supervising? then
      var job := s.phases[w].job;
      if elapsedSecs > JOB_TIMEOUT_SECS then ReportAndRecord(s, w, job, Failed("timeout"), metricsBusy)
      else match exit
        case StillRunning => s
        case WaitError(message) => ReportAndRecord(s, w, job, Failed("process error: " + message), metricsBusy)
        case Exited(code) =>
          if code == 0 then ReportAndRecord(s, w, job, Completed, metricsBusy)
          else s.(phases := s.phases[w := Wedged(job)])
    else s
  }

  function After(s: System, a: Action): System {
    match a
    case QueueCall(step) => s.(world := Next(s.world, step))
    case OtherLocks => if s.plugins.Free? then s.(plugins := Other) else s
    case OtherUnlocks => if s.plugins.Other? then s.(plugins := Free) else s
    case Fetch(w) => AfterFetch(s, w)
    case Launch(w, known, spawnError, metricsBusy) => AfterLaunch(s, w, known, spawnError, metricsBusy)
    case Poll(w, elapsedSecs, exit, metricsBusy) => AfterPoll(s, w, elapsedSecs, exit, metricsBusy)
  }

  function Initial(workers: nat): System {
    System(START, seq(workers, _ => Idle), Free, [])
  }

  function At(workers: nat, actions: seq<Action>, n: nat): System
    requires n <= |actions|
  {
    if n == 0 then Initial(workers) else After(At(workers, actions, n - 1), actions[n - 1])
  }

  predicate HasProcess(p: Phase) {
    p.Supervising? || p.Wedged?
  }

  /** A worker at work has been handed its job. */
  ghost predicate Assigned(s: System) {
    forall w :: 0 <= w < |s.phases| && !s.phases[w].Idle? ==> s.phases[w].job.id in IdsOf(s.world.dispatched)
  }

  /** The worker with a process holds the plugin manager, and no other worker does. */
  predicate Locked(s: System) {
    && (forall w :: 0 <= w < |s.phases| && HasProcess(s.phases[w]) ==> s.plugins == Worker(w))
    && (s.plugins.Worker? ==> s.plugins.w < |s.phases| && HasProcess(s.phases[s.plugins.w]))
  }

  ghost predicate Sound(s: System) {
    Partitioned(s.world) && Assigned(s) && Locked(s)
  }

  lemma {:induction false} DispatchedIdsGrow(w: World, step: Step)
    ensures IdsOf(w.dispatched) <= IdsOf(Next(w, step).dispatched)
  {
  }

  /** Only Fetch and the calls of others ever change the queue: whatever becomes of a process, its job is gone. */
  lemma {:induction false} OutcomeLeavesQueue(s: System, a: Action)
    requires Sound(s) && (a.Launch? || a.Poll?)
    ensures After(s, a).world == s.world
  {
  }

  lemma {:induction false} QueueCallKeepsSound(s: System, step: Step)
    requires Sound(s)
    ensures Sound(After(s, QueueCall(step)))
  {
    NextKeepsPartition(s.world, step);
    DispatchedIdsGrow(s.world, step);
  }

  lemma {:induction false} FetchKeepsSound(s: System, w: nat)
    requires Sound(s)
    ensures Sound(AfterFetch(s, w))
  {
    if w < |s.phases| && s.phases[w].Idle? && Dequeued(s.world.jobs).Some? {
      NextKeepsPartition(s.world, Dispatch);
      DispatchedIdsGrow(s.world, Dispatch);
      IdsOfAppend(s.world.dispatched, Dequeued(s.world.jobs).value);
    }
  }

  lemma {:induction false} OutcomeKeepsLocked(s: System, a: Action)
    requires Locked(s) && (a.Launch? || a.Poll?)
    ensures Locked(After(s, a))
  {
  }

  /** A worker's job never changes while it is at work. */
  lemma {:induction false} OutcomeKeepsJob(s: System, a: Action, w: nat)
    requires w < |After(s, a).phases| && (a.Launch? || a.Poll?)
    ensures |After(s, a).phases| == |s.phases|
    ensures !After(s, a).phases[w].Idle? ==> !s.phases[w].Idle? && After(s, a).phases[w].job == s.phases[w].job
  {
  }

  lemma {:induction false} OutcomeKeepsSound(s: System, a: Action)
    requires Sound(s) && (a.Launch? || a.Poll?)
    ensures Sound(After(s, a))
  {
    var s' := After(s, a);
    OutcomeLeavesQueue(s, a);
    OutcomeKeepsLocked(s, a);
    assert Assigned(s') by {
      forall w | 0 <= w < |s'.phases| && !s'.phases[w].Idle?
        ensures s'.phases[w].job.id in IdsOf(s'.world.dispatched)
      {
        OutcomeKeepsJob(s, a, w);
      }
    }
  }

  lemma {:induction false} AfterKeepsSound(s: System, a: Action)
    requires Sound(s)
    ensures Sound(After(s, a))
  {
    match a
    case QueueCall(step) => QueueCallKeepsSound(s, step);
    case Fetch(w) => FetchKeepsSound(s, w);
    case Launch(_, _, _, _) => OutcomeKeepsSound(s, a);
    case Poll(_, _, _, _) => OutcomeKeepsSound(s, a);
    case _ =>
  }

  lemma {:induction false} AlwaysSound(workers: nat, actions: seq<Action>, n: nat)
    requires n <= |actions|
    ensures Sound(At(workers, actions, n))
  {
    if n > 0 {
      AlwaysSound(workers, actions, n - 1);
      AfterKeepsSound(At(workers, actions, n - 1), actions[n - 1]);
    }
  }

  /** However many workers there are, at most one of them has a process at any time. */
  lemma {:induction false} AtMostOneProcess(workers: nat, actions: seq<Action>, n: nat, v: nat, w: nat)
    requires n <= |actions|
    requires v < |At(workers, actions, n).phases| && w < |At(workers, actions, n).phases|
    requires HasProcess(At(workers, actions, n).phases[v]) && HasProcess(At(workers, actions, n).phases[w])
    ensures v == w
  {
    AlwaysSound(workers, actions, n);
  }

  // ---- What stops all work, and what does not ----

  /** The poll that sees a process exit with a non-zero code before its timeout. */
  predicate ExitsNonZero(s: System, a: Action) {
    && a.Poll? && a.w < |s.phases| && s.phases[a.w].Supervising?
    && a.elapsedSecs <= 3600.0 && a.exit.Exited? && a.exit.code != 0
  }

  /** The step with which a worker records an operation: a failed spawn, a timeout, a wait error or exit code 0. */
  predicate Records(s: System, a: Action) {
    match a
    case Launch(w, known, spawnError, _) =>
      w < |s.phases| && s.phases[w].WantsPlugins? && s.plugins.Free? && known && spawnError.Some?
    case Poll(w, elapsedSecs, exit, _) =>
      && w < |s.phases| && s.phases[w].Supervising?
      && (elapsedSecs > 3600.0 || exit.WaitError? || (exit.Exited? && exit.code == 0))
    case _ => false
  }

  predicate Panics(s: System, a: Action) {
    Records(s, a) && a.metricsBusy
  }

  /** Action `n` of the run shows worker `w` a non-zero exit code. */
  predicate NonZeroExitAt(workers: nat, actions: seq<Action>, n: nat, w: nat)
    requires n < |actions|
  {
    ExitsNonZero(At(workers, actions, n), actions[n]) && actions[n].w == w
  }

  /** In action `n` of the run worker `w` finds the metrics in use when it records an operation. */
  predicate CollisionAt(workers: nat, actions: seq<Action>, n: nat, w: nat)
    requires n < |actions|
  {
    Panics(At(workers, actions, n), actions[n]) && actions[n].w == w
  }

  predicate SawNonZeroExit(workers: nat, actions: seq<Action>, m: nat, w: nat)
    requires m <= |actions|
  {
    exists n :: 0 <= n < m && NonZeroExitAt(workers, actions, n, w)
  }

  predicate Collided(workers: nat, actions: seq<Action>, m: nat, w: nat)
    requires m <= |actions|
  {
    exists n :: 0 <= n < m && CollisionAt(workers, actions, n, w)
  }

  lemma {:induction false} StepFates(s: System, a: Action, w: nat)
    requires w < |s.phases|
    ensures |After(s, a).phases| == |s.phases|
    ensures After(s, a).phases[w].Wedged? <==> s.phases[w].Wedged? || (ExitsNonZero(s, a) && a.w == w)
    ensures After(s, a).phases[w].Crashed? <==> s.phases[w].Crashed? || (Panics(s, a) && a.w == w)
    ensures s.phases[w].Wedged? || s.phases[w].Crashed? ==> After(s, a).phases[w] == s.phases[w]
  {
  }

  /** What the run so far has made of worker `w`. */
  predicate FateKnown(workers: nat, actions: seq<Action>, m: nat, w: nat)
    requires m <= |actions|
  {
    && w < |At(workers, actions, m).phases| == workers
    && (At(workers, actions, m).phases[w].Wedged? <==> SawNonZeroExit(workers, actions, m, w))
    && (At(workers, actions, m).phases[w].Crashed? <==> Collided(workers, actions, m, w))
  }

  lemma {:induction false} FateNext(workers: nat, actions: seq<Action>, m: nat, w: nat)
    requires m < |actions| && FateKnown(workers, actions, m, w)
    ensures FateKnown(workers, actions, m + 1, w)
  {
    StepFates(At(workers, actions, m), actions[m], w);
    var s, s' := At(workers, actions, m), At(workers, actions, m + 1);
    assert s'.phases[w].Wedged? <==> s.phases[w].Wedged? || NonZeroExitAt(workers, actions, m, w);
    assert s'.phases[w].Crashed? <==> s.phases[w].Crashed? || CollisionAt(workers, actions, m, w);
  }

  /** In every run a worker waits for itself if and only if it has seen a non-zero exit code, and has crashed if and
      only if it has found the metrics in use. */
  lemma {:induction false} FateIffExitOrCollision(workers: nat, actions: seq<Action>, m: nat, w: nat)
    requires m <= |actions| && w < workers
    ensures FateKnown(workers, actions, m, w)
  {
    if m > 0 {
      FateIffExitOrCollision(workers, actions, m - 1, w);
      FateNext(workers, actions, m - 1, w);
    }
  }

  /** Worker `w` is through with its job: it is idle again, or has crashed, and the plugin manager is free. */
  predicate Through(s: System, after: System, w: nat, metricsBusy: bool) {
    && w < |s.phases| && !s.phases[w].Idle?
    && after.phases == s.phases[w := if metricsBusy then Crashed(s.phases[w].job) else Idle]
    && after.plugins == Free && after.spawned == s.spawned
  }

  /** A waiting worker that gets the plugin manager starts a process for its job if the plugin is known and can be
      spawned, and is through otherwise; an unknown plugin is not recorded. */
  lemma {:induction false} LaunchEffect(s: System, w: nat, known: bool, spawnError: Option<string>, metricsBusy: bool)
    requires w < |s.phases| && s.phases[w].WantsPlugins? && s.plugins == Free
    ensures
      var after := AfterLaunch(s, w, known, spawnError, metricsBusy);
      if known && spawnError == None then
        after == s.(phases := s.phases[w := Supervising(s.phases[w].job)], plugins := Worker(w),
                    spawned := s.spawned + [s.phases[w].job])
      else Through(s, after, w, metricsBusy && known)
  {
  }

  /** A poll within the hour that finds the process running changes nothing, and one that finds a non-zero exit code
      leaves the worker waiting for the lock it holds; every other end of a process gives the plugin manager back. */
  lemma {:induction false} PollEffect(s: System, w: nat, elapsedSecs: real, exit: Exit, metricsBusy: bool)
    requires w < |s.phases| && s.phases[w].Supervising?
    ensures
      var after := AfterPoll(s, w, elapsedSecs, exit, metricsBusy);
      if elapsedSecs <= 3600.0 && exit == StillRunning then after == s
      else if elapsedSecs <= 3600.0 && exit.Exited? && exit.code != 0 then
        after == s.(phases := s.phases[w := Wedged(s.phases[w].job)])
      else Through(s, after, w, metricsBusy)
  {
  }

  /** An idle worker takes the next job, if there is one, and others take and give back a lock nobody else has. */
  lemma {:induction false} OtherEffects(s: System, w: nat)
    requires w < |s.phases| && s.phases[w] == Idle
    ensures
      match Dequeued(s.world.jobs)
      case None => AfterFetch(s, w) == s
      case Some(job) =>
        && AfterFetch(s, w).phases == s.phases[w := WantsPlugins(job)]
        && AfterFetch(s, w).world.jobs == AfterDequeue(s.world.jobs)
        && AfterFetch(s, w).plugins == s.plugins && AfterFetch(s, w).spawned == s.spawned
    ensures After(s, OtherLocks) == if s.plugins == Free then s.(plugins := Other) else s
    ensures After(s, OtherUnlocks) == if s.plugins == Other then s.(plugins := Free) else s
  {
  }

  function Continue(s: System, more: seq<Action>): System
    decreases |more|
  {
    if more == [] then s else Continue(After(s, more[0]), more[1..])
  }

  /** Some continuation starts another process. */
  ghost predicate CanStart(s: System) {
    exists more :: |Continue(s, more).spawned| > |s.spawned|
  }

  lemma {:induction false} NothingStarts(s: System, more: seq<Action>, w: nat)
    requires Sound(s) && w < |s.phases| && s.phases[w].Wedged?
    ensures Continue(s, more).spawned == s.spawned
    ensures w < |Continue(s, more).phases| && Continue(s, more).phases[w] == s.phases[w]
    decreases |more|
  {
    if more != [] {
      AfterKeepsSound(s, more[0]);
      StepFates(s, more[0], w);
      NothingStarts(After(s, more[0]), more[1..], w);
    }
  }

  predicate AllCrashed(s: System) {
    forall w :: 0 <= w < |s.phases| ==> s.phases[w].Crashed?
  }

  lemma {:induction false} NobodyStarts(s: System, more: seq<Action>)
    requires AllCrashed(s)
    ensures Continue(s, more).spawned == s.spawned
    decreases |more|
  {
    if more != [] {
      assert After(s, more[0]).phases == s.phases;
      NobodyStarts(After(s, more[0]), more[1..]);
    }
  }

  lemma {:induction false} StartsAfter(s: System, a: Action)
    requires CanStart(After(s, a)) && |After(s, a).spawned| >= |s.spawned|
    ensures CanStart(s)
  {
    var more :| |Continue(After(s, a), more).spawned| > |After(s, a).spawned|;
    assert ([a] + more)[1..] == more;
    assert Continue(s, [a] + more) == Continue(After(s, a), more);
  }

  lemma {:induction false} StartsFromWaiting(s: System, w: nat)
    requires w < |s.phases| && s.phases[w].WantsPlugins? && s.plugins.Free?
    ensures CanStart(s)
  {
    var launch := Launch(w, true, None, false);
    assert [launch][1..] == [];
    assert Continue(s, [launch]) == After(s, launch);
  }

  lemma {:induction false} StartsFromQueued(s: System, w: nat)
    requires w < |s.phases| && s.phases[w].Idle? && s.plugins.Free? && Dequeued(s.world.jobs).Some?
    ensures CanStart(s)
  {
    StartsFromWaiting(After(s, Fetch(w)), w);
    StartsAfter(s, Fetch(w));
  }

  lemma {:induction false} StartsFromIdle(s: System, w: nat)
    requires w < |s.phases| && s.phases[w].Idle? && s.plugins.Free?
    ensures CanStart(s)
  {
    var draw := QueueCall(Draw(Payload("", "", "", []), Normal));
    var push := QueueCall(Push(s.world.nextId));
    var drawn := After(s, draw);
    var pushed := After(drawn, push);
    assert IsPending(pushed.world.jobs[|s.world.jobs|]);
    StartsFromQueued(pushed, w);
    StartsAfter(drawn, push);
    StartsAfter(s, draw);
  }

  lemma {:induction false} StartsFromFree(s: System, w: nat)
    requires Sound(s) && w < |s.phases| && s.plugins.Free? && !s.phases[w].Crashed?
    ensures CanStart(s)
  {
    if s.phases[w].Idle? {
      StartsFromIdle(s, w);
    } else {
      StartsFromWaiting(s, w);
    }
  }

  lemma {:induction false} StartsUnlessWedged(s: System, w: nat)
    requires Sound(s) && w < |s.phases| && !s.phases[w].Crashed?
    requires forall v :: 0 <= v < |s.phases| ==> !s.phases[v].Wedged?
    ensures CanStart(s)
  {
    match s.plugins
    case Free => StartsFromFree(s, w);
    case Other =>
      AfterKeepsSound(s, OtherUnlocks);
      StartsFromFree(After(s, OtherUnlocks), w);
      StartsAfter(s, OtherUnlocks);
    case Worker(v) =>
      var ended := Poll(v, 0.0, Exited(0), false);
      StartsFromIdle(After(s, ended), v);
      StartsAfter(s, ended);
  }

  /** No worker has seen a non-zero exit code, and some worker has never found the metrics in use. */
  predicate Spared(workers: nat, actions: seq<Action>, m: nat)
    requires m <= |actions|
  {
    && (forall w :: 0 <= w < workers ==> !SawNonZeroExit(workers, actions, m, w))
    && (exists w :: 0 <= w < workers && !Collided(workers, actions, m, w))
  }

  lemma {:induction false} SparedIff(workers: nat, actions: seq<Action>, m: nat)
    requires m <= |actions|
    ensures |At(workers, actions, m).phases| == workers
    ensures Spared(workers, actions, m) <==>
            && (forall w :: 0 <= w < workers ==> !At(workers, actions, m).phases[w].Wedged?)
            && !AllCrashed(At(workers, actions, m))
  {
    WorkersStay(workers, actions, m);
    forall w | 0 <= w < workers
      ensures At(workers, actions, m).phases[w].Wedged? <==> SawNonZeroExit(workers, actions, m, w)
      ensures At(workers, actions, m).phases[w].Crashed? <==> Collided(workers, actions, m, w)
    {
      FateIffExitOrCollision(workers, actions, m, w);
    }
  }

  lemma {:induction false} WorkersStay(workers: nat, actions: seq<Action>, m: nat)
    requires m <= |actions|
    ensures |At(workers, actions, m).phases| == workers
  {
    if m > 0 {
      WorkersStay(workers, actions, m - 1);
    }
  }

  /** In every run another process can still be started if and only if no process has exited with a non-zero code
      before its timeout, and some worker has never found the metrics in use when recording an operation. */
  lemma {:induction false} WorkGoesOnIff(workers: nat, actions: seq<Action>, m: nat)
    requires m <= |actions|
    ensures CanStart(At(workers, actions, m)) <==> Spared(workers, actions, m)
  {
    var s := At(workers, actions, m);
    AlwaysSound(workers, actions, m);
    SparedIff(workers, actions, m);
    if AllCrashed(s) {
      forall more
        ensures |Continue(s, more).spawned| <= |s.spawned|
      {
        NobodyStarts(s, more);
      }
    } else if w :| 0 <= w < workers && s.phases[w].Wedged? {
      forall more
        ensures |Continue(s, more).spawned| <= |s.spawned|
      {
        NothingStarts(s, more, w);
      }
    } else {
      var w :| 0 <= w < workers && !s.phases[w].Crashed?;
      StartsUnlessWedged(s, w);
    }
  }

  /** A worker that has seen a non-zero exit code never moves again, and nobody ever starts a process again. */
  lemma {:induction false} NonZeroExitStopsAllWork(workers: nat, actions: seq<Action>, n: nat, w: nat,
                                                   more: seq<Action>)
    requires n < |actions| && NonZeroExitAt(workers, actions, n, w)
    ensures
      var s := At(workers, actions, n + 1);
      && w < |s.phases| && s.phases[w] == Wedged(At(workers, actions, n).phases[w].job)
      && Continue(s, more).spawned == s.spawned
      && w < |Continue(s, more).phases| && Continue(s, more).phases[w] == s.phases[w]
  {
    AlwaysSound(workers, actions, n + 1);
    NothingStarts(At(workers, actions, n + 1), more, w);
  }

  /** One job of a single worker, and how its process ends. */
  function OneJob(exit: Exit, metricsBusy: bool): seq<Action> {
    [QueueCall(Draw(Payload("git", "fetch", "git", ["fetch"]), Normal)),
     QueueCall(Push(1)),
     Fetch(0),
     Launch(0, true, None, false),
     Poll(0, 1.0, exit, metricsBusy)]
  }

  lemma {:induction false} OneJobIsSupervised(exit: Exit, metricsBusy: bool)
    ensures |At(1, OneJob(exit, metricsBusy), 4).phases| == 1
    ensures At(1, OneJob(exit, metricsBusy), 4).phases[0].Supervising?
  {
    var run := OneJob(exit, metricsBusy);
    var job := NewJob(1, Payload("git", "fetch", "git", ["fetch"]), Normal);
    var s1 := After(Initial(1), run[0]);
    var s2 := After(s1, run[1]);
    assert s2.world.jobs == [] + [job] == [job];
    var s3 := After(s2, run[2]);
    assert IsPending([job][0]) && s3.phases[0].WantsPlugins?;
    var s4 := After(s3, run[3]);
    assert At(1, run, 1) == s1;
    assert At(1, run, 2) == s2;
    assert At(1, run, 3) == s3;
    assert At(1, run, 4) == s4;
  }

  /** Ending with exit code 1 is enough to stop all work. */
  lemma {:induction false} OneFailingJobStopsAllWork()
    ensures !CanStart(At(1, OneJob(Exited(1), false), 5))
  {
    OneJobIsSupervised(Exited(1), false);
    assert NonZeroExitAt(1, OneJob(Exited(1), false), 4, 0);
    assert SawNonZeroExit(1, OneJob(Exited(1), false), 5, 0);
    WorkGoesOnIff(1, OneJob(Exited(1), false), 5);
  }

  /** So is ending well while somebody is reading the metrics. */
  lemma {:induction false} OneCollisionStopsLoneWorker()
    ensures !CanStart(At(1, OneJob(Exited(0), true), 5))
  {
    OneJobIsSupervised(Exited(0), true);
    assert CollisionAt(1, OneJob(Exited(0), true), 4, 0);
    assert Collided(1, OneJob(Exited(0), true), 5, 0);
    WorkGoesOnIff(1, OneJob(Exited(0), true), 5);
  }

  // ---- No job is ever run twice ----

  ghost predicate RunOnce(s: System) {
    && DistinctIds(s.spawned) && IdsOf(s.spawned) <= IdsOf(s.world.dispatched)
    && (forall w :: 0 <= w < |s.phases| && s.phases[w].WantsPlugins? ==> s.phases[w].job.id !in IdsOf(s.spawned))
    && (forall v, w :: 0 <= v < w < |s.phases| && s.phases[v].WantsPlugins? && s.phases[w].WantsPlugins? ==>
          s.phases[v].job.id != s.phases[w].job.id)
  }

  lemma {:induction false} FetchKeepsRunOnce(s: System, w: nat)
    requires Sound(s) && RunOnce(s)
    ensures RunOnce(AfterFetch(s, w))
  {
  }

  lemma {:induction false} LaunchKeepsRunOnce(s: System, w: nat, known: bool, spawnError: Option<string>,
                                              metricsBusy: bool)
    requires Sound(s) && RunOnce(s)
    ensures RunOnce(AfterLaunch(s, w, known, spawnError, metricsBusy))
  {
  }

  lemma {:induction false} AfterKeepsRunOnce(s: System, a: Action)
    requires Sound(s) && RunOnce(s)
    ensures RunOnce(After(s, a))
  {
    match a
    case QueueCall(step) => DispatchedIdsGrow(s.world, step);
    case Fetch(w) => FetchKeepsRunOnce(s, w);
    case Launch(w, known, spawnError, metricsBusy) => LaunchKeepsRunOnce(s, w, known, spawnError, metricsBusy);
    case Poll(_, _, _, _) => OutcomeLeavesQueue(s, a);
    case _ =>
  }

  /** In every run the processes ever started belong to distinct jobs: no failure leads to a second attempt. */
  lemma {:induction false} NoJobRunsTwice(workers: nat, actions: seq<Action>, n: nat)
    requires n <= |actions|
    ensures RunOnce(At(workers, actions, n))
  {
    if n > 0 {
      NoJobRunsTwice(workers, actions, n - 1);
      AlwaysSound(workers, actions, n - 1);
      AfterKeepsRunOnce(At(workers, actions, n - 1), actions[n - 1]);
    }
  }
}
