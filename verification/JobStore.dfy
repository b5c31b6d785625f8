/** The job store: a map kept in memory, written back to its file when dirty. */
module JobStore {
  import opened Jobs
  import opened Persistence

  function IdOf(): Job -> JobId {
    (j: Job) => j.id
  }

  datatype State = State(jobs: map<JobId, Job>, dirty: bool, disk: Disk<Job>)

  datatype Call =
    | Insert(job: Job)
    | Mutate(id: JobId, job: Job)   // get_mut, and what the caller then assigns
    | Remove(id: JobId)
    | Save(order: seq<JobId>, outcome: Outcome<Job>)
    | SaveIfDirty(order: seq<JobId>, outcome: Outcome<Job>)
    | Reopen

  function Opened(disk: Disk<Job>): State {
    State(Loaded(disk, IdOf()), false, disk)
  }

  function AfterSave(s: State, order: seq<JobId>, outcome: Outcome<Job>): State
    requires IsOrder(order, s.jobs)
  {
    s.(disk := Write(ValuesOf(order, s.jobs), outcome), dirty := s.dirty && outcome.Broken?)
  }

  class Store {
    var jobs: map<JobId, Job>
    var dirty: bool
    var disk: Disk<Job>

    function View(): State
      reads this
    {
      State(jobs, dirty, disk)
    }

    constructor (disk: Disk<Job>)
      ensures View() == Opened(disk)
    {
      this.jobs := Loaded(disk, IdOf());
      this.dirty := false;
      this.disk := disk;
    }

    method Insert(job: Job)
      modifies this`jobs, this`dirty
      ensures View() == old(View()).(jobs := old(jobs)[job.id := job], dirty := true)
    {
      jobs := jobs[job.id := job];
      dirty := true;
    }

    method Mutate(id: JobId, job: Job) returns (found: bool)
      modifies this`jobs, this`dirty
      ensures found <==> id in old(jobs)
      ensures View() == old(View()).(jobs := if found then old(jobs)[id := job] else old(jobs), dirty := true)
    {
      dirty := true;
      found := id in jobs;
      if found {
        jobs := jobs[id := job];
      }
    }

    method Remove(id: JobId) returns (removed: bool)
      modifies this`jobs, this`dirty
      ensures removed <==> id in old(jobs)
      ensures View() == old(View()).(jobs := old(jobs) - {id}, dirty := true)
    {
      dirty := true;
      removed := id in jobs;
      jobs := jobs - {id};
    }

    method Save(order: seq<JobId>, outcome: Outcome<Job>) returns (ok: bool)
      requires IsOrder(order, jobs)
      modifies this`disk, this`dirty
      ensures ok == outcome.Written? && View() == AfterSave(old(View()), order, outcome)
    {
      var entries := ValuesOf(order, jobs);
      disk := Write(entries, outcome);
      if outcome.Broken? {
        return false;
      }
      dirty := false;
      ok := true;
    }

    method SaveIfDirty(order: seq<JobId>, outcome: Outcome<Job>) returns (ok: bool)
      requires IsOrder(order, jobs)
      modifies this`disk, this`dirty
      ensures View() == if old(dirty) then AfterSave(old(View()), order, outcome) else old(View())
      ensures ok <==> !old(dirty) || outcome.Written?
    {
      if dirty {
        ok := Save(order, outcome);
      } else {
        ok := true;
      }
    }
  }

  /** A failed save does no harm: the store knows that it is dirty, or the file still says the same. */
  predicate FailsHarmlessly(s: State, outcome: Outcome<Job>) {
    outcome.Broken? ==> s.dirty || Loaded(outcome.left, IdOf()) == s.jobs
  }

  /** What the environment may do: it enumerates the map somehow, leaves job ids alone, and does not break the file
      under a clean store. */
  predicate Allowed(s: State, c: Call) {
    match c
    case Mutate(id, job) => job.id == id
    case Save(order, outcome) => IsOrder(order, s.jobs) && FailsHarmlessly(s, outcome)
    case SaveIfDirty(order, _) => IsOrder(order, s.jobs)
    case _ => true
  }

  function Step(s: State, c: Call): State
    requires Allowed(s, c)
  {
    match c
    case Insert(job) => s.(jobs := s.jobs[job.id := job], dirty := true)
    case Mutate(id, job) => s.(jobs := if id in s.jobs then s.jobs[id := job] else s.jobs, dirty := true)
    case Remove(id) => s.(jobs := s.jobs - {id}, dirty := true)
    case Save(order, outcome) => AfterSave(s, order, outcome)
    case SaveIfDirty(order, outcome) => if s.dirty then AfterSave(s, order, outcome) else s
    case Reopen => Opened(s.disk)
  }

  /** A run: consecutive states from an opened store, each reached by an allowed call. */
  ghost predicate Run(states: seq<State>, calls: seq<Call>) {
    && |states| == |calls| + 1
    && states[0] == Opened(states[0].disk)
    && forall i :: 0 <= i < |calls| ==> Allowed(states[i], calls[i]) && states[i + 1] == Step(states[i], calls[i])
  }

  ghost predicate Coherent(s: State) {
    && KeyedBy(s.jobs, IdOf())
    && (!s.dirty ==> Loaded(s.disk, IdOf()) == s.jobs)
  }

  lemma {:induction false} OpenedIsCoherent(disk: Disk<Job>)
    ensures Coherent(Opened(disk))
  {
    match disk
    case Contents(values) => CollectIsKeyed(values, IdOf());
    case _ =>
  }

  lemma {:induction false} StepKeepsCoherent(s: State, c: Call)
    requires Coherent(s) && Allowed(s, c)
    ensures Coherent(Step(s, c))
    ensures c.SaveIfDirty? && c.outcome.Written? ==> Loaded(Step(s, c).disk, IdOf()) == Step(s, c).jobs == s.jobs
  {
    match c
    case Save(order, _) => RoundTripIff(order, s.jobs, IdOf());
    case SaveIfDirty(order, _) => RoundTripIff(order, s.jobs, IdOf());
    case Reopen => OpenedIsCoherent(s.disk);
    case _ =>
  }

  /** In every reachable state a clean store reloads to what is in memory, and after a successful save_if_dirty
      the store is the file, whatever order the map was enumerated in. A save_if_dirty may fail in any way. */
  lemma {:induction false} StoreIsCoherent(states: seq<State>, calls: seq<Call>, n: nat)
    requires Run(states, calls) && n <= |calls|
    ensures Coherent(states[n])
    ensures n > 0 && calls[n - 1].SaveIfDirty? && calls[n - 1].outcome.Written? ==>
              Loaded(states[n].disk, IdOf()) == states[n].jobs
  {
    if n == 0 {
      OpenedIsCoherent(states[0].disk);
    } else {
      StoreIsCoherent(states, calls, n - 1);
      assert states[n] == Step(states[n - 1], calls[n - 1]);
      StepKeepsCoherent(states[n - 1], calls[n - 1]);
    }
  }

  /** Changing an id through get_mut is what breaks the round trip, and nothing else does. */
  lemma {:induction false} SaveReloadsIff(s: State, order: seq<JobId>)
    requires IsOrder(order, s.jobs)
    ensures Loaded(AfterSave(s, order, Written).disk, IdOf()) == s.jobs
            <==> forall id :: id in s.jobs ==> s.jobs[id].id == id
  {
    RoundTripIff(order, s.jobs, IdOf());
  }

  /** What a broken write can leave so that nothing reloads to `s.jobs`: no file, or a job the store does not have. */
  function Spoilt(s: State): Disk<Job> {
    if s.jobs == map[] then Contents([NewJob(0, Payload("", "", "", []), Normal)]) else Missing
  }

  /** A save may fail in any way and do no harm exactly when the store was dirty; a clean one cannot tell. */
  lemma {:induction false} FailedSaveCoherentIff(s: State, order: seq<JobId>)
    requires Coherent(s) && IsOrder(order, s.jobs)
    ensures (forall left :: Coherent(AfterSave(s, order, Broken(left)))) <==> s.dirty
  {
    if !s.dirty {
      var spoilt := Spoilt(s);
      assert Loaded(spoilt, IdOf()) != s.jobs by {
        if s.jobs == map[] {
          assert 0 in Loaded(spoilt, IdOf());
        }
      }
      assert !Coherent(AfterSave(s, order, Broken(spoilt)));
    }
  }

  /** A store is opened clean; a save keeps the jobs, and clears the flag exactly when it succeeds. */
  lemma {:induction false} FlagIsTrue(s: State, order: seq<JobId>, outcome: Outcome<Job>)
    requires IsOrder(order, s.jobs)
    ensures !Opened(s.disk).dirty && Opened(s.disk).disk == s.disk
    ensures Opened(Missing).jobs == Opened(Unreadable).jobs == map[]
    ensures AfterSave(s, order, outcome).jobs == s.jobs
    ensures AfterSave(s, order, outcome).dirty <==> s.dirty && outcome != Written
    ensures outcome.Broken? ==> AfterSave(s, order, outcome).disk == outcome.left
  {
  }
}
