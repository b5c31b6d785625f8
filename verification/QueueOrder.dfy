/** In which order jobs leave the queue. */
module QueueOrder {
  import opened Collections
  import opened Jobs
  import opened Queue

  function Started(jobs: seq<Job>): seq<Job> {
    seq(|jobs|, i requires 0 <= i < |jobs| => jobs[i].(status := Running))
  }

  function Reverse<T>(s: seq<T>): seq<T> {
    if s == [] then [] else Reverse(s[1..]) + [s[0]]
  }

  function AtPriority(p: JobPriority): Job -> bool {
    (j: Job) => IsPending(j) && j.priority == p
  }

  function Above(p: JobPriority): Job -> bool {
    (j: Job) => IsPending(j) && j.priority.AsNat() > p.AsNat()
  }

  function NotPending(): Job -> bool {
    (j: Job) => !IsPending(j)
  }

  // ---- Draining ----

  /** What repeated calls of Dequeue return until the first None. */
  function Drained(jobs: seq<Job>): seq<Job>
    decreases |jobs|
  {
    match Dequeued(jobs)
    case None => []
    case Some(j) => [j] + Drained(AfterDequeue(jobs))
  }

  /** What those calls leave in the queue. */
  function Leftover(jobs: seq<Job>): seq<Job>
    decreases |jobs|
  {
    if Dequeued(jobs).None? then jobs else Leftover(AfterDequeue(jobs))
  }

  function NewestFirst(jobs: seq<Job>, p: JobPriority): seq<Job> {
    Reverse(Filter(jobs, AtPriority(p)))
  }

  /** The Pending jobs by descending priority, each priority from the back of the queue to the front. */
  function ByPriority(jobs: seq<Job>): seq<Job> {
    NewestFirst(jobs, Critical) + (NewestFirst(jobs, High) + (NewestFirst(jobs, Normal) + NewestFirst(jobs, Low)))
  }

  lemma {:induction false} ReverseAppend<T>(s: seq<T>, x: T)
    ensures Reverse(s + [x]) == [x] + Reverse(s)
  {
    if s != [] {
      assert (s + [x])[1..] == s[1..] + [x];
      ReverseAppend(s[1..], x);
    }
  }

  /** Position `i` holds a Pending job that no Pending job beats and no later one equals. */
  predicate IsBest(jobs: seq<Job>, i: nat) {
    && i < |jobs| && IsPending(jobs[i])
    && (forall k :: 0 <= k < |jobs| && IsPending(jobs[k]) ==> jobs[k].priority.AsNat() <= jobs[i].priority.AsNat())
    && (forall k :: i < k < |jobs| && IsPending(jobs[k]) ==> jobs[k].priority.AsNat() < jobs[i].priority.AsNat())
  }

  lemma {:induction false} OwnClass(jobs: seq<Job>, i: nat)
    requires IsBest(jobs, i)
    ensures NewestFirst(jobs, jobs[i].priority) == [jobs[i]] + NewestFirst(RemoveAt(jobs, i), jobs[i].priority)
  {
    var p := AtPriority(jobs[i].priority);
    FilterSplit(jobs, i, p);
    FilterRemoveAt(jobs, i, p);
    assert Filter(jobs[i + 1..], p) == [] by { FilterNone(jobs[i + 1..], p); }
    assert Filter(RemoveAt(jobs, i), p) == Filter(jobs[..i], p);
    assert Filter(jobs, p) == Filter(jobs[..i], p) + [jobs[i]];
    ReverseAppend(Filter(jobs[..i], p), jobs[i]);
  }

  lemma {:induction false} OtherClass(jobs: seq<Job>, i: nat, p: JobPriority)
    requires i < |jobs| && jobs[i].priority != p
    ensures NewestFirst(jobs, p) == NewestFirst(RemoveAt(jobs, i), p)
  {
    FilterSplit(jobs, i, AtPriority(p));
    FilterRemoveAt(jobs, i, AtPriority(p));
  }

  lemma {:induction false} HigherClass(jobs: seq<Job>, i: nat, p: JobPriority)
    requires IsBest(jobs, i) && p.AsNat() > jobs[i].priority.AsNat()
    ensures NewestFirst(jobs, p) == NewestFirst(RemoveAt(jobs, i), p) == []
  {
    FilterNone(jobs, AtPriority(p));
    OtherClass(jobs, i, p);
  }

  lemma {:induction false} ClassAfterRemoval(jobs: seq<Job>, i: nat, p: JobPriority)
    requires IsBest(jobs, i)
    ensures NewestFirst(jobs, p) ==
            (if jobs[i].priority == p then [jobs[i]] else []) + NewestFirst(RemoveAt(jobs, i), p)
    ensures p.AsNat() > jobs[i].priority.AsNat() ==> NewestFirst(RemoveAt(jobs, i), p) == []
  {
    if p.AsNat() > jobs[i].priority.AsNat() {
      HigherClass(jobs, i, p);
    } else if p == jobs[i].priority {
      OwnClass(jobs, i);
    } else {
      OtherClass(jobs, i, p);
    }
  }

  /** Prepending to the first non-empty of four parts prepends to the whole. */
  lemma {:induction false} PrependToPart<T>(x: T, a: seq<T>, b: seq<T>, c: seq<T>, d: seq<T>)
    ensures ([x] + a) + (b + (c + d)) == [x] + (a + (b + (c + d)))
    ensures [] + (([x] + b) + (c + d)) == [x] + ([] + (b + (c + d)))
    ensures [] + ([] + (([x] + c) + d)) == [x] + ([] + ([] + (c + d)))
    ensures [] + ([] + ([] + ([x] + d))) == [x] + ([] + ([] + ([] + d)))
  {
  }

  lemma {:induction false} DequeueTakesHead(jobs: seq<Job>, i: nat)
    requires IsBest(jobs, i)
    ensures ByPriority(jobs) == [jobs[i]] + ByPriority(RemoveAt(jobs, i))
  {
    var rest := RemoveAt(jobs, i);
    ClassAfterRemoval(jobs, i, Critical);
    ClassAfterRemoval(jobs, i, High);
    ClassAfterRemoval(jobs, i, Normal);
    ClassAfterRemoval(jobs, i, Low);
    assert forall s: seq<Job> :: [] + s == s;
    PrependToPart(jobs[i], NewestFirst(rest, Critical), NewestFirst(rest, High), NewestFirst(rest, Normal),
                  NewestFirst(rest, Low));
  }

  lemma {:induction false} DequeueKeepsOthers(jobs: seq<Job>)
    ensures Filter(AfterDequeue(jobs), NotPending()) == Filter(jobs, NotPending())
  {
    match BestOf(jobs, |jobs|)
    case None =>
    case Some(i) =>
      FilterSplit(jobs, i, NotPending());
      FilterRemoveAt(jobs, i, NotPending());
  }

  lemma {:induction false} FilterAll<T>(s: seq<T>, p: T -> bool)
    requires forall x :: x in s ==> p(x)
    ensures Filter(s, p) == s
  {
    if s != [] {
      FilterAll(s[1..], p);
    }
  }

  lemma {:induction false} NothingToDrain(jobs: seq<Job>)
    requires forall i :: 0 <= i < |jobs| ==> !IsPending(jobs[i])
    ensures ByPriority(jobs) == [] && Filter(jobs, NotPending()) == jobs
  {
    FilterNone(jobs, AtPriority(Critical));
    FilterNone(jobs, AtPriority(High));
    FilterNone(jobs, AtPriority(Normal));
    FilterNone(jobs, AtPriority(Low));
    FilterAll(jobs, NotPending());
  }

  lemma {:induction false} StartedCons(j: Job, rest: seq<Job>)
    ensures Started([j] + rest) == [j.(status := Running)] + Started(rest)
  {
  }

  /** Draining returns exactly the Pending jobs, started, in priority order, and leaves all others in place. */
  lemma {:induction false} DrainIsPriorityOrder(jobs: seq<Job>)
    ensures Drained(jobs) == Started(ByPriority(jobs))
    ensures Leftover(jobs) == Filter(jobs, NotPending())
    decreases |jobs|
  {
    if BestOf(jobs, |jobs|).None? {
      NothingToDrain(jobs);
    } else {
      var i := BestOf(jobs, |jobs|).value;
      DequeueTakesHead(jobs, i);
      DequeueKeepsOthers(jobs);
      DrainIsPriorityOrder(AfterDequeue(jobs));
      StartedCons(jobs[i], ByPriority(AfterDequeue(jobs)));
    }
  }

  // ---- The waiting line of one job, under arrivals ----

  /** How many Pending jobs leave before the one at position `k`: the more urgent ones anywhere,
      and those of equal priority behind it. */
  function Rank(jobs: seq<Job>, k: nat): nat
    requires k < |jobs|
  {
    |Filter(jobs, Above(jobs[k].priority))| + |Filter(jobs[k + 1..], AtPriority(jobs[k].priority))|
  }

  datatype Action = Take | Add(id: JobId, payload: Payload, priority: JobPriority)

  function After(jobs: seq<Job>, a: Action): seq<Job> {
    match a
    case Take => AfterDequeue(jobs)
    case Add(id, payload, priority) => jobs + [NewJob(id, payload, priority)]
  }

  /** What the Take actions of a script return. */
  function Takes(jobs: seq<Job>, script: seq<Action>): seq<Option<Job>>
    decreases |script|
  {
    if script == [] then []
    else if script[0].Take? then [Dequeued(jobs)] + Takes(After(jobs, script[0]), script[1..])
    else Takes(After(jobs, script[0]), script[1..])
  }

  function Remaining(jobs: seq<Job>, script: seq<Action>): seq<Job>
    decreases |script|
  {
    if script == [] then jobs else Remaining(After(jobs, script[0]), script[1..])
  }

  /** Which Take serves someone with `ahead` others in line: every Take serves one of them first,
      and an arrival jumps the line unless its priority is lower. */
  function ServedBy(script: seq<Action>, ahead: nat, p: JobPriority): Option<nat> {
    if script == [] then None
    else match script[0]
      case Take =>
        if ahead == 0 then Some(0)
        else (match ServedBy(script[1..], ahead - 1, p)
              case None => None
              case Some(t) => Some(t + 1))
      case Add(_, _, priority) =>
        ServedBy(script[1..], if priority.AsNat() >= p.AsNat() then ahead + 1 else ahead, p)
  }

  lemma {:induction false} RankOfArrival(jobs: seq<Job>, k: nat, a: Action)
    requires k < |jobs| && a.Add?
    ensures Rank(After(jobs, a), k)
            == Rank(jobs, k) + if a.priority.AsNat() >= jobs[k].priority.AsNat() then 1 else 0
  {
    var p, j := jobs[k].priority, NewJob(a.id, a.payload, a.priority);
    FilterConcat(jobs, [j], Above(p));
    assert (jobs + [j])[k + 1..] == jobs[k + 1..] + [j];
    FilterConcat(jobs[k + 1..], [j], AtPriority(p));
  }

  /** The head of the line is the one taken. */
  lemma {:induction false} RankZeroIsBest(jobs: seq<Job>, k: nat)
    requires k < |jobs| && IsPending(jobs[k])
    ensures Rank(jobs, k) == 0 <==> BestOf(jobs, |jobs|) == Some(k)
  {
    var p := jobs[k].priority;
    var b := BestOf(jobs, |jobs|).value;
    if b == k {
      FilterNone(jobs, Above(p));
      FilterNone(jobs[k + 1..], AtPriority(p));
    } else if jobs[b].priority.AsNat() > p.AsNat() {
      FilterSplit(jobs, b, Above(p));
    } else {
      assert jobs[k + 1..][b - k - 1] == jobs[b];
      FilterSplit(jobs[k + 1..], b - k - 1, AtPriority(p));
    }
  }

  lemma {:induction false} RankWithoutMoreUrgent(jobs: seq<Job>, k: nat, b: nat)
    requires k < |jobs| && b < |jobs| && Above(jobs[k].priority)(jobs[b])
    ensures b != k
    ensures
      var k' := if b < k then k - 1 else k;
      k' < |RemoveAt(jobs, b)| && RemoveAt(jobs, b)[k'] == jobs[k]
      && Rank(RemoveAt(jobs, b), k') == Rank(jobs, k) - 1
  {
    var p, rest := jobs[k].priority, RemoveAt(jobs, b);
    FilterSplit(jobs, b, Above(p));
    FilterRemoveAt(jobs, b, Above(p));
    if b < k {
      assert rest[k..] == jobs[k + 1..];
    } else {
      var behind := jobs[k + 1..];
      assert rest[k + 1..] == RemoveAt(behind, b - k - 1);
      FilterSplit(behind, b - k - 1, AtPriority(p));
      FilterRemoveAt(behind, b - k - 1, AtPriority(p));
    }
  }

  lemma {:induction false} RankWithoutEqualBehind(jobs: seq<Job>, k: nat, b: nat)
    requires k < b < |jobs| && AtPriority(jobs[k].priority)(jobs[b])
    ensures Rank(RemoveAt(jobs, b), k) == Rank(jobs, k) - 1
  {
    var p, rest, behind := jobs[k].priority, RemoveAt(jobs, b), jobs[k + 1..];
    FilterSplit(jobs, b, Above(p));
    FilterRemoveAt(jobs, b, Above(p));
    assert rest[k + 1..] == RemoveAt(behind, b - k - 1);
    FilterSplit(behind, b - k - 1, AtPriority(p));
    FilterRemoveAt(behind, b - k - 1, AtPriority(p));
  }

  /** Whoever else is taken was ahead in line. */
  lemma {:induction false} TakeMovesLine(jobs: seq<Job>, k: nat, b: nat)
    requires k < |jobs| && IsPending(jobs[k]) && BestOf(jobs, |jobs|) == Some(b) && b != k
    ensures
      var k' := if b < k then k - 1 else k;
      k' < |RemoveAt(jobs, b)| && RemoveAt(jobs, b)[k'] == jobs[k]
      && Rank(RemoveAt(jobs, b), k') == Rank(jobs, k) - 1
  {
    if jobs[b].priority.AsNat() > jobs[k].priority.AsNat() {
      RankWithoutMoreUrgent(jobs, k, b);
    } else {
      RankWithoutEqualBehind(jobs, k, b);
    }
  }

  predicate AtLeast(taken: Option<Job>, p: JobPriority) {
    taken.Some? && taken.value.priority.AsNat() >= p.AsNat()
  }

  /** What the waiting line predicts for a job: the take that returns it, after jobs at least as urgent only,
      or that it is still there at the end. */
  predicate Outcome(job: Job, served: Option<nat>, takes: seq<Option<Job>>, remaining: seq<Job>) {
    match served
    case Some(t) =>
      && t < |takes| && takes[t] == Some(job.(status := Running))
      && forall i :: 0 <= i < t ==> AtLeast(takes[i], job.priority)
    case None => job in remaining
  }

  lemma {:induction false} OneTakeEarlier(job: Job, served: Option<nat>, first: Option<Job>,
                                          takes: seq<Option<Job>>, remaining: seq<Job>)
    requires Outcome(job, served, takes, remaining) && AtLeast(first, job.priority)
    ensures Outcome(job, match served case None => None case Some(t) => Some(t + 1), [first] + takes, remaining)
  {
  }

  /** The waiting line predicts what becomes of the job at position `k`. */
  predicate Predicted(jobs: seq<Job>, k: nat, script: seq<Action>)
    requires k < |jobs|
  {
    Outcome(jobs[k], ServedBy(script, Rank(jobs, k), jobs[k].priority), Takes(jobs, script), Remaining(jobs, script))
  }

  lemma {:induction false} AddThenLine(jobs: seq<Job>, k: nat, script: seq<Action>)
    requires k < |jobs| && script != [] && script[0].Add? && Predicted(After(jobs, script[0]), k, script[1..])
    ensures Predicted(jobs, k, script)
  {
    RankOfArrival(jobs, k, script[0]);
  }

  /** Taking someone else first only shifts what the line predicts by one take. */
  lemma {:induction false} TakeThenLine(jobs: seq<Job>, k: nat, b: nat, script: seq<Action>)
    requires k < |jobs| && IsPending(jobs[k]) && script != [] && script[0].Take?
    requires BestOf(jobs, |jobs|) == Some(b) && b != k
    requires Predicted(RemoveAt(jobs, b), if b < k then k - 1 else k, script[1..])
    ensures Predicted(jobs, k, script)
  {
    RankZeroIsBest(jobs, k);
    TakeMovesLine(jobs, k, b);
    var rest := RemoveAt(jobs, b);
    OneTakeEarlier(jobs[k], ServedBy(script[1..], Rank(jobs, k) - 1, jobs[k].priority), Dequeued(jobs),
                   Takes(rest, script[1..]), Remaining(rest, script[1..]));
  }

  lemma {:induction false} HeadOfLine(jobs: seq<Job>, k: nat, script: seq<Action>)
    requires k < |jobs| && IsPending(jobs[k]) && script != [] && script[0].Take? && BestOf(jobs, |jobs|) == Some(k)
    ensures Predicted(jobs, k, script)
  {
    RankZeroIsBest(jobs, k);
  }

  /** For every script of takes and arrivals, the waiting line predicts exactly what becomes of a Pending job. */
  lemma {:induction false} ServedWhenLineEmpties(jobs: seq<Job>, k: nat, script: seq<Action>)
    requires k < |jobs| && IsPending(jobs[k])
    ensures Predicted(jobs, k, script)
    decreases |script|
  {
    if script != [] && script[0].Add? {
      ServedWhenLineEmpties(After(jobs, script[0]), k, script[1..]);
      AddThenLine(jobs, k, script);
    } else if script != [] {
      var b := BestOf(jobs, |jobs|).value;
      if b == k {
        HeadOfLine(jobs, k, script);
      } else {
        TakeMovesLine(jobs, k, b);
        ServedWhenLineEmpties(RemoveAt(jobs, b), if b < k then k - 1 else k, script[1..]);
        TakeThenLine(jobs, k, b, script);
      }
    }
  }

  function TakeCount(script: seq<Action>): nat {
    if script == [] then 0 else (if script[0].Take? then 1 else 0) + TakeCount(script[1..])
  }

  lemma {:induction false} ServedByRank(script: seq<Action>, ahead: nat, p: JobPriority)
    requires TakeCount(script) > ahead
    requires forall a :: a in script && a.Add? ==> a.priority.AsNat() < p.AsNat()
    ensures ServedBy(script, ahead, p) == Some(ahead)
  {
    if script[0].Add? {
      ServedByRank(script[1..], ahead, p);
    } else if ahead > 0 {
      ServedByRank(script[1..], ahead - 1, p);
    }
  }

  /** While only less urgent work arrives, a job with rank `r` is the result of exactly the take numbered `r`. */
  lemma {:induction false} TakenAtItsRank(jobs: seq<Job>, k: nat, script: seq<Action>)
    requires k < |jobs| && IsPending(jobs[k]) && TakeCount(script) > Rank(jobs, k)
    requires forall a :: a in script && a.Add? ==> a.priority.AsNat() < jobs[k].priority.AsNat()
    ensures Rank(jobs, k) < |Takes(jobs, script)|
    ensures Takes(jobs, script)[Rank(jobs, k)] == Some(jobs[k].(status := Running))
  {
    ServedByRank(script, Rank(jobs, k), jobs[k].priority);
    ServedWhenLineEmpties(jobs, k, script);
  }

  /** `rounds` times: a job of priority `p` arrives, then one job is taken. */
  function Arrivals(rounds: nat, p: JobPriority, payload: Payload): seq<Action> {
    if rounds == 0 then [] else [Add(rounds, payload, p), Take] + Arrivals(rounds - 1, p, payload)
  }

  lemma {:induction false} NeverServed(rounds: nat, p: JobPriority, payload: Payload, ahead: nat)
    ensures ServedBy(Arrivals(rounds, p, payload), ahead, p).None?
  {
    if rounds > 0 {
      var rest := Arrivals(rounds - 1, p, payload);
      var script := Arrivals(rounds, p, payload);
      assert script[1..] == [Take] + rest && script[1..][1..] == rest;
      NeverServed(rounds - 1, p, payload, ahead);
    }
  }

  /** Equal priorities are not first come, first served: a job can be overtaken for ever. */
  lemma {:induction false} EqualPriorityStarves(jobs: seq<Job>, k: nat, rounds: nat, payload: Payload)
    requires k < |jobs| && IsPending(jobs[k])
    ensures jobs[k] in Remaining(jobs, Arrivals(rounds, jobs[k].priority, payload))
  {
    NeverServed(rounds, jobs[k].priority, payload, Rank(jobs, k));
    ServedWhenLineEmpties(jobs, k, Arrivals(rounds, jobs[k].priority, payload));
  }
}
