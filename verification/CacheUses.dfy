/** Which events put and returned each live entry, and what that says about its eviction. */
module CacheUses {
  import opened Collections
  import opened Eviction
  import opened Retention
  import opened Cache
  import opened CacheRuns

  /** The number of the event that put an entry, and those of the gets that returned it since. */
  datatype Use = Use(put: nat, gets: seq<nat>)
  {
    function Last(): nat {
      if gets == [] then put else gets[|gets| - 1]
    }
  }

  datatype Labelled = Labelled(entry: Entry, use: Use)

  function EntriesOf(ls: seq<Labelled>): (es: seq<Entry>)
    ensures |es| == |ls|
  {
    seq(|ls|, i requires 0 <= i < |ls| => ls[i].entry)
  }

  function OnEntry(p: Entry -> bool): Labelled -> bool {
    (l: Labelled) => p(l.entry)
  }

  /** Labels go where the entries go in the eviction loop. */
  function Survivors(ls: seq<Labelled>, maxSize: nat): seq<Labelled>
    decreases |ls|
  {
    if Total(EntriesOf(ls)) <= maxSize then ls
    else Survivors(RemoveAt(ls, VictimOf(EntriesOf(ls), |ls|)), maxSize)
  }

  /** The labels after event `e`, number `n`: a put adds one, and a get is noted on the entry it returned. */
  function NextLabels(alnum: CharClass, s: State, ls: seq<Labelled>, e: Event, n: nat): seq<Labelled> {
    match e.call
    case Get(key, t) =>
      (match FindLive(s.entries, s.files, key, t)
       case None => ls
       case Some(i) =>
         var s' := Step(alnum, s, e);
         if i < |ls| && i < |s'.entries| then
           ls[i := Labelled(s'.entries[i], ls[i].use.(gets := ls[i].use.gets + [n]))]
         else ls)
    case Remove(key, t) => Filter(ls, OnEntry(IsElsewhere(key, t)))
    case Clear => []
    case _ =>
      match Added(alnum, s, e)
      case None => ls
      case Some(x) => Survivors(ls + [Labelled(x, Use(n, []))], s.maxSize)
  }

  function Labels(alnum: CharClass, s: State, es: seq<Event>, n: nat): seq<Labelled>
    requires n <= |es|
  {
    if n == 0 then []
    else NextLabels(alnum, After(alnum, s, es, n - 1), Labels(alnum, s, es, n - 1), es[n - 1], n - 1)
  }

  predicate Puts(e: Event, key: string, t: CacheType) {
    (e.call.Put? || e.call.PutPath?) && e.call.key == key && e.call.cacheType == t
  }

  /** What an entry says about its use is what the events say. */
  predicate Told(l: Labelled, es: seq<Event>, n: nat)
    requires n <= |es|
  {
    && l.use.put < n && Puts(es[l.use.put], l.entry.key, l.entry.cacheType)
    && (forall k :: 0 <= k < |l.use.gets| ==>
          l.use.put < l.use.gets[k] < n && es[l.use.gets[k]].call == Get(l.entry.key, l.entry.cacheType))
    && l.entry.createdAt == es[l.use.put].now
    && l.entry.accessCount == |l.use.gets|
    && l.entry.lastAccess == es[l.use.Last()].now
  }

  lemma {:induction false} SurvivorsFollow(ls: seq<Labelled>, maxSize: nat)
    ensures EntriesOf(Survivors(ls, maxSize)) == EvictLoop(EntriesOf(ls), maxSize)
    ensures forall l :: l in Survivors(ls, maxSize) ==> l in ls
    decreases |ls|
  {
    if Total(EntriesOf(ls)) > maxSize {
      var v := VictimOf(EntriesOf(ls), |ls|);
      SurvivorsFollow(RemoveAt(ls, v), maxSize);
      assert EntriesOf(RemoveAt(ls, v)) == RemoveAt(EntriesOf(ls), v);
    }
  }

  lemma {:induction false} FilterFollows(ls: seq<Labelled>, p: Entry -> bool)
    ensures EntriesOf(Filter(ls, OnEntry(p))) == Filter(EntriesOf(ls), p)
  {
    if ls != [] {
      FilterFollows(ls[1..], p);
      assert EntriesOf(ls)[1..] == EntriesOf(ls[1..]);
      assert EntriesOf([ls[0]] + Filter(ls[1..], OnEntry(p))) == [ls[0].entry] + EntriesOf(Filter(ls[1..], OnEntry(p)));
    }
  }

  lemma {:induction false} LabelsFollow(alnum: CharClass, s: State, ls: seq<Labelled>, e: Event, n: nat)
    requires EntriesOf(ls) == s.entries
    ensures EntriesOf(NextLabels(alnum, s, ls, e, n)) == Step(alnum, s, e).entries
  {
    StepFields(alnum, s, e);
    match e.call
    case Get(key, t) =>
      if FindLive(s.entries, s.files, key, t).Some? {
        assert |EntriesAfter(alnum, s, e)| == |ls|;
      }
    case Remove(key, t) => FilterFollows(ls, IsElsewhere(key, t));
    case Clear =>
    case _ =>
      match Added(alnum, s, e)
      case None =>
      case Some(x) =>
        var more := ls + [Labelled(x, Use(n, []))];
        assert EntriesOf(more) == s.entries + [x];
        SurvivorsFollow(more, s.maxSize);
  }

  lemma {:induction false} StillTold(l: Labelled, es: seq<Event>, n: nat)
    requires n < |es| && Told(l, es, n)
    ensures Told(l, es, n + 1)
  {
  }

  /** A hit adds one to the count of the entry it returned and sets its last access to now, and nothing else. */
  lemma {:induction false} ReturnedIsTold(alnum: CharClass, s: State, l: Labelled, es: seq<Event>, n: nat, i: nat)
    requires n < |es| && es[n].call.Get? && i < |s.entries| && l.entry == s.entries[i] && Told(l, es, n)
    requires FindLive(s.entries, s.files, es[n].call.key, es[n].call.cacheType) == Some(i)
    ensures i < |Step(alnum, s, es[n]).entries|
    ensures Told(Labelled(Step(alnum, s, es[n]).entries[i], l.use.(gets := l.use.gets + [n])), es, n + 1)
  {
    assert IsLive(s.entries[i], s.files, es[n].call.key, es[n].call.cacheType);
  }

  lemma {:induction false} AddedIsTold(alnum: CharClass, s: State, es: seq<Event>, n: nat)
    requires n < |es| && Added(alnum, s, es[n]).Some?
    ensures Told(Labelled(Added(alnum, s, es[n]).value, Use(n, [])), es, n + 1)
  {
  }

  ghost predicate AllTold(ls: seq<Labelled>, es: seq<Event>, n: nat)
    requires n <= |es|
  {
    forall l :: l in ls ==> Told(l, es, n)
  }

  lemma {:induction false} NextAreTold(alnum: CharClass, s: State, ls: seq<Labelled>, es: seq<Event>, n: nat)
    requires n < |es| && EntriesOf(ls) == s.entries && AllTold(ls, es, n)
    ensures AllTold(NextLabels(alnum, s, ls, es[n], n), es, n + 1)
  {
    forall l | l in ls
      ensures Told(l, es, n + 1)
    {
      StillTold(l, es, n);
    }
    match es[n].call
    case Get(key, t) =>
      var found := FindLive(s.entries, s.files, key, t);
      if found.Some? {
        assert ls[found.value] in ls && ls[found.value].entry == s.entries[found.value];
        ReturnedIsTold(alnum, s, ls[found.value], es, n, found.value);
        var ls' := NextLabels(alnum, s, ls, es[n], n);
        forall l | l in ls'
          ensures l == ls'[found.value] || l in ls
        {
          var k :| 0 <= k < |ls'| && ls'[k] == l;
        }
      }
    case Remove(key, t) => FilterHas(ls, OnEntry(IsElsewhere(key, t)));
    case Clear =>
    case _ =>
      match Added(alnum, s, es[n])
      case None =>
      case Some(x) =>
        AddedIsTold(alnum, s, es, n);
        SurvivorsFollow(ls + [Labelled(x, Use(n, []))], s.maxSize);
  }

  /** The labels are those of the live entries, and each entry says what the events say. */
  ghost predicate WellLabelled(alnum: CharClass, s: State, es: seq<Event>, n: nat)
    requires n <= |es|
  {
    && EntriesOf(Labels(alnum, s, es, n)) == After(alnum, s, es, n).entries
    && AllTold(Labels(alnum, s, es, n), es, n)
  }

  lemma {:induction false} WellLabelledNext(alnum: CharClass, s: State, es: seq<Event>, n: nat)
    requires n < |es| && WellLabelled(alnum, s, es, n)
    ensures WellLabelled(alnum, s, es, n + 1)
  {
    LabelsFollow(alnum, After(alnum, s, es, n), Labels(alnum, s, es, n), es[n], n);
    NextAreTold(alnum, After(alnum, s, es, n), Labels(alnum, s, es, n), es, n);
  }

  lemma {:induction false} WellLabelledAt(alnum: CharClass, s: State, es: seq<Event>, n: nat)
    requires n <= |es| && s.entries == []
    ensures WellLabelled(alnum, s, es, n)
  {
    if n > 0 {
      WellLabelledAt(alnum, s, es, n - 1);
      WellLabelledNext(alnum, s, es, n - 1);
    }
  }

  /** In every run from an empty cache each entry's last access is the time of the last get that returned it, or of its
      put if none did, and its access count is the number of those gets. */
  lemma {:induction false} LastAccessIsLastUse(alnum: CharClass, maxSize: nat, files: map<Path, nat>,
                                               es: seq<Event>, n: nat)
    requires n <= |es|
    ensures WellLabelled(alnum, Empty(maxSize, files), es, n)
  {
    WellLabelledAt(alnum, Empty(maxSize, files), es, n);
  }

  // ---- Who is evicted ----

  /** Fewer gets returned `a` than `b`, or as many and the last use of `a` was not later. */
  predicate NotMoreUsed(a: Use, b: Use, es: seq<Event>)
    requires a.Last() < |es| && b.Last() < |es|
  {
    |a.gets| < |b.gets| || (|a.gets| == |b.gets| && es[a.Last()].now <= es[b.Last()].now)
  }

  /** The labels before the eviction loop of the put in event `n`. */
  function LabelsWith(alnum: CharClass, s: State, es: seq<Event>, n: nat, x: Entry): seq<Labelled>
    requires n < |es|
  {
    Labels(alnum, s, es, n) + [Labelled(x, Use(n, []))]
  }

  lemma {:induction false} BelowIsNotMoreUsed(ls: seq<Labelled>, es: seq<Event>, n: nat, v: nat, k: nat)
    requires n <= |es| && v < |ls| && k < |ls| && Told(ls[v], es, n) && Told(ls[k], es, n)
    requires Below(EntriesOf(ls), v, k)
    ensures NotMoreUsed(ls[v].use, ls[k].use, es)
  {
  }

  /** In every run the entries a put leaves are those at `kept`, and every entry it evicts was returned by fewer gets
      than every entry it keeps, or by as many and was not used later. */
  lemma {:induction false} EvictedWasLessUsed(alnum: CharClass, maxSize: nat, files: map<Path, nat>,
                                              es: seq<Event>, n: nat) returns (kept: set<nat>)
    requires n < |es| && Added(alnum, After(alnum, Empty(maxSize, files), es, n), es[n]).Some?
    ensures
      var s := After(alnum, Empty(maxSize, files), es, n);
      var ls := LabelsWith(alnum, Empty(maxSize, files), es, n, Added(alnum, s, es[n]).value);
      && Step(alnum, s, es[n]).entries == Project(EntriesOf(ls), kept, |ls|)
      && AllTold(ls, es, n + 1)
      && forall v, k :: 0 <= v < |ls| && 0 <= k < |ls| && v !in kept && k in kept ==>
           Told(ls[v], es, n + 1) && Told(ls[k], es, n + 1) && NotMoreUsed(ls[v].use, ls[k].use, es)
  {
    var start := Empty(maxSize, files);
    var s := After(alnum, start, es, n);
    var x := Added(alnum, s, es[n]).value;
    var ls := LabelsWith(alnum, start, es, n, x);
    LastAccessIsLastUse(alnum, maxSize, files, es, n);
    AllToldWith(alnum, s, Labels(alnum, start, es, n), es, n);
    assert EntriesOf(ls) == s.entries + [x];
    StepFields(alnum, s, es[n]);
    kept := EvictionRefinesSpec(EntriesOf(ls), s.maxSize);
    forall v, k | 0 <= v < |ls| && 0 <= k < |ls| && v !in kept && k in kept
      ensures Told(ls[v], es, n + 1) && Told(ls[k], es, n + 1) && NotMoreUsed(ls[v].use, ls[k].use, es)
    {
      assert ls[v] in ls && ls[k] in ls;
      assert v in Positions(EntriesOf(ls)) - kept;
      BelowIsNotMoreUsed(ls, es, n + 1, v, k);
    }
  }

  lemma {:induction false} AllToldWith(alnum: CharClass, s: State, ls: seq<Labelled>, es: seq<Event>, n: nat)
    requires n < |es| && Added(alnum, s, es[n]).Some? && AllTold(ls, es, n)
    ensures AllTold(ls + [Labelled(Added(alnum, s, es[n]).value, Use(n, []))], es, n + 1)
  {
    forall l | l in ls
      ensures Told(l, es, n + 1)
    {
      StillTold(l, es, n);
    }
    AddedIsTold(alnum, s, es, n);
  }
}
