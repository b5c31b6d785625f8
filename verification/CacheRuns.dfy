/** What holds over every run of the cache: it fits, it never drops what was read, and its counters add up. */
module CacheRuns {
  import opened Collections
  import opened Eviction
  import opened Retention
  import opened Cache

  datatype Call =
    | Get(key: string, cacheType: CacheType)
    | Put(key: string, cacheType: CacheType, size: nat, outcome: WriteOutcome)
    | PutPath(key: string, cacheType: CacheType, source: Source, outcome: WriteOutcome)
    | Remove(key: string, cacheType: CacheType)
    | Clear

  datatype Event = Event(call: Call, now: Timestamp)

  /** The entry a put adds, unless its input or output fails. */
  function Added(alnum: CharClass, s: State, e: Event): Option<Entry> {
    match e.call
    case Put(key, t, size, outcome) => if outcome.Written? then Some(NewEntry(alnum, key, t, size, e.now)) else None
    case PutPath(key, t, source, outcome) =>
      (match SourceSize(s.files, source)
       case Some(size) => if outcome.Written? then Some(NewEntry(alnum, key, t, size, e.now)) else None
       case None => None)
    case _ => None
  }

  /** What the file of the new entry then holds. */
  function Stored(e: Event, x: Entry): nat {
    if e.call.PutPath? then CopiedSize(e.call.source, x.path, x.size) else x.size
  }

  /** The state after a put whose input or output fails. */
  function AfterFailure(alnum: CharClass, s: State, e: Event): State {
    match e.call
    case Put(key, t, _, Broken(left)) => AfterBroken(s, PathOf(alnum, t, key), left)
    case PutPath(key, t, source, Broken(left)) =>
      if SourceSize(s.files, source).Some? then AfterBroken(s, PathOf(alnum, t, key), left) else s
    case _ => s
  }

  function Step(alnum: CharClass, s: State, e: Event): State {
    match e.call
    case Get(key, t) => AfterGet(s, key, t, e.now)
    case Remove(key, t) => AfterRemove(s, key, t)
    case Clear => AfterClear(s)
    case _ =>
      match Added(alnum, s, e)
      case None => AfterFailure(alnum, s, e)
      case Some(x) => AfterPut(s, x, Stored(e, x))
  }

  /** An empty cache over a directory that holds `files`. */
  function Empty(maxSize: nat, files: map<Path, nat>): State {
    State([], files, maxSize, 0, 0)
  }

  function After(alnum: CharClass, s: State, es: seq<Event>, n: nat): State
    requires n <= |es|
  {
    if n == 0 then s else Step(alnum, After(alnum, s, es, n - 1), es[n - 1])
  }

  predicate MonotoneClock(es: seq<Event>) {
    forall i, j :: 0 <= i <= j < |es| ==> es[i].now <= es[j].now
  }

  // ---- The entries a step leaves and drops, without the files ----

  function EntriesAfter(alnum: CharClass, s: State, e: Event): seq<Entry> {
    match e.call
    case Get(key, t) =>
      (match FindLive(s.entries, s.files, key, t)
       case None => s.entries
       case Some(i) => s.entries[i := Touched(s.entries[i], e.now)])
    case Remove(key, t) => Filter(s.entries, IsElsewhere(key, t))
    case Clear => []
    case _ =>
      match Added(alnum, s, e)
      case None => s.entries
      case Some(x) => EvictLoop(s.entries + [x], s.maxSize)
  }

  function Dropped(alnum: CharClass, s: State, e: Event): seq<Entry> {
    match e.call
    case Get(_, _) => []
    case Remove(key, t) => Filter(s.entries, IsAt(key, t))
    case Clear => s.entries
    case _ =>
      match Added(alnum, s, e)
      case None => []
      case Some(x) => Evicted(s.entries + [x], s.maxSize)
  }

  lemma {:induction false} AfterEvictionFields(s: State)
    ensures AfterEviction(s).entries == EvictLoop(s.entries, s.maxSize)
    ensures AfterEviction(s).files == s.files - PathsOf(Evicted(s.entries, s.maxSize))
    ensures AfterEviction(s).maxSize == s.maxSize
    ensures AfterEviction(s).hits == s.hits && AfterEviction(s).misses == s.misses
    decreases |s.entries|
  {
    if Total(s.entries) > s.maxSize {
      AfterEvictionFields(AfterEvictOne(s));
      var victim := s.entries[VictimOf(s.entries, |s.entries|)];
      var later := Evicted(AfterEvictOne(s).entries, s.maxSize);
      assert forall e :: e in [victim] + later <==> e == victim || e in later;
      assert PathsOf([victim] + later) == {victim.path} + PathsOf(later);
    } else {
      assert PathsOf([]) == {};
    }
  }

  lemma {:induction false} StepFields(alnum: CharClass, s: State, e: Event)
    ensures Step(alnum, s, e).entries == EntriesAfter(alnum, s, e)
    ensures Step(alnum, s, e).maxSize == s.maxSize
    ensures !e.call.Get? ==> Step(alnum, s, e).hits == s.hits && Step(alnum, s, e).misses == s.misses
  {
    match e.call
    case Get(_, _) =>
    case Remove(_, _) =>
    case Clear =>
    case _ =>
      match Added(alnum, s, e)
      case None =>
      case Some(x) => AfterEvictionFields(Pushed(s, x, Stored(e, x)));
  }

  // ---- The cache always fits, and reading an entry protects it ----

  lemma {:induction false} FilterFits(es: seq<Entry>, p: Entry -> bool)
    ensures Total(Filter(es, p)) <= Total(es)
  {
    if es != [] {
      var rest, e := es[..|es| - 1], es[|es| - 1];
      FilterFits(rest, p);
      FilterLast(es, p);
      if p(e) {
        TotalAppend(Filter(rest, p), e);
      } else {
        assert Filter(es, p) == Filter(rest, p);
      }
    }
  }

  lemma {:induction false} TouchKeepsTotal(es: seq<Entry>, i: nat, now: Timestamp)
    requires i < |es|
    ensures Total(es[i := Touched(es[i], now)]) == Total(es)
  {
    var es' := es[i := Touched(es[i], now)];
    if i < |es| - 1 {
      TouchKeepsTotal(es[..|es| - 1], i, now);
      assert es'[..|es| - 1] == es[..|es| - 1][i := Touched(es[i], now)];
    } else {
      assert es'[..|es| - 1] == es[..|es| - 1];
    }
  }

  lemma {:induction false} EvictionFits(es: seq<Entry>, maxSize: nat)
    ensures Total(EvictLoop(es, maxSize)) <= maxSize
    decreases |es|
  {
    if Total(es) > maxSize {
      EvictionFits(RemoveAt(es, VictimOf(es, |es|)), maxSize);
    }
  }

  lemma {:induction false} StepFits(alnum: CharClass, s: State, e: Event)
    requires Total(s.entries) <= s.maxSize
    ensures Total(Step(alnum, s, e).entries) <= Step(alnum, s, e).maxSize
  {
    StepFields(alnum, s, e);
    match e.call
    case Get(key, t) =>
      var idx := FindLive(s.entries, s.files, key, t);
      if idx.Some? {
        TouchKeepsTotal(s.entries, idx.value, e.now);
      }
    case Remove(key, t) => FilterFits(s.entries, IsElsewhere(key, t));
    case Clear =>
    case _ =>
      match Added(alnum, s, e)
      case None =>
      case Some(x) => EvictionFits(s.entries + [x], s.maxSize);
  }

  lemma {:induction false} AlwaysFits(alnum: CharClass, maxSize: nat, files: map<Path, nat>, es: seq<Event>, n: nat)
    requires n <= |es|
    ensures
      var s := After(alnum, Empty(maxSize, files), es, n);
      Total(s.entries) <= s.maxSize == maxSize
  {
    if n > 0 {
      AlwaysFits(alnum, maxSize, files, es, n - 1);
      StepFits(alnum, After(alnum, Empty(maxSize, files), es, n - 1), es[n - 1]);
      StepFields(alnum, After(alnum, Empty(maxSize, files), es, n - 1), es[n - 1]);
    }
  }

  ghost predicate NoLaterThan(es: seq<Entry>, now: Timestamp) {
    forall e :: e in es ==> e.lastAccess <= now
  }

  lemma {:induction false} EvictLoopWithin(es: seq<Entry>, maxSize: nat)
    ensures forall e :: e in EvictLoop(es, maxSize) ==> e in es
    decreases |es|
  {
    if Total(es) > maxSize {
      EvictLoopWithin(RemoveAt(es, VictimOf(es, |es|)), maxSize);
    }
  }

  lemma {:induction false} StepNoLater(alnum: CharClass, s: State, e: Event, now: Timestamp)
    requires NoLaterThan(s.entries, now) && now <= e.now
    ensures NoLaterThan(EntriesAfter(alnum, s, e), e.now)
  {
    match e.call
    case Remove(key, t) => FilterHas(s.entries, IsElsewhere(key, t));
    case Get(_, _) =>
    case Clear =>
    case _ =>
      match Added(alnum, s, e)
      case None =>
      case Some(x) => EvictLoopWithin(s.entries + [x], s.maxSize);
  }

  lemma {:induction false} AlwaysNoLater(alnum: CharClass, maxSize: nat, files: map<Path, nat>, es: seq<Event>, n: nat)
    requires n < |es| && MonotoneClock(es)
    ensures NoLaterThan(After(alnum, Empty(maxSize, files), es, n).entries, es[n].now)
  {
    if n > 0 {
      AlwaysNoLater(alnum, maxSize, files, es, n - 1);
      var s := After(alnum, Empty(maxSize, files), es, n - 1);
      StepNoLater(alnum, s, es[n - 1], es[n - 1].now);
      StepFields(alnum, s, es[n - 1]);
      assert es[n - 1].now <= es[n].now;
    }
  }

  /** `after` has exactly the entries of `before` that were ever read, and neither lost nor gained one. */
  predicate SameAccessed(before: seq<Entry>, after: seq<Entry>) {
    Filter(after, Accessed) == Filter(before, Accessed)
  }

  /** In every run from an empty cache, a successful put evicts no entry that was ever read. */
  lemma {:induction false} NoPutEvictsAccessed(alnum: CharClass, maxSize: nat, files: map<Path, nat>,
                                               es: seq<Event>, n: nat)
    requires n < |es| && Added(alnum, After(alnum, Empty(maxSize, files), es, n), es[n]).Some?
    ensures SameAccessed(After(alnum, Empty(maxSize, files), es, n).entries,
                         EntriesAfter(alnum, After(alnum, Empty(maxSize, files), es, n), es[n]))
    ensures forall e :: e in Dropped(alnum, After(alnum, Empty(maxSize, files), es, n), es[n]) ==> !Accessed(e)
  {
    var s := After(alnum, Empty(maxSize, files), es, n);
    AlwaysFits(alnum, maxSize, files, es, n);
    PutKeepsAccessed(s.entries, Added(alnum, s, es[n]).value, s.maxSize);
  }

  /** With a monotone clock the new entry is still there after its put exactly when it fits beside them. */
  lemma {:induction false} PutSurvivesIff(alnum: CharClass, maxSize: nat, files: map<Path, nat>, es: seq<Event>, n: nat)
    requires n < |es| && MonotoneClock(es)
    requires Added(alnum, After(alnum, Empty(maxSize, files), es, n), es[n]).Some?
    ensures
      var s := After(alnum, Empty(maxSize, files), es, n);
      var x := Added(alnum, s, es[n]).value;
      x in After(alnum, Empty(maxSize, files), es, n + 1).entries <==> x.size + AccessedSize(s.entries) <= maxSize
  {
    var s := After(alnum, Empty(maxSize, files), es, n);
    AlwaysFits(alnum, maxSize, files, es, n);
    AlwaysNoLater(alnum, maxSize, files, es, n);
    NewcomerSurvivesIffFits(s.entries, Added(alnum, s, es[n]).value, s.maxSize);
    StepFields(alnum, s, es[n]);
  }

  // ---- Accounting ----

  function Accesses(es: seq<Entry>): nat {
    if es == [] then 0 else es[0].accessCount + Accesses(es[1..])
  }

  /** Every entry evicted, removed or cleared in the first `n` events, as it was when it went. */
  function Gone(alnum: CharClass, s: State, es: seq<Event>, n: nat): seq<Entry>
    requires n <= |es|
  {
    if n == 0 then []
    else Gone(alnum, s, es, n - 1) + Dropped(alnum, After(alnum, s, es, n - 1), es[n - 1])
  }

  function Gets(es: seq<Event>, n: nat): nat
    requires n <= |es|
  {
    if n == 0 then 0 else Gets(es, n - 1) + if es[n - 1].call.Get? then 1 else 0
  }

  lemma {:induction false} AccessesConcat(a: seq<Entry>, b: seq<Entry>)
    ensures Accesses(a + b) == Accesses(a) + Accesses(b)
  {
    if a == [] {
      assert a + b == b;
    } else {
      assert (a + b)[1..] == a[1..] + b;
      AccessesConcat(a[1..], b);
    }
  }

  lemma {:induction false} AccessesReplace(es: seq<Entry>, i: nat, x: Entry)
    requires i < |es|
    ensures Accesses(es[i := x]) + es[i].accessCount == Accesses(es) + x.accessCount
    ensures Accesses(RemoveAt(es, i)) + es[i].accessCount == Accesses(es)
  {
    assert es == es[..i] + ([es[i]] + es[i + 1..]);
    assert es[i := x] == es[..i] + ([x] + es[i + 1..]);
    AccessesConcat(es[..i], [es[i]] + es[i + 1..]);
    AccessesConcat(es[..i], [x] + es[i + 1..]);
    AccessesConcat(es[..i], es[i + 1..]);
  }

  lemma {:induction false} AccessesSplit(es: seq<Entry>, key: string, t: CacheType)
    ensures Accesses(es) == Accesses(Filter(es, IsElsewhere(key, t))) + Accesses(Filter(es, IsAt(key, t)))
  {
    if es != [] {
      AccessesSplit(es[1..], key, t);
    }
  }

  lemma {:induction false} AccessesEvicted(es: seq<Entry>, maxSize: nat)
    ensures Accesses(es) == Accesses(EvictLoop(es, maxSize)) + Accesses(Evicted(es, maxSize))
    decreases |es|
  {
    if Total(es) > maxSize {
      var v := VictimOf(es, |es|);
      AccessesEvicted(RemoveAt(es, v), maxSize);
      AccessesReplace(es, v, es[v]);
    }
  }

  lemma {:induction false} StepAccounts(alnum: CharClass, s: State, e: Event)
    ensures Accesses(EntriesAfter(alnum, s, e)) + Accesses(Dropped(alnum, s, e)) + s.hits
            == Accesses(s.entries) + Step(alnum, s, e).hits
    ensures Step(alnum, s, e).hits + Step(alnum, s, e).misses == s.hits + s.misses + if e.call.Get? then 1 else 0
  {
    StepFields(alnum, s, e);
    match e.call
    case Get(key, t) =>
      var idx := FindLive(s.entries, s.files, key, t);
      if idx.Some? {
        AccessesReplace(s.entries, idx.value, Touched(s.entries[idx.value], e.now));
      }
    case Remove(key, t) => AccessesSplit(s.entries, key, t);
    case Clear =>
    case _ =>
      match Added(alnum, s, e)
      case None =>
      case Some(x) =>
        AccessesEvicted(s.entries + [x], s.maxSize);
        AccessesConcat(s.entries, [x]);
  }

  /** The books after `n` events: hits against access counts, and hits and misses against gets. */
  predicate Balanced(s: State, gone: seq<Entry>, gets: nat) {
    s.hits == Accesses(s.entries) + Accesses(gone) && s.hits + s.misses == gets
  }

  lemma {:induction false} StepBalances(alnum: CharClass, s: State, e: Event, gone: seq<Entry>, gets: nat)
    requires Balanced(s, gone, gets)
    ensures Balanced(Step(alnum, s, e), gone + Dropped(alnum, s, e), gets + if e.call.Get? then 1 else 0)
  {
    StepAccounts(alnum, s, e);
    StepFields(alnum, s, e);
    AccessesConcat(gone, Dropped(alnum, s, e));
  }

  predicate BalancedAt(alnum: CharClass, s: State, es: seq<Event>, n: nat)
    requires n <= |es|
  {
    Balanced(After(alnum, s, es, n), Gone(alnum, s, es, n), Gets(es, n))
  }

  lemma {:induction false} BalancedNext(alnum: CharClass, s: State, es: seq<Event>, n: nat)
    requires n < |es| && BalancedAt(alnum, s, es, n)
    ensures BalancedAt(alnum, s, es, n + 1)
  {
    StepBalances(alnum, After(alnum, s, es, n), es[n], Gone(alnum, s, es, n), Gets(es, n));
  }

  function Balance(alnum: CharClass, s: State, es: seq<Event>): nat -> bool {
    (n: nat) => n <= |es| ==> BalancedAt(alnum, s, es, n)
  }

  lemma {:induction false} BalanceIsKept(alnum: CharClass, s: State, es: seq<Event>, n: nat)
    requires n < |es| && Balance(alnum, s, es)(n)
    ensures Balance(alnum, s, es)(n + 1)
  {
    BalancedNext(alnum, s, es, n);
  }

  /** Every hit is on some entry's record, live or gone, and every get is a hit or a miss. */
  lemma {:induction false} HitsAreConserved(alnum: CharClass, maxSize: nat, files: map<Path, nat>,
                                            es: seq<Event>, n: nat)
    requires n <= |es|
    ensures
      var s := After(alnum, Empty(maxSize, files), es, n);
      && s.hits == Accesses(s.entries) + Accesses(Gone(alnum, Empty(maxSize, files), es, n))
      && s.hits + s.misses == Gets(es, n)
  {
    var start := Empty(maxSize, files);
    assert BalancedAt(alnum, start, es, 0);
    forall k: nat | k < n && Balance(alnum, start, es)(k)
      ensures Balance(alnum, start, es)(k + 1)
    {
      BalanceIsKept(alnum, start, es, k);
    }
    Always(Balance(alnum, start, es), n);
  }
}
