/** When the cache's records and the files on disk say the same. */
module CacheDisk {
  import opened Collections
  import opened Eviction
  import opened Retention
  import opened Cache
  import opened CacheRuns

  predicate DistinctPaths(es: seq<Entry>) {
    forall i, j :: 0 <= i < j < |es| ==> es[i].path != es[j].path
  }

  predicate Recorded(alnum: CharClass, e: Entry, files: map<Path, nat>) {
    e.path in files && files[e.path] == e.size && e.path == PathOf(alnum, e.cacheType, e.key)
  }

  /** Entries and files correspond one to one, each file has the recorded size, and each path is its key's. */
  ghost predicate Mirror(alnum: CharClass, es: seq<Entry>, files: map<Path, nat>) {
    && DistinctPaths(es)
    && (forall e :: e in es ==> Recorded(alnum, e, files))
    && files.Keys == PathsOf(es)
  }

  ghost predicate Mirrors(alnum: CharClass, s: State) {
    Mirror(alnum, s.entries, s.files)
  }

  // ---- Disk use ----

  ghost function DiskUse(files: map<Path, nat>): nat
    decreases |files|
  {
    if files == map[] then 0
    else
      var p :| p in files;
      assert |files - {p}| < |files| by { RemoveShrinks(files, p); }
      files[p] + DiskUse(files - {p})
  }

  lemma {:induction false} RemoveShrinks(files: map<Path, nat>, p: Path)
    requires p in files
    ensures |files - {p}| == |files| - 1
  {
  }

  /** The order in which files are added up does not matter. */
  lemma {:induction false} DiskUseWithout(files: map<Path, nat>, p: Path)
    requires p in files
    ensures DiskUse(files) == files[p] + DiskUse(files - {p})
    decreases |files|
  {
    var q :| q in files && DiskUse(files) == files[q] + DiskUse(files - {q});
    if q != p {
      RemoveShrinks(files, q);
      RemoveShrinks(files, p);
      DiskUseWithout(files - {q}, p);
      DiskUseWithout(files - {p}, q);
      assert files - {q} - {p} == files - {p} - {q};
    }
  }

  lemma {:induction false} LastPathDiffers(es: seq<Entry>)
    requires es != [] && DistinctPaths(es)
    ensures
      var rest, e := es[..|es| - 1], es[|es| - 1];
      && DistinctPaths(rest) && PathsOf(rest) == PathsOf(es) - {e.path}
      && (forall x :: x in rest ==> x in es && x.path != e.path)
  {
  }

  predicate SizesRecorded(es: seq<Entry>, files: map<Path, nat>) {
    forall e :: e in es ==> e.path in files && files[e.path] == e.size
  }

  lemma {:induction false} DiskUseIsTotal(es: seq<Entry>, files: map<Path, nat>)
    requires DistinctPaths(es) && files.Keys == PathsOf(es) && SizesRecorded(es, files)
    ensures DiskUse(files) == Total(es)
  {
    if es != [] {
      var rest, e := es[..|es| - 1], es[|es| - 1];
      assert e in es;
      LastPathDiffers(es);
      DiskUseWithout(files, e.path);
      assert (files - {e.path}).Keys == PathsOf(rest);
      DiskUseIsTotal(rest, files - {e.path});
    } else {
      assert files == map[];
    }
  }

  // ---- Each step ----

  lemma {:induction false} FilterKeepsPaths(es: seq<Entry>, p: Entry -> bool)
    requires DistinctPaths(es)
    ensures DistinctPaths(Filter(es, p))
    ensures forall e :: e in Filter(es, p) <==> e in es && p(e)
  {
    FilterHas(es, p);
    if es != [] {
      FilterHas(es[1..], p);
      FilterKeepsPaths(es[1..], p);
      forall e | e in es[1..]
        ensures e.path != es[0].path
      {
        var i :| 0 <= i < |es[1..]| && es[1..][i] == e;
        assert es[i + 1] == e;
      }
    }
  }

  lemma {:induction false} SamePathSameEntry(es: seq<Entry>, a: Entry, b: Entry)
    requires DistinctPaths(es) && a in es && b in es && a.path == b.path
    ensures a == b
  {
  }

  /** Keeping some entries and deleting the files of the others keeps the correspondence. */
  lemma {:induction false} PartMirrors(alnum: CharClass, es: seq<Entry>, files: map<Path, nat>,
                                       part: seq<Entry>, gone: set<Path>)
    requires Mirror(alnum, es, files) && DistinctPaths(part)
    requires forall e :: e in part <==> e in es && e.path !in gone
    ensures Mirror(alnum, part, files - gone)
  {
  }

  lemma {:induction false} RemoveMirrors(alnum: CharClass, s: State, key: string, t: CacheType)
    requires Mirrors(alnum, s)
    ensures Mirrors(alnum, AfterRemove(s, key, t))
  {
    FilterKeepsPaths(s.entries, IsAt(key, t));
    forall e | e in s.entries
      ensures e.path in PathsOf(Filter(s.entries, IsAt(key, t))) <==> !IsElsewhere(key, t)(e)
    {
      if e.path in PathsOf(Filter(s.entries, IsAt(key, t))) {
        var x :| x in Filter(s.entries, IsAt(key, t)) && x.path == e.path;
        SamePathSameEntry(s.entries, e, x);
      }
    }
    FilterKeepsPaths(s.entries, IsElsewhere(key, t));
    PartMirrors(alnum, s.entries, s.files,
                Filter(s.entries, IsElsewhere(key, t)), PathsOf(Filter(s.entries, IsAt(key, t))));
  }

  lemma {:induction false} GetMirrors(alnum: CharClass, s: State, key: string, t: CacheType, now: Timestamp)
    requires Mirrors(alnum, s)
    ensures Mirrors(alnum, AfterGet(s, key, t, now))
  {
    var s' := AfterGet(s, key, t, now);
    assert |s'.entries| == |s.entries|;
    assert forall i :: 0 <= i < |s.entries| ==> s'.entries[i].path == s.entries[i].path;
    forall e | e in s'.entries
      ensures Recorded(alnum, e, s.files)
    {
      var i :| 0 <= i < |s.entries| && s'.entries[i] == e;
      assert s.entries[i] in s.entries && Recorded(alnum, s.entries[i], s.files);
    }
    forall path
      ensures path in PathsOf(s.entries) <==> path in PathsOf(s'.entries)
    {
      if path in PathsOf(s.entries) {
        var i :| 0 <= i < |s.entries| && s.entries[i].path == path;
        assert s'.entries[i] in s'.entries;
      }
      if path in PathsOf(s'.entries) {
        var i :| 0 <= i < |s.entries| && s'.entries[i].path == path;
        assert s.entries[i] in s.entries;
      }
    }
  }

  lemma {:induction false} PushMirrors(alnum: CharClass, s: State, x: Entry)
    requires Mirrors(alnum, s) && x.path == PathOf(alnum, x.cacheType, x.key) && x.path !in PathsOf(s.entries)
    ensures Mirrors(alnum, Pushed(s, x, x.size))
  {
  }

  lemma {:induction false} RemoveAtPaths(es: seq<Entry>, v: nat)
    requires v < |es| && DistinctPaths(es)
    ensures DistinctPaths(RemoveAt(es, v))
    ensures forall e :: e in RemoveAt(es, v) <==> e in es && e.path !in {es[v].path}
  {
  }

  lemma {:induction false} EvictOneMirrors(alnum: CharClass, s: State)
    requires Mirrors(alnum, s) && s.entries != []
    ensures Mirrors(alnum, AfterEvictOne(s))
  {
    var v := VictimOf(s.entries, |s.entries|);
    RemoveAtPaths(s.entries, v);
    PartMirrors(alnum, s.entries, s.files, RemoveAt(s.entries, v), {s.entries[v].path});
  }

  lemma {:induction false} EvictionMirrors(alnum: CharClass, s: State)
    requires Mirrors(alnum, s)
    ensures Mirrors(alnum, AfterEviction(s))
    decreases |s.entries|
  {
    if Total(s.entries) > s.maxSize {
      EvictOneMirrors(alnum, s);
      EvictionMirrors(alnum, AfterEvictOne(s));
    }
  }

  // ---- Whole runs ----

  /** A put goes to a file no live entry uses, and if its write fails it leaves the files as they were. */
  predicate Careful(alnum: CharClass, s: State, e: Event) {
    && (Added(alnum, s, e).Some? ==> Added(alnum, s, e).value.path !in PathsOf(s.entries))
    && AfterFailure(alnum, s, e) == s
  }

  /** Event `n` is careful about the state it comes upon. */
  predicate CarefulAt(alnum: CharClass, s: State, es: seq<Event>, n: nat)
    requires n < |es|
  {
    Careful(alnum, After(alnum, s, es, n), es[n])
  }

  ghost predicate NoReuse(alnum: CharClass, s: State, es: seq<Event>) {
    forall n :: 0 <= n < |es| ==> CarefulAt(alnum, s, es, n)
  }

  /** A file that no entry uses cannot be the source of a copy either. */
  lemma {:induction false} NothingIsCopiedOntoItself(alnum: CharClass, s: State, e: Event, x: Entry)
    requires Mirrors(alnum, s) && Added(alnum, s, e) == Some(x) && x.path !in PathsOf(s.entries)
    ensures Stored(e, x) == x.size
  {
  }

  lemma {:induction false} StepMirrors(alnum: CharClass, s: State, e: Event)
    requires Mirrors(alnum, s) && Careful(alnum, s, e)
    ensures Mirrors(alnum, Step(alnum, s, e))
  {
    match e.call
    case Get(key, t) => GetMirrors(alnum, s, key, t, e.now);
    case Remove(key, t) => RemoveMirrors(alnum, s, key, t);
    case Clear =>
    case _ =>
      match Added(alnum, s, e)
      case None =>
      case Some(x) =>
        PushMirrors(alnum, s, x);
        NothingIsCopiedOntoItself(alnum, s, e, x);
        EvictionMirrors(alnum, Pushed(s, x, x.size));
  }

  lemma {:induction false} EmptyMirrors(alnum: CharClass, maxSize: nat)
    ensures Mirrors(alnum, Empty(maxSize, map[]))
  {
  }

  lemma {:induction false} MirrorsNext(alnum: CharClass, s: State, es: seq<Event>, n: nat)
    requires n < |es| && NoReuse(alnum, s, es) && Mirrors(alnum, After(alnum, s, es, n))
    ensures Mirrors(alnum, After(alnum, s, es, n + 1))
  {
    assert CarefulAt(alnum, s, es, n);
    StepMirrors(alnum, After(alnum, s, es, n), es[n]);
  }

  lemma {:induction false} MirrorsThroughout(alnum: CharClass, s: State, es: seq<Event>, n: nat)
    requires n <= |es| && NoReuse(alnum, s, es) && Mirrors(alnum, s)
    ensures Mirrors(alnum, After(alnum, s, es, n))
  {
    if n > 0 {
      MirrorsThroughout(alnum, s, es, n - 1);
      MirrorsNext(alnum, s, es, n - 1);
    }
  }

  lemma {:induction false} AlwaysMirrors(alnum: CharClass, maxSize: nat, es: seq<Event>, n: nat)
    requires n <= |es| && NoReuse(alnum, Empty(maxSize, map[]), es)
    ensures Mirrors(alnum, After(alnum, Empty(maxSize, map[]), es, n))
  {
    EmptyMirrors(alnum, maxSize);
    MirrorsThroughout(alnum, Empty(maxSize, map[]), es, n);
  }

  /** Over an empty directory and without reuse, the files take up what the records say, which is at most the bound,
      and a key is contained exactly when it is listed. */
  lemma {:induction false} DiskUseIsBounded(alnum: CharClass, maxSize: nat, es: seq<Event>, n: nat,
                                            key: string, t: CacheType)
    requires n <= |es| && NoReuse(alnum, Empty(maxSize, map[]), es)
    ensures
      var s := After(alnum, Empty(maxSize, map[]), es, n);
      && DiskUse(s.files) == Total(s.entries) <= maxSize
      && (FindLive(s.entries, s.files, key, t).Some? <==> exists e :: e in s.entries && Matches(e, key, t))
  {
    var s := After(alnum, Empty(maxSize, map[]), es, n);
    AlwaysMirrors(alnum, maxSize, es, n);
    AlwaysFits(alnum, maxSize, map[], es, n);
    DiskUseIsTotal(s.entries, s.files);
    if e :| e in s.entries && Matches(e, key, t) {
      var i :| 0 <= i < |s.entries| && s.entries[i] == e;
      assert IsLive(s.entries[i], s.files, key, t);
    }
  }

  // ---- What a failed write does ----

  lemma {:induction false} FilesAreDetermined(alnum: CharClass, es: seq<Entry>, a: map<Path, nat>, b: map<Path, nat>)
    requires Mirror(alnum, es, a) && Mirror(alnum, es, b)
    ensures a == b
  {
    forall p | p in a
      ensures a[p] == b[p]
    {
      var e :| e in es && e.path == p;
      assert Recorded(alnum, e, a) && Recorded(alnum, e, b);
    }
  }

  /** A put that fails keeps the correspondence if and only if it leaves the files exactly as they were. */
  lemma {:induction false} FailedPutMirrorsIff(alnum: CharClass, s: State, e: Event)
    requires Mirrors(alnum, s) && (e.call.Put? || e.call.PutPath?) && Added(alnum, s, e).None?
    ensures Mirrors(alnum, Step(alnum, s, e)) <==> AfterFailure(alnum, s, e) == s
  {
    if Mirrors(alnum, Step(alnum, s, e)) {
      FilesAreDetermined(alnum, s.entries, s.files, Step(alnum, s, e).files);
    }
  }

  // ---- What reusing a file does ----

  /** `y` is the entry whose file the put overwrites. */
  predicate Occupant(es: seq<Entry>, x: Entry, y: Entry) {
    y in es && y.path == x.path
  }

  lemma {:induction false} ProjectHas(es: seq<Entry>, keep: set<nat>, i: nat, n: nat)
    requires i < n <= |es| && i in keep
    ensures |Project(es, keep, i)| < |Project(es, keep, n)|
    ensures Project(es, keep, n)[|Project(es, keep, i)|] == es[i]
  {
    if i < n - 1 {
      ProjectHas(es, keep, i, n - 1);
    }
  }

  /** Of two entries with one path, keeping both or only one of them breaks the correspondence: two records for
      one file, or a record whose file went with the other entry. */
  lemma {:induction false} OneOfTwoKept(alnum: CharClass, es: seq<Entry>, kept: set<nat>, i: nat, j: nat,
                                        files: map<Path, nat>)
    requires i < |es| && j < |es| && i != j && es[i].path == es[j].path && i in kept
    requires j !in kept ==> es[j].path !in files
    ensures !Mirror(alnum, Project(es, kept, |es|), files)
  {
    var left := Project(es, kept, |es|);
    ProjectHas(es, kept, i, |es|);
    if j in kept {
      ProjectHas(es, kept, j, |es|);
      ProjectHas(es, kept, if i < j then i else j, if i < j then j else i);
    } else {
      assert es[i] in left;
    }
  }

  lemma {:induction false} EvictedPathGone(es: seq<Entry>, kept: set<nat>, evicted: seq<Entry>, j: nat,
                                           files: map<Path, nat>)
    requires j < |es| && j !in kept && EachIsEvicted(es, Positions(es), kept, evicted)
    ensures es[j].path !in files - PathsOf(evicted)
  {
  }

  lemma {:induction false} EvictedWasUnread(es: seq<Entry>, x: Entry, y: Entry, evicted: seq<Entry>, z: Entry)
    returns (w: Entry)
    requires Occupant(es, x, y) && !Accessed(y) && z in evicted
    requires EachIsEvicted(es + [x], Positions(es + [x]), AccessedPositions(es), evicted)
    ensures w in es && w.path == z.path && !Accessed(w)
  {
    var i :| i in Positions(es + [x]) - AccessedPositions(es) && (es + [x])[i] == z;
    w := if i < |es| then es[i] else y;
  }

  /** If neither stays, their file is gone with them and nobody else is touched. */
  lemma {:induction false} NeitherKept(es: seq<Entry>, x: Entry, y: Entry, evicted: seq<Entry>)
    requires DistinctPaths(es) && Occupant(es, x, y) && !Accessed(y)
    requires EachIsEvicted(es + [x], Positions(es + [x]), AccessedPositions(es), evicted)
    ensures x.path in PathsOf(evicted)
    ensures forall e :: e in es ==> (e.path in PathsOf(evicted) <==> !Accessed(e))
  {
    var all := es + [x];
    assert all[|es|] == x && |es| in Positions(all) - AccessedPositions(es);
    forall e | e in es
      ensures e.path in PathsOf(evicted) <==> !Accessed(e)
    {
      if e.path in PathsOf(evicted) {
        var z :| z in evicted && z.path == e.path;
        var w := EvictedWasUnread(es, x, y, evicted, z);
        SamePathSameEntry(es, e, w);
      } else {
        var k :| 0 <= k < |es| && es[k] == e;
        assert all[k] == e;
        assert !Accessed(e) ==> k in Positions(all) - AccessedPositions(es);
      }
    }
  }

  /** The files after a put that stored so many bytes and whose eviction loop removed `evicted`. */
  function FilesAfter(s: State, x: Entry, stored: nat, evicted: seq<Entry>): map<Path, nat> {
    s.files[x.path := stored] - PathsOf(evicted)
  }

  lemma {:induction false} ReuseHarmless(alnum: CharClass, s: State, x: Entry, stored: nat, y: Entry,
                                         evicted: seq<Entry>)
    requires Mirrors(alnum, s) && Occupant(s.entries, x, y) && !Accessed(y)
    requires EachIsEvicted(s.entries + [x], Positions(s.entries + [x]), AccessedPositions(s.entries), evicted)
    ensures Mirror(alnum, Filter(s.entries, Accessed), FilesAfter(s, x, stored, evicted))
  {
    NeitherKept(s.entries, x, y, evicted);
    assert s.files[x.path := stored] - PathsOf(evicted) == s.files - PathsOf(evicted);
    FilterKeepsPaths(s.entries, Accessed);
    PartMirrors(alnum, s.entries, s.files, Filter(s.entries, Accessed), PathsOf(evicted));
  }

  lemma {:induction false} NewcomerKeptBreaks(alnum: CharClass, s: State, x: Entry, stored: nat, k: nat, kept: set<nat>,
                                              evicted: seq<Entry>)
    requires k < |s.entries| && s.entries[k].path == x.path && |s.entries| in kept
    requires EachIsEvicted(s.entries + [x], Positions(s.entries + [x]), kept, evicted)
    ensures !Mirror(alnum, Project(s.entries + [x], kept, |s.entries| + 1), FilesAfter(s, x, stored, evicted))
  {
    var all := s.entries + [x];
    assert all[k] == s.entries[k] && all[|s.entries|] == x;
    if k !in kept {
      EvictedPathGone(all, kept, evicted, k, s.files[x.path := stored]);
    }
    OneOfTwoKept(alnum, all, kept, |s.entries|, k, FilesAfter(s, x, stored, evicted));
  }

  lemma {:induction false} OccupantKeptBreaks(alnum: CharClass, s: State, x: Entry, stored: nat, k: nat, kept: set<nat>,
                                              evicted: seq<Entry>)
    requires k < |s.entries| && s.entries[k].path == x.path && k in kept && |s.entries| !in kept
    requires EachIsEvicted(s.entries + [x], Positions(s.entries + [x]), kept, evicted)
    ensures !Mirror(alnum, Project(s.entries + [x], kept, |s.entries| + 1), FilesAfter(s, x, stored, evicted))
  {
    var all := s.entries + [x];
    assert all[k] == s.entries[k] && all[|s.entries|] == x;
    EvictedPathGone(all, kept, evicted, |s.entries|, s.files[x.path := stored]);
    OneOfTwoKept(alnum, all, kept, k, |s.entries|, FilesAfter(s, x, stored, evicted));
  }

  lemma {:induction false} ReuseMirrorsIff(alnum: CharClass, s: State, x: Entry, stored: nat, y: Entry)
    requires Mirrors(alnum, s) && Total(s.entries) <= s.maxSize && NoLaterThan(s.entries, x.lastAccess)
    requires !Accessed(x) && Occupant(s.entries, x, y)
    ensures Mirror(alnum, EvictLoop(s.entries + [x], s.maxSize),
                   FilesAfter(s, x, stored, Evicted(s.entries + [x], s.maxSize)))
            <==> !Accessed(y) && x.size + AccessedSize(s.entries) > s.maxSize
  {
    var es, all, evicted := s.entries, s.entries + [x], Evicted(s.entries + [x], s.maxSize);
    var kept := EvictionRefinesSpec(all, s.maxSize);
    AccessedAreKept(es, x, s.maxSize, kept);
    if |es| in kept {
      KeptNewcomerFits(es, x, s.maxSize, kept);
    } else {
      DroppedNewcomerDoesNotFit(es, x, s.maxSize, kept);
    }
    MirrorsByFate(alnum, s, x, stored, y, kept, evicted);
  }

  /** Whether the newcomer and the entry whose file it took are kept decides. */
  lemma {:induction false} MirrorsByFate(alnum: CharClass, s: State, x: Entry, stored: nat, y: Entry, kept: set<nat>,
                                         evicted: seq<Entry>)
    requires Mirrors(alnum, s) && !Accessed(x) && Occupant(s.entries, x, y)
    requires EachIsEvicted(s.entries + [x], Positions(s.entries + [x]), kept, evicted)
    requires |s.entries| in kept || kept == AccessedPositions(s.entries)
    ensures Mirror(alnum, Project(s.entries + [x], kept, |s.entries| + 1), FilesAfter(s, x, stored, evicted))
            <==> !Accessed(y) && |s.entries| !in kept
  {
    var k :| 0 <= k < |s.entries| && s.entries[k] == y;
    if |s.entries| in kept {
      NewcomerKeptBreaks(alnum, s, x, stored, k, kept, evicted);
    } else if Accessed(y) {
      OccupantKeptBreaks(alnum, s, x, stored, k, kept, evicted);
    } else {
      NewcomerPlusAccessed(s.entries, x);
      ReuseHarmless(alnum, s, x, stored, y, evicted);
    }
  }

  /** After a put the records still mirror the files exactly when no live entry used its file, or that entry was
      never read and the newcomer does not fit, so that both are evicted together. */
  lemma {:induction false} PutMirrorsIff(alnum: CharClass, s: State, e: Event)
    requires Mirrors(alnum, s) && Total(s.entries) <= s.maxSize && NoLaterThan(s.entries, e.now)
    requires Added(alnum, s, e).Some?
    ensures
      var x := Added(alnum, s, e).value;
      Mirrors(alnum, Step(alnum, s, e)) <==>
      forall y :: Occupant(s.entries, x, y) ==> !Accessed(y) && x.size + AccessedSize(s.entries) > s.maxSize
  {
    var x := Added(alnum, s, e).value;
    if y :| Occupant(s.entries, x, y) {
      forall z | Occupant(s.entries, x, z)
        ensures z == y
      {
        SamePathSameEntry(s.entries, y, z);
      }
      AfterEvictionFields(Pushed(s, x, Stored(e, x)));
      ReuseMirrorsIff(alnum, s, x, Stored(e, x), y);
    } else {
      forall z | z in s.entries
        ensures z.path != x.path
      {
        assert !Occupant(s.entries, x, z);
      }
      NothingIsCopiedOntoItself(alnum, s, e, x);
      PushMirrors(alnum, s, x);
      EvictionMirrors(alnum, Pushed(s, x, x.size));
    }
  }
}
