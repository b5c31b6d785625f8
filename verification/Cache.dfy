/** The cache manager: a list of entries, the files that hold their contents, and the hit and miss counters.
    The directory is a map from paths to file sizes. */
module Cache {
  import opened Collections
  import opened Eviction

  /** Which characters count as alphanumeric; a file name keeps those and three more. */
  type CharClass = char -> bool

  function SafeChar(alnum: CharClass, c: char): char {
    if alnum(c) || c == '-' || c == '_' || c == '.' then c else '_'
  }

  function SafeChars(alnum: CharClass, key: string): (r: string)
    ensures |r| == |key|
  {
    seq(|key|, i requires 0 <= i < |key| => SafeChar(alnum, key[i]))
  }

  function SanitizeFilename(alnum: CharClass, key: string): string {
    SafeChars(alnum, key) + ".cache"
  }

  function PathOf(alnum: CharClass, t: CacheType, key: string): Path {
    Path(t.AsString(), SanitizeFilename(alnum, key))
  }

  datatype State = State(entries: seq<Entry>, files: map<Path, nat>, maxSize: nat, hits: nat, misses: nat)

  predicate Matches(e: Entry, key: string, t: CacheType) {
    e.key == key && e.cacheType == t
  }

  predicate IsLive(e: Entry, files: map<Path, nat>, key: string, t: CacheType) {
    Matches(e, key, t) && e.path in files
  }

  /** The first entry with that key and type whose file exists. */
  function FindLive(es: seq<Entry>, files: map<Path, nat>, key: string, t: CacheType): (found: Option<nat>)
    ensures found.None? <==> forall i :: 0 <= i < |es| ==> !IsLive(es[i], files, key, t)
    ensures found.Some? ==> found.value < |es| && IsLive(es[found.value], files, key, t)
    ensures found.Some? ==> forall i :: 0 <= i < found.value ==> !IsLive(es[i], files, key, t)
  {
    if es == [] then None
    else if IsLive(es[0], files, key, t) then Some(0)
    else match FindLive(es[1..], files, key, t)
      case None => None
      case Some(i) => Some(i + 1)
  }

  function Touched(e: Entry, now: Timestamp): Entry {
    e.(accessCount := e.accessCount + 1, lastAccess := now)
  }

  function AfterGet(s: State, key: string, t: CacheType, now: Timestamp): State {
    match FindLive(s.entries, s.files, key, t)
    case None => s.(misses := s.misses + 1)
    case Some(i) => s.(entries := s.entries[i := Touched(s.entries[i], now)], hits := s.hits + 1)
  }

  function NewEntry(alnum: CharClass, key: string, t: CacheType, size: nat, now: Timestamp): Entry {
    Entry(key, PathOf(alnum, t, key), size, t, now, now, 0)
  }

  function AfterEvictOne(s: State): State
    requires s.entries != []
  {
    var v := VictimOf(s.entries, |s.entries|);
    s.(entries := RemoveAt(s.entries, v), files := s.files - {s.entries[v].path})
  }

  function AfterEviction(s: State): State
    decreases |s.entries|
  {
    if Total(s.entries) <= s.maxSize then s else AfterEviction(AfterEvictOne(s))
  }

  /** The new entry is listed, and its file holds `stored` bytes. */
  function Pushed(s: State, x: Entry, stored: nat): State {
    s.(entries := s.entries + [x], files := s.files[x.path := stored])
  }

  function AfterPut(s: State, x: Entry, stored: nat): State {
    AfterEviction(Pushed(s, x, stored))
  }

  /** What a put copies: a file elsewhere, a file of the cache directory itself, or something that cannot be read. */
  datatype Source = Outside(size: nat) | Inside(path: Path) | Unreadable

  function SourceSize(files: map<Path, nat>, source: Source): Option<nat> {
    match source
    case Outside(size) => Some(size)
    case Inside(path) => if path in files then Some(files[path]) else None
    case Unreadable => None
  }

  /** Copying a file onto itself empties it. */
  function CopiedSize(source: Source, dest: Path, size: nat): nat {
    if source == Inside(dest) then 0 else size
  }

  /** A write that fails may leave no file, the old one, or part of the new one. */
  datatype WriteOutcome = Written | Broken(left: Option<nat>)

  function AfterBroken(s: State, path: Path, left: Option<nat>): State {
    s.(files := if left.Some? then s.files[path := left.value] else s.files - {path})
  }

  function PathsOf(es: seq<Entry>): set<Path> {
    set e | e in es :: e.path
  }

  function IsAt(key: string, t: CacheType): Entry -> bool {
    (e: Entry) => Matches(e, key, t)
  }

  function IsElsewhere(key: string, t: CacheType): Entry -> bool {
    (e: Entry) => !Matches(e, key, t)
  }

  function AfterRemove(s: State, key: string, t: CacheType): State {
    s.(entries := Filter(s.entries, IsElsewhere(key, t)), files := s.files - PathsOf(Filter(s.entries, IsAt(key, t))))
  }

  function AfterClear(s: State): State {
    s.(entries := [], files := s.files - PathsOf(s.entries))
  }

  function OfType(t: CacheType): Entry -> bool {
    (e: Entry) => e.cacheType == t
  }

  function ListByType(es: seq<Entry>, t: CacheType): seq<Entry> {
    Filter(es, OfType(t))
  }

  datatype IoResult = Ok(entry: Entry) | IoError

  datatype CacheStats = CacheStats(
    totalEntries: nat,
    totalSize: nat,
    maxSize: nat,
    entriesByType: map<string, nat>,
    sizeByType: map<string, nat>,
    hitCount: nat,
    missCount: nat)

  /** The number a map built by `or_insert(0)` holds for a key. */
  function At(m: map<string, nat>, key: string): nat {
    if key in m then m[key] else 0
  }

  class CacheManager {
    const alnum: CharClass
    const maxSize: nat
    var entries: seq<Entry>
    var files: map<Path, nat>
    var hits: nat
    var misses: nat

    function View(): State
      reads this
    {
      State(entries, files, maxSize, hits, misses)
    }

    constructor (alnum: CharClass, maxSize: nat, files: map<Path, nat>)
      ensures View() == State([], files, maxSize, 0, 0) && this.alnum == alnum
    {
      this.alnum, this.maxSize := alnum, maxSize;
      this.entries, this.files, this.hits, this.misses := [], files, 0, 0;
    }

    method Get(key: string, t: CacheType, now: Timestamp) returns (entry: Option<Entry>)
      modifies this`entries, this`hits, this`misses
      ensures View() == AfterGet(old(View()), key, t, now)
      ensures entry == match FindLive(old(entries), files, key, t)
                       case None => None
                       case Some(i) => Some(old(entries)[i])
      ensures entry.Some? <==> exists e :: e in old(entries) && IsLive(e, files, key, t)
    {
      var idx := FindLive(entries, files, key, t);
      if idx.Some? {
        var found := entries[idx.value];
        entries := entries[idx.value := found.(accessCount := found.accessCount + 1, lastAccess := now)];
        hits := hits + 1;
        entry := Some(found);
      } else {
        misses := misses + 1;
        entry := None;
      }
    }

    method Put(key: string, t: CacheType, data: seq<bv8>, outcome: WriteOutcome, now: Timestamp)
      returns (r: IoResult)
      modifies this`entries, this`files
      ensures match outcome
              case Written =>
                var x := NewEntry(alnum, key, t, |data|, now);
                r == Ok(x) && View() == AfterPut(old(View()), x, |data|)
              case Broken(left) => r == IoError && View() == AfterBroken(old(View()), PathOf(alnum, t, key), left)
    {
      var filePath := PathOf(alnum, t, key);
      if outcome.Broken? {
        Break(filePath, outcome.left);
        return IoError;
      }
      files := files[filePath := |data|];
      var entry := Entry(key, filePath, files[filePath], t, now, now, 0);
      entries := entries + [entry];
      EvictWhileOver();
      r := Ok(entry);
    }

    method PutPath(key: string, t: CacheType, source: Source, outcome: WriteOutcome, now: Timestamp)
      returns (r: IoResult)
      modifies this`entries, this`files
      ensures SourceSize(old(files), source).None? ==> r == IoError && View() == old(View())
      ensures SourceSize(old(files), source).Some? ==>
                match outcome
                case Written =>
                  var x := NewEntry(alnum, key, t, SourceSize(old(files), source).value, now);
                  r == Ok(x) && View() == AfterPut(old(View()), x, CopiedSize(source, x.path, x.size))
                case Broken(left) => r == IoError && View() == AfterBroken(old(View()), PathOf(alnum, t, key), left)
    {
      var size := SourceSize(files, source);
      if size.None? {
        return IoError;
      }
      var destPath := PathOf(alnum, t, key);
      if outcome.Broken? {
        Break(destPath, outcome.left);
        return IoError;
      }
      files := files[destPath := CopiedSize(source, destPath, size.value)];
      var entry := Entry(key, destPath, size.value, t, now, now, 0);
      entries := entries + [entry];
      EvictWhileOver();
      r := Ok(entry);
    }

    /** What a failed write does to the disk. */
    method Break(path: Path, left: Option<nat>)
      modifies this`files
      ensures View() == AfterBroken(old(View()), path, left)
    {
      files := if left.Some? then files[path := left.value] else files - {path};
    }

    /** The eviction loop ends because the rest fits: its emergency exit is never taken. */
    method EvictWhileOver()
      modifies this`entries, this`files
      ensures View() == AfterEviction(old(View()))
      ensures Total(entries) <= maxSize
    {
      while Total(entries) > maxSize
        invariant AfterEviction(View()) == AfterEviction(old(View()))
        decreases |entries|
      {
        var evicted := EvictOne();
        if !evicted {
          assert false;
          break;
        }
      }
    }

    method EvictOne() returns (evicted: bool)
      modifies this`entries, this`files
      ensures evicted <==> old(entries) != []
      ensures View() == if evicted then AfterEvictOne(old(View())) else old(View())
    {
      if entries == [] {
        return false;
      }
      var idx := VictimOf(entries, |entries|);
      files := files - {entries[idx].path};
      entries := RemoveAt(entries, idx);
      evicted := true;
    }

    method Remove(key: string, t: CacheType) returns (removed: bool)
      modifies this`entries, this`files
      ensures View() == AfterRemove(old(View()), key, t)
      ensures removed <==> |entries| < |old(entries)|
    {
      var before := |entries|;
      files := files - PathsOf(Filter(entries, IsAt(key, t)));
      entries := Filter(entries, IsElsewhere(key, t));
      removed := |entries| < before;
    }

    method Contains(key: string, t: CacheType) returns (found: bool)
      ensures found <==> exists e :: e in entries && IsLive(e, files, key, t)
    {
      found := exists e :: e in entries && IsLive(e, files, key, t);
    }

    method Clear()
      modifies this`entries, this`files
      ensures View() == AfterClear(old(View()))
    {
      for i := 0 to |entries|
        invariant entries == old(entries)
        invariant files == old(files) - PathsOf(entries[..i])
      {
        assert entries[..i + 1] == entries[..i] + [entries[i]];
        assert PathsOf(entries[..i + 1]) == PathsOf(entries[..i]) + {entries[i].path};
        files := files - {entries[i].path};
      }
      assert entries[..|entries|] == entries;
      entries := [];
    }

    method Stats() returns (stats: CacheStats)
      ensures stats.totalEntries == |entries| && stats.totalSize == Total(entries) && stats.maxSize == maxSize
      ensures stats.hitCount == hits && stats.missCount == misses
      ensures forall t: CacheType :: At(stats.entriesByType, t.AsString()) == |ListByType(entries, t)|
      ensures forall t: CacheType :: At(stats.sizeByType, t.AsString()) == Total(ListByType(entries, t))
    {
      var entriesByType: map<string, nat> := map[];
      var sizeByType: map<string, nat> := map[];
      for i := 0 to |entries|
        invariant forall t: CacheType :: At(entriesByType, t.AsString()) == |ListByType(entries[..i], t)|
        invariant forall t: CacheType :: At(sizeByType, t.AsString()) == Total(ListByType(entries[..i], t))
      {
        var e := entries[i];
        assert entries[..i + 1] == entries[..i] + [e];
        forall t: CacheType
          ensures |ListByType(entries[..i + 1], t)|
                  == |ListByType(entries[..i], t)| + if e.cacheType == t then 1 else 0
          ensures Total(ListByType(entries[..i + 1], t))
                  == Total(ListByType(entries[..i], t)) + if e.cacheType == t then e.size else 0
        {
          ListByTypeAppend(entries[..i], e, t);
        }
        forall t: CacheType | t != e.cacheType
          ensures t.AsString() != e.cacheType.AsString()
        {
          TypeNamesDiffer(t, e.cacheType);
        }
        var name := e.cacheType.AsString();
        entriesByType := entriesByType[name := At(entriesByType, name) + 1];
        sizeByType := sizeByType[name := At(sizeByType, name) + e.size];
      }
      assert entries[..|entries|] == entries;
      stats := CacheStats(|entries|, Total(entries), maxSize, entriesByType, sizeByType, hits, misses);
    }
  }

  /** Type directories never clash. */
  lemma {:induction false} TypeNamesDiffer(a: CacheType, b: CacheType)
    requires a != b
    ensures a.AsString() != b.AsString()
  {
  }

  lemma {:induction false} ListByTypeAppend(es: seq<Entry>, e: Entry, t: CacheType)
    ensures |ListByType(es + [e], t)| == |ListByType(es, t)| + if e.cacheType == t then 1 else 0
    ensures Total(ListByType(es + [e], t)) == Total(ListByType(es, t)) + if e.cacheType == t then e.size else 0
  {
    FilterConcat(es, [e], OfType(t));
    TotalAppend(ListByType(es, t), e);
    assert ListByType(es, t) + [] == ListByType(es, t);
  }

  /** The six types together account for every entry and every byte. */
  lemma {:induction false} TypesAddUp(es: seq<Entry>)
    ensures |es| == |ListByType(es, GitObjects)| + |ListByType(es, OciLayers)| + |ListByType(es, PipWheels)|
                    + |ListByType(es, AptPackages)| + |ListByType(es, NpmPackages)| + |ListByType(es, Generic)|
    ensures Total(es)
            == Total(ListByType(es, GitObjects)) + Total(ListByType(es, OciLayers))
               + Total(ListByType(es, PipWheels)) + Total(ListByType(es, AptPackages))
               + Total(ListByType(es, NpmPackages)) + Total(ListByType(es, Generic))
  {
    if es != [] {
      var rest, e := es[..|es| - 1], es[|es| - 1];
      TypesAddUp(rest);
      assert es == rest + [e];
      TotalAppend(rest, e);
      ListByTypeAppend(rest, e, GitObjects);
      ListByTypeAppend(rest, e, OciLayers);
      ListByTypeAppend(rest, e, PipWheels);
      ListByTypeAppend(rest, e, AptPackages);
      ListByTypeAppend(rest, e, NpmPackages);
      ListByTypeAppend(rest, e, Generic);
    }
  }

  /** Two keys share a file exactly when they have the same type and length and agree character by character
      once unsafe characters have become underscores. */
  lemma {:induction false} SamePathIff(alnum: CharClass, t: CacheType, key: string, t': CacheType, key': string)
    ensures PathOf(alnum, t, key) == PathOf(alnum, t', key') <==>
            && t == t' && |key| == |key'|
            && forall i :: 0 <= i < |key| ==> SafeChar(alnum, key[i]) == SafeChar(alnum, key'[i])
  {
    var a, b := SafeChars(alnum, key), SafeChars(alnum, key');
    if t != t' {
      TypeNamesDiffer(t, t');
    } else {
      assert a + ".cache" == b + ".cache" ==> a == (a + ".cache")[..|a|] == (b + ".cache")[..|b|] == b by {
        assert |a + ".cache"| == |a| + 6 && |b + ".cache"| == |b| + 6;
      }
      SafeCharsAgreeIff(alnum, key, key');
    }
  }

  lemma {:induction false} SafeCharsAgreeIff(alnum: CharClass, key: string, key': string)
    ensures SafeChars(alnum, key) == SafeChars(alnum, key') <==>
            && |key| == |key'|
            && forall i :: 0 <= i < |key| ==> SafeChar(alnum, key[i]) == SafeChar(alnum, key'[i])
  {
    var a, b := SafeChars(alnum, key), SafeChars(alnum, key');
    if a == b {
      forall i | 0 <= i < |key|
        ensures SafeChar(alnum, key[i]) == SafeChar(alnum, key'[i])
      {
        assert a[i] == b[i];
      }
    }
  }

  // ---- What the calls do, told from keys, types and files ----

  /** A get returns an entry of that key and type whose file is there, the first one, or there is none. */
  lemma {:induction false} GetEffect(s: State, key: string, t: CacheType)
    ensures FindLive(s.entries, s.files, key, t).None? <==>
            forall e :: e in s.entries && e.key == key && e.cacheType == t ==> e.path !in s.files
    ensures FindLive(s.entries, s.files, key, t).Some? ==>
              var i := FindLive(s.entries, s.files, key, t).value;
              && s.entries[i].key == key && s.entries[i].cacheType == t && s.entries[i].path in s.files
              && forall k :: 0 <= k < i && s.entries[k].key == key && s.entries[k].cacheType == t ==>
                   s.entries[k].path !in s.files
  {
    var found := FindLive(s.entries, s.files, key, t);
    if found.None? {
      forall e | e in s.entries && e.key == key && e.cacheType == t
        ensures e.path !in s.files
      {
        var k :| 0 <= k < |s.entries| && s.entries[k] == e;
        assert !IsLive(s.entries[k], s.files, key, t);
      }
    } else {
      assert s.entries[found.value] in s.entries;
      assert forall k :: 0 <= k < found.value ==> !IsLive(s.entries[k], s.files, key, t);
    }
  }

  /** A removal drops exactly the entries of that key and type, and exactly their files. */
  lemma {:induction false} RemoveEffect(s: State, key: string, t: CacheType)
    ensures forall e :: e in AfterRemove(s, key, t).entries <==> e in s.entries && !(e.key == key && e.cacheType == t)
    ensures forall p :: p in AfterRemove(s, key, t).files <==>
              p in s.files && forall e :: e in s.entries && e.key == key && e.cacheType == t ==> e.path != p
  {
    FilterHas(s.entries, IsElsewhere(key, t));
    FilterHas(s.entries, IsAt(key, t));
  }

  /** A file lies in its type's directory, under its key with every unsafe character replaced, and a suffix. */
  lemma {:induction false} FileOfKey(alnum: CharClass, t: CacheType, key: string)
    ensures
      var Path(dir, name) := PathOf(alnum, t, key);
      && |name| == |key| + |".cache"| && name[|key|..] == ".cache"
      && (forall i :: 0 <= i < |key| ==>
            name[i] == if alnum(key[i]) || key[i] in "-_." then key[i] else '_')
      && (dir == "git" <==> t == GitObjects) && (dir == "oci" <==> t == OciLayers)
      && (dir == "pip" <==> t == PipWheels) && (dir == "apt" <==> t == AptPackages)
      && (dir == "npm" <==> t == NpmPackages) && (dir == "generic" <==> t == Generic)
  {
  }

  /** What a put may read, and how much a copy of it holds: a file copied onto itself ends up empty. */
  lemma {:induction false} CopyEffect(files: map<Path, nat>, dest: Path, path: Path, size: nat)
    ensures SourceSize(files, Outside(size)) == Some(size) && SourceSize(files, Unreadable) == None
    ensures SourceSize(files, Inside(path)) == if path !in files then None else Some(files[path])
    ensures CopiedSize(Outside(size), dest, size) == size
    ensures CopiedSize(Inside(path), dest, size) == if path == dest then 0 else size
  {
  }

  /** A failed write leaves something or nothing in its own file, and nothing else changes. */
  lemma {:induction false} BrokenEffect(s: State, path: Path, left: Option<nat>)
    ensures AfterBroken(s, path, left).(files := s.files) == s
    ensures forall p :: p != path ==>
              (p in AfterBroken(s, path, left).files <==> p in s.files)
              && (p in s.files ==> AfterBroken(s, path, left).files[p] == s.files[p])
    ensures path in AfterBroken(s, path, left).files <==> left != None
    ensures left != None ==> AfterBroken(s, path, left).files[path] == left.value
  {
  }
}
