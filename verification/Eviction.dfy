/** The cache's eviction loop, and what it computes. */
module Eviction {
  import opened Collections

  datatype CacheType = GitObjects | OciLayers | PipWheels | AptPackages | NpmPackages | Generic
  {
    function AsString(): string {
      match this
      case GitObjects => "git"
      case OciLayers => "oci"
      case PipWheels => "pip"
      case AptPackages => "apt"
      case NpmPackages => "npm"
      case Generic => "generic"
    }
  }

  /** A file below the cache's base directory. */
  datatype Path = Path(dir: string, file: string)

  type Timestamp = nat

  datatype Entry = Entry(
    key: string,
    path: Path,
    size: nat,
    cacheType: CacheType,
    createdAt: Timestamp,
    lastAccess: Timestamp,
    accessCount: nat)

  function Total(es: seq<Entry>): nat {
    if es == [] then 0 else Total(es[..|es| - 1]) + es[|es| - 1].size
  }

  predicate LessKey(a: Entry, b: Entry) {
    a.accessCount < b.accessCount || (a.accessCount == b.accessCount && a.lastAccess < b.lastAccess)
  }

  /** The first of the entries with the least key among the first `n`. */
  function VictimOf(es: seq<Entry>, n: nat): (v: nat)
    requires 0 < n <= |es|
    ensures v < n
  {
    if n == 1 then 0
    else
      var v := VictimOf(es, n - 1);
      if LessKey(es[n - 1], es[v]) then n - 1 else v
  }

  /** The entries the loop leaves. */
  function EvictLoop(es: seq<Entry>, maxSize: nat): seq<Entry>
    decreases |es|
  {
    if Total(es) <= maxSize then es else EvictLoop(RemoveAt(es, VictimOf(es, |es|)), maxSize)
  }

  /** The entries the loop removes, in that order. */
  function Evicted(es: seq<Entry>, maxSize: nat): seq<Entry>
    decreases |es|
  {
    if Total(es) <= maxSize then []
    else [es[VictimOf(es, |es|)]] + Evicted(RemoveAt(es, VictimOf(es, |es|)), maxSize)
  }

  // ---- The specification: positions in the order (access count, last access, position) ----

  /** Position `i` precedes position `j` in eviction order. */
  predicate Below(es: seq<Entry>, i: nat, j: nat)
    requires i < |es| && j < |es|
  {
    || es[i].accessCount < es[j].accessCount
    || (es[i].accessCount == es[j].accessCount
        && (es[i].lastAccess < es[j].lastAccess || (es[i].lastAccess == es[j].lastAccess && i < j)))
  }

  /** The entries at the positions in `keep`, among the first `n`, in their order. */
  function Project(es: seq<Entry>, keep: set<nat>, n: nat): seq<Entry>
    requires n <= |es|
  {
    if n == 0 then []
    else Project(es, keep, n - 1) + if n - 1 in keep then [es[n - 1]] else []
  }

  function SizeOf(es: seq<Entry>, keep: set<nat>, n: nat): nat
    requires n <= |es|
  {
    if n == 0 then 0
    else SizeOf(es, keep, n - 1) + if n - 1 in keep then es[n - 1].size else 0
  }

  function Positions(es: seq<Entry>): (all: set<nat>)
    ensures forall i :: i in all <==> 0 <= i < |es|
  {
    Upto(|es|)
  }

  /** Everything outside `keep` precedes everything in it. */
  predicate DownClosed(es: seq<Entry>, keep: set<nat>)
    requires keep <= Positions(es)
  {
    forall v, k :: v in Positions(es) - keep && k in keep ==> Below(es, v, k)
  }

  /** `v` is the last position outside `keep` in eviction order. */
  predicate LastVictim(es: seq<Entry>, keep: set<nat>, v: nat)
    requires keep <= Positions(es)
  {
    v in Positions(es) - keep && forall u :: u in Positions(es) - keep && u != v ==> Below(es, u, v)
  }

  /** Dropping the shortest prefix, in eviction order, that makes the rest fit leaves exactly `keep`. */
  ghost predicate IsEviction(es: seq<Entry>, maxSize: nat, keep: set<nat>) {
    && keep <= Positions(es)
    && DownClosed(es, keep)
    && SizeOf(es, keep, |es|) <= maxSize
    && forall v :: LastVictim(es, keep, v) ==> SizeOf(es, keep + {v}, |es|) > maxSize
  }

  // ---- Sizes and projections ----

  lemma {:induction false} SizeMonotone(es: seq<Entry>, a: set<nat>, b: set<nat>, n: nat)
    requires n <= |es| && forall i :: i in a && i < n ==> i in b
    ensures SizeOf(es, a, n) <= SizeOf(es, b, n)
  {
    if n > 0 {
      SizeMonotone(es, a, b, n - 1);
    }
  }

  lemma {:induction false} TotalAppend(es: seq<Entry>, x: Entry)
    ensures Total(es + [x]) == Total(es) + x.size
  {
  }

  lemma {:induction false} TotalOfProject(es: seq<Entry>, keep: set<nat>, n: nat)
    requires n <= |es|
    ensures Total(Project(es, keep, n)) == SizeOf(es, keep, n)
  {
    if n > 0 {
      TotalOfProject(es, keep, n - 1);
      if n - 1 in keep {
        TotalAppend(Project(es, keep, n - 1), es[n - 1]);
      } else {
        assert Project(es, keep, n) == Project(es, keep, n - 1);
      }
    }
  }

  lemma {:induction false} ProjectAll(es: seq<Entry>, n: nat)
    requires n <= |es|
    ensures Project(es, Positions(es), n) == es[..n]
  {
    if n > 0 {
      ProjectAll(es, n - 1);
    }
  }

  lemma {:induction false} ProjectEmpty(es: seq<Entry>, keep: set<nat>, n: nat)
    requires n <= |es| && Project(es, keep, n) == []
    ensures forall i :: 0 <= i < n ==> i !in keep
  {
    if n > 0 {
      ProjectEmpty(es, keep, n - 1);
    }
  }

  lemma {:induction false} ProjectIgnores(es: seq<Entry>, keep: set<nat>, i: nat, n: nat)
    requires n <= |es| && n <= i
    ensures Project(es, keep - {i}, n) == Project(es, keep, n)
  {
    if n > 0 {
      ProjectIgnores(es, keep, i, n - 1);
    }
  }

  lemma {:induction false} VictimOfPrefix(a: seq<Entry>, b: seq<Entry>, n: nat)
    requires 0 < n <= |a| && n <= |b| && a[..n] == b[..n]
    ensures VictimOf(a, n) == VictimOf(b, n)
  {
    assert a[n - 1] == a[..n][n - 1] == b[n - 1];
    if n > 1 {
      assert a[..n - 1] == a[..n][..n - 1] == b[..n - 1];
      VictimOfPrefix(a, b, n - 1);
      assert a[VictimOf(a, n - 1)] == a[..n][VictimOf(a, n - 1)];
    }
  }

  lemma {:induction false} VictimOfAppend(es: seq<Entry>, x: Entry)
    requires es != []
    ensures
      var v := VictimOf(es, |es|);
      VictimOf(es + [x], |es| + 1) == if LessKey(x, es[v]) then |es| else v
  {
    assert (es + [x])[..|es|] == es[..|es|];
    VictimOfPrefix(es + [x], es, |es|);
  }

  /** `i` precedes all other kept positions below `n`. */
  predicate Lowest(es: seq<Entry>, keep: set<nat>, n: nat, i: nat)
    requires n <= |es|
  {
    i < n && i in keep && forall k :: 0 <= k < n && k in keep && k != i ==> Below(es, i, k)
  }

  lemma {:induction false} LowestExtends(es: seq<Entry>, keep: set<nat>, n: nat, low: nat)
    requires 0 < n <= |es| && Lowest(es, keep, n - 1, low) && n - 1 in keep
    ensures Lowest(es, keep, n, if LessKey(es[n - 1], es[low]) then n - 1 else low)
  {
  }

  /** The lowest kept position sits where the loop finds its victim. */
  lemma {:induction false} VictimIsLowest(es: seq<Entry>, keep: set<nat>, n: nat) returns (i: nat)
    requires n <= |es| && Project(es, keep, n) != []
    ensures Lowest(es, keep, n, i)
    ensures
      var p := Project(es, keep, n);
      var v := VictimOf(p, |p|);
      v == |Project(es, keep, i)| && p[v] == es[i]
  {
    var before := Project(es, keep, n - 1);
    if n - 1 !in keep {
      assert Project(es, keep, n) == before;
      i := VictimIsLowest(es, keep, n - 1);
    } else if before == [] {
      ProjectEmpty(es, keep, n - 1);
      i := n - 1;
    } else {
      var low := VictimIsLowest(es, keep, n - 1);
      VictimOfAppend(before, es[n - 1]);
      LowestExtends(es, keep, n, low);
      i := if LessKey(es[n - 1], es[low]) then n - 1 else low;
    }
  }

  lemma {:induction false} RemoveFromProject(es: seq<Entry>, keep: set<nat>, i: nat, n: nat)
    requires i < n <= |es| && i in keep
    ensures |Project(es, keep, i)| < |Project(es, keep, n)|
    ensures RemoveAt(Project(es, keep, n), |Project(es, keep, i)|) == Project(es, keep - {i}, n)
  {
    if i == n - 1 {
      ProjectIgnores(es, keep, i, i);
    } else {
      RemoveFromProject(es, keep, i, n - 1);
    }
  }

  // ---- The loop refines the specification, which has one solution ----

  /** One turn of the loop drops the lowest kept position. */
  lemma {:induction false} EvictTurn(es: seq<Entry>, keep: set<nat>, maxSize: nat) returns (i: nat)
    requires keep <= Positions(es) && SizeOf(es, keep, |es|) > maxSize
    ensures i in keep
    ensures forall k :: k in keep && k != i ==> Below(es, i, k)
    ensures
      var p := Project(es, keep, |es|);
      EvictLoop(p, maxSize) == EvictLoop(Project(es, keep - {i}, |es|), maxSize)
      && Evicted(p, maxSize) == [es[i]] + Evicted(Project(es, keep - {i}, |es|), maxSize)
  {
    TotalOfProject(es, keep, |es|);
    i := VictimIsLowest(es, keep, |es|);
    RemoveFromProject(es, keep, i, |es|);
  }

  predicate EachIsEvicted(es: seq<Entry>, from: set<nat>, to: set<nat>, evicted: seq<Entry>)
    requires from <= Positions(es)
  {
    && (forall i :: i in from - to ==> es[i] in evicted)
    && (forall e :: e in evicted ==> exists i :: i in from - to && es[i] == e)
  }

  /** The last entry dropped was needed: with it the rest would not fit. */
  ghost predicate Needed(es: seq<Entry>, keep: set<nat>, maxSize: nat)
    requires keep <= Positions(es)
  {
    forall v :: LastVictim(es, keep, v) ==> SizeOf(es, keep + {v}, |es|) > maxSize
  }

  lemma {:induction false} LowestIsLastVictim(es: seq<Entry>, keep: set<nat>, i: nat, v: nat)
    requires keep <= Positions(es) && DownClosed(es, keep) && i in keep && LastVictim(es, keep - {i}, v)
    ensures v == i
  {
    assert v != i ==> Below(es, v, i);
    assert v != i ==> i in Positions(es) - (keep - {i}) && Below(es, i, v);
  }

  lemma {:induction false} TurnKeepsOrder(es: seq<Entry>, keep: set<nat>, maxSize: nat, i: nat)
    requires keep <= Positions(es) && DownClosed(es, keep) && SizeOf(es, keep, |es|) > maxSize
    requires i in keep && forall k :: k in keep && k != i ==> Below(es, i, k)
    ensures DownClosed(es, keep - {i}) && Needed(es, keep - {i}, maxSize)
  {
    forall v | LastVictim(es, keep - {i}, v)
      ensures SizeOf(es, keep - {i} + {v}, |es|) > maxSize
    {
      LowestIsLastVictim(es, keep, i, v);
      assert keep - {i} + {i} == keep;
    }
  }

  lemma {:induction false} EvictFrom(es: seq<Entry>, keep: set<nat>, maxSize: nat) returns (kept: set<nat>)
    requires keep <= Positions(es) && DownClosed(es, keep) && Needed(es, keep, maxSize)
    ensures kept <= keep && IsEviction(es, maxSize, kept)
    ensures EvictLoop(Project(es, keep, |es|), maxSize) == Project(es, kept, |es|)
    ensures EachIsEvicted(es, keep, kept, Evicted(Project(es, keep, |es|), maxSize))
    decreases |keep|
  {
    if SizeOf(es, keep, |es|) <= maxSize {
      TotalOfProject(es, keep, |es|);
      kept := keep;
    } else {
      var i := EvictTurn(es, keep, maxSize);
      TurnKeepsOrder(es, keep, maxSize, i);
      kept := EvictFrom(es, keep - {i}, maxSize);
      OneMoreEvicted(es, keep, i, kept, Evicted(Project(es, keep - {i}, |es|), maxSize));
    }
  }

  lemma {:induction false} OneMoreEvicted(es: seq<Entry>, keep: set<nat>, i: nat, kept: set<nat>, evicted: seq<Entry>)
    requires keep <= Positions(es) && i in keep && kept <= keep - {i} && EachIsEvicted(es, keep - {i}, kept, evicted)
    ensures EachIsEvicted(es, keep, kept, [es[i]] + evicted)
  {
  }

  /** The loop leaves exactly the entries the specification keeps, in their old order, and removes all others. */
  lemma {:induction false} EvictionRefinesSpec(es: seq<Entry>, maxSize: nat) returns (kept: set<nat>)
    ensures IsEviction(es, maxSize, kept)
    ensures EvictLoop(es, maxSize) == Project(es, kept, |es|)
    ensures EachIsEvicted(es, Positions(es), kept, Evicted(es, maxSize))
  {
    ProjectAll(es, |es|);
    assert es[..|es|] == es;
    kept := EvictFrom(es, Positions(es), maxSize);
  }

  lemma {:induction false} LastVictimExists(es: seq<Entry>, keep: set<nat>, rest: set<nat>) returns (v: nat)
    requires keep <= Positions(es) && rest <= Positions(es) - keep && rest != {}
    ensures v in rest && forall u :: u in rest && u != v ==> Below(es, u, v)
    decreases |rest|
  {
    var u :| u in rest;
    v := u;
    if rest != {u} {
      assert rest - {u} != {};
      var top := LastVictimExists(es, keep, rest - {u});
      v := if Below(es, u, top) then top else u;
      forall w | w in rest && w != v
        ensures Below(es, w, v)
      {
        if w != u && w != top {
          assert Below(es, w, top);
        }
      }
    }
  }

  lemma {:induction false} KeepsNoMore(es: seq<Entry>, maxSize: nat, small: set<nat>, large: set<nat>)
    requires IsEviction(es, maxSize, small) && IsEviction(es, maxSize, large)
    ensures large <= small
  {
    forall x | x in large
      ensures x in small
    {
      if x !in small {
        assert x in Positions(es) - small;
        var v := LastVictimExists(es, small, Positions(es) - small);
        assert LastVictim(es, small, v);
        forall k | k in small + {v}
          ensures k in large
        {
          assert k == x || Below(es, x, k);
          assert k in Positions(es) - large ==> Below(es, k, x);
        }
        SizeMonotone(es, small + {v}, large, |es|);
        assert false;
      }
    }
  }

  /** The specification determines what is kept. */
  lemma {:induction false} EvictionIsUnique(es: seq<Entry>, maxSize: nat, a: set<nat>, b: set<nat>)
    requires IsEviction(es, maxSize, a) && IsEviction(es, maxSize, b)
    ensures a == b
  {
    KeepsNoMore(es, maxSize, a, b);
    KeepsNoMore(es, maxSize, b, a);
  }
}
