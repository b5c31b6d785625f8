/** Which entries a put can push out of the cache. */
module Retention {
  import opened Collections
  import opened Eviction

  predicate Accessed(e: Entry) {
    e.accessCount >= 1
  }

  /** What the entries that were ever read take up. */
  function AccessedSize(es: seq<Entry>): nat {
    Total(Filter(es, Accessed))
  }

  function AccessedPositions(es: seq<Entry>): (a: set<nat>)
    ensures a <= Positions(es)
  {
    set i | i in Positions(es) && Accessed(es[i])
  }

  lemma {:induction false} AccessedIsProjection(es: seq<Entry>, keep: set<nat>, n: nat)
    requires n <= |es|
    ensures Filter(Project(es, keep, n), Accessed) == Project(es, keep * AccessedPositions(es), n)
  {
    if n > 0 {
      AccessedIsProjection(es, keep, n - 1);
      if n - 1 in keep {
        FilterConcat(Project(es, keep, n - 1), [es[n - 1]], Accessed);
      } else {
        assert Project(es, keep, n) == Project(es, keep, n - 1);
      }
    }
  }

  lemma {:induction false} ProjectPrefix(es: seq<Entry>, x: Entry, a: set<nat>, b: set<nat>, n: nat)
    requires n <= |es| && forall i :: 0 <= i < n ==> (i in a <==> i in b)
    ensures Project(es + [x], a, n) == Project(es, b, n)
    ensures SizeOf(es + [x], a, n) == SizeOf(es, b, n)
  {
    if n > 0 {
      ProjectPrefix(es, x, a, b, n - 1);
    }
  }

  lemma {:induction false} AccessedTotals(es: seq<Entry>)
    ensures Filter(es, Accessed) == Project(es, AccessedPositions(es), |es|)
    ensures AccessedSize(es) == SizeOf(es, AccessedPositions(es), |es|)
  {
    ProjectAll(es, |es|);
    assert es[..|es|] == es;
    AccessedIsProjection(es, Positions(es), |es|);
    assert Positions(es) * AccessedPositions(es) == AccessedPositions(es);
    TotalOfProject(es, AccessedPositions(es), |es|);
  }

  lemma {:induction false} OldEntriesFit(es: seq<Entry>, x: Entry, keep: set<nat>)
    requires forall i :: i in keep ==> i < |es|
    ensures SizeOf(es + [x], keep, |es| + 1) <= Total(es)
  {
    ProjectPrefix(es, x, keep, keep, |es|);
    SizeMonotone(es, keep, Positions(es), |es|);
    ProjectAll(es, |es|);
    assert es[..|es|] == es;
    TotalOfProject(es, Positions(es), |es|);
  }

  /** If one accessed entry had to go, then everything unread including the newcomer is gone already,
      and what remains fitted before the put. */
  lemma {:induction false} AccessedAreKept(es: seq<Entry>, x: Entry, maxSize: nat, kept: set<nat>)
    requires Total(es) <= maxSize && !Accessed(x) && IsEviction(es + [x], maxSize, kept)
    ensures AccessedPositions(es + [x]) <= kept
  {
    var all := es + [x];
    forall i | i in AccessedPositions(all)
      ensures i in kept
    {
      if i !in kept {
        assert i in Positions(all) - kept;
        var v := LastVictimExists(all, kept, Positions(all) - kept);
        assert LastVictim(all, kept, v) && Accessed(all[v]);
        assert |es| in kept ==> Below(all, v, |es|);
        OldEntriesFit(es, x, kept + {v});
        assert false;
      }
    }
  }

  lemma {:induction false} NewcomerIsUnread(es: seq<Entry>, x: Entry)
    requires !Accessed(x)
    ensures AccessedPositions(es + [x]) == AccessedPositions(es)
  {
  }

  lemma {:induction false} NewcomerPlusAccessed(es: seq<Entry>, x: Entry)
    requires !Accessed(x)
    ensures AccessedPositions(es + [x]) == AccessedPositions(es)
    ensures SizeOf(es + [x], AccessedPositions(es) + {|es|}, |es| + 1) == AccessedSize(es) + x.size
    ensures Project(es + [x], AccessedPositions(es), |es| + 1) == Filter(es, Accessed)
  {
    var a := AccessedPositions(es);
    NewcomerIsUnread(es, x);
    AccessedTotals(es);
    assert SizeOf(es + [x], a + {|es|}, |es|) == AccessedSize(es) by { ProjectPrefix(es, x, a + {|es|}, a, |es|); }
    assert Project(es + [x], a, |es|) == Filter(es, Accessed) by { ProjectPrefix(es, x, a, a, |es|); }
    assert (es + [x])[|es|] == x && |es| !in a;
  }

  lemma {:induction false} KeptNewcomerFits(es: seq<Entry>, x: Entry, maxSize: nat, kept: set<nat>)
    requires !Accessed(x) && IsEviction(es + [x], maxSize, kept)
    requires AccessedPositions(es + [x]) <= kept && |es| in kept
    ensures x.size + AccessedSize(es) <= maxSize
  {
    NewcomerPlusAccessed(es, x);
    SizeMonotone(es + [x], AccessedPositions(es) + {|es|}, kept, |es| + 1);
  }

  lemma {:induction false} DroppedNewcomerDoesNotFit(es: seq<Entry>, x: Entry, maxSize: nat, kept: set<nat>)
    requires !Accessed(x) && IsEviction(es + [x], maxSize, kept)
    requires forall e :: e in es ==> e.lastAccess <= x.lastAccess
    requires AccessedPositions(es + [x]) <= kept && |es| !in kept
    ensures kept == AccessedPositions(es)
    ensures x.size + AccessedSize(es) > maxSize
  {
    var all := es + [x];
    NewcomerPlusAccessed(es, x);
    assert |es| in Positions(all) - kept;
    forall k | k in kept
      ensures k in AccessedPositions(all)
    {
      assert Below(all, |es|, k);
      assert k < |es| ==> all[k] == es[k] && es[k] in es;
    }
    forall u | u in Positions(all) - kept && u != |es|
      ensures Below(all, u, |es|)
    {
      assert all[u] == es[u] && es[u] in es;
    }
    assert LastVictim(all, kept, |es|);
  }

  /** A put into a cache that fits evicts no entry that was ever read, whatever the clock says. */
  lemma {:induction false} PutKeepsAccessed(es: seq<Entry>, x: Entry, maxSize: nat)
    requires Total(es) <= maxSize && !Accessed(x)
    ensures Filter(EvictLoop(es + [x], maxSize), Accessed) == Filter(es, Accessed)
    ensures forall e :: e in Evicted(es + [x], maxSize) ==> !Accessed(e)
    ensures Total(EvictLoop(es + [x], maxSize)) <= maxSize
  {
    var all := es + [x];
    var kept := EvictionRefinesSpec(all, maxSize);
    AccessedAreKept(es, x, maxSize, kept);
    AccessedIsProjection(all, kept, |all|);
    assert kept * AccessedPositions(all) == AccessedPositions(all);
    NewcomerPlusAccessed(es, x);
    TotalOfProject(all, kept, |all|);
  }

  /** With a monotone clock the new entry survives its own put exactly when it fits beside the entries ever read;
      otherwise those are all that survives. */
  lemma {:induction false} NewcomerSurvivesIffFits(es: seq<Entry>, x: Entry, maxSize: nat)
    requires Total(es) <= maxSize && !Accessed(x)
    requires forall e :: e in es ==> e.lastAccess <= x.lastAccess
    ensures
      var left := EvictLoop(es + [x], maxSize);
      if x.size + AccessedSize(es) <= maxSize then left != [] && left[|left| - 1] == x
      else left == Filter(es, Accessed)
    ensures x in EvictLoop(es + [x], maxSize) <==> x.size + AccessedSize(es) <= maxSize
  {
    var all := es + [x];
    var kept := EvictionRefinesSpec(all, maxSize);
    AccessedAreKept(es, x, maxSize, kept);
    if |es| in kept {
      KeptNewcomerFits(es, x, maxSize, kept);
    } else {
      DroppedNewcomerDoesNotFit(es, x, maxSize, kept);
      NewcomerPlusAccessed(es, x);
      FilterHas(es, Accessed);
    }
  }
}
