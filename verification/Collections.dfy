/** Optional values and the few facts about sequences that several components share. */
module Collections {

  datatype Option<+T> = None | Some(value: T)

  function RemoveAt<T>(s: seq<T>, i: nat): (r: seq<T>)
    requires i < |s|
    ensures |r| == |s| - 1
  {
    s[..i] + s[i + 1..]
  }

  function Filter<T>(s: seq<T>, p: T -> bool): seq<T>
  {
    if s == [] then []
    else if p(s[0]) then [s[0]] + Filter(s[1..], p)
    else Filter(s[1..], p)
  }

  /** The last `n` elements, or all of them when there are fewer. */
  function Suffix<T>(s: seq<T>, n: nat): (r: seq<T>)
    ensures |r| <= n
  {
    if |s| <= n then s else s[|s| - n..]
  }

  /** The numbers below `n`. */
  function Upto(n: nat): (all: set<nat>)
    ensures forall i :: i in all <==> 0 <= i < n
  {
    if n == 0 then {} else Upto(n - 1) + {n - 1}
  }

  lemma {:induction false} FilterConcat<T>(a: seq<T>, b: seq<T>, p: T -> bool)
    ensures Filter(a + b, p) == Filter(a, p) + Filter(b, p)
  {
    if a == [] {
      assert a + b == b;
    } else {
      assert (a + b)[1..] == a[1..] + b;
      FilterConcat(a[1..], b, p);
    }
  }

  lemma {:induction false} FilterLast<T>(s: seq<T>, p: T -> bool)
    requires s != []
    ensures Filter(s, p) == Filter(s[..|s| - 1], p) + if p(s[|s| - 1]) then [s[|s| - 1]] else []
  {
    FilterConcat(s[..|s| - 1], [s[|s| - 1]], p);
    assert s == s[..|s| - 1] + [s[|s| - 1]];
  }

  lemma {:induction false} FilterSplit<T>(s: seq<T>, i: nat, p: T -> bool)
    requires i < |s|
    ensures Filter(s, p)
            == Filter(s[..i], p) + if p(s[i]) then [s[i]] + Filter(s[i + 1..], p) else Filter(s[i + 1..], p)
  {
    var tail := s[i..];
    assert s == s[..i] + tail;
    assert tail[0] == s[i] && tail[1..] == s[i + 1..];
    FilterConcat(s[..i], tail, p);
  }

  /** Removing one element removes its own contribution and nothing else. */
  lemma {:induction false} FilterRemoveAt<T>(s: seq<T>, i: nat, p: T -> bool)
    requires i < |s|
    ensures Filter(RemoveAt(s, i), p) == Filter(s[..i], p) + Filter(s[i + 1..], p)
  {
    FilterConcat(s[..i], s[i + 1..], p);
  }

  /** What filtering keeps is in the original. */
  lemma {:induction false} FilterHas<T>(s: seq<T>, p: T -> bool)
    ensures forall x :: x in Filter(s, p) <==> x in s && p(x)
  {
    if s != [] {
      FilterHas(s[1..], p);
      assert forall x :: x in s <==> x == s[0] || x in s[1..];
    }
  }

  lemma {:induction false} FilterNone<T>(s: seq<T>, p: T -> bool)
    requires forall x :: x in s ==> !p(x)
    ensures Filter(s, p) == []
  {
    if s != [] {
      FilterNone(s[1..], p);
    }
  }

  /** A bounded log keeps the last `n` records: appending and dropping the oldest commute with Suffix. */
  lemma {:induction false} SuffixAppend<T>(s: seq<T>, x: T, n: nat)
    requires n > 0
    ensures Suffix(Suffix(s, n) + [x], n) == Suffix(s + [x], n)
  {
  }

  lemma {:induction false} SuffixOfLongTail<T>(front: seq<T>, tail: seq<T>, n: nat)
    requires |tail| >= n
    ensures Suffix(front + tail, n) == Suffix(tail, n)
  {
  }

  lemma {:induction false} SuffixConcat<T>(s: seq<T>, more: seq<T>, n: nat)
    ensures Suffix(Suffix(s, n) + more, n) == Suffix(s + more, n)
  {
    if |s| > n {
      var front, tail := s[..|s| - n], s[|s| - n..];
      assert s + more == front + (tail + more);
      SuffixOfLongTail(front, tail + more, n);
    }
  }

  /** What holds at the start and is kept by each step always holds. */
  lemma {:induction false} Always(p: nat -> bool, n: nat)
    requires p(0) && forall k: nat :: k < n && p(k) ==> p(k + 1)
    ensures p(n)
  {
    if n > 0 {
      Always(p, n - 1);
    }
  }
}
