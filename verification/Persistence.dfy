/** Maps written to a file as the list of their values, in whatever order the map enumerates them, and read back by
    computing each value's key. The text format is taken to be faithful. */
module Persistence {

  datatype Disk<V> = Missing | Unreadable | Contents(values: seq<V>)

  /** A write that fails may leave anything behind. */
  datatype Outcome<V> = Written | Broken(left: Disk<V>)

  function Write<V>(values: seq<V>, outcome: Outcome<V>): Disk<V> {
    match outcome
    case Written => Contents(values)
    case Broken(left) => left
  }

  /** Later values replace earlier ones with the same key. */
  function Collect<K, V>(values: seq<V>, key: V -> K): map<K, V> {
    if values == [] then map[]
    else Collect(values[..|values| - 1], key)[key(values[|values| - 1]) := values[|values| - 1]]
  }

  /** A file that is missing or cannot be parsed counts as empty. */
  function Loaded<K, V>(disk: Disk<V>, key: V -> K): map<K, V> {
    match disk
    case Contents(values) => Collect(values, key)
    case _ => map[]
  }

  /** `order` lists the keys of `m`, each once. */
  predicate IsOrder<K, V>(order: seq<K>, m: map<K, V>) {
    && (forall i, j :: 0 <= i < j < |order| ==> order[i] != order[j])
    && (forall k :: k in order ==> k in m)
    && (forall k :: k in m ==> k in order)
  }

  function ValuesOf<K, V>(order: seq<K>, m: map<K, V>): seq<V>
    requires forall k :: k in order ==> k in m
  {
    seq(|order|, i requires 0 <= i < |order| => m[order[i]])
  }

  predicate KeyedBy<K, V>(m: map<K, V>, key: V -> K) {
    forall k :: k in m ==> key(m[k]) == k
  }

  lemma {:induction false} CollectIsKeyed<K, V>(values: seq<V>, key: V -> K)
    ensures KeyedBy(Collect(values, key), key)
  {
    if values != [] {
      CollectIsKeyed(values[..|values| - 1], key);
    }
  }

  lemma {:induction false} CollectValues<K, V>(order: seq<K>, m: map<K, V>, key: V -> K)
    requires forall k :: k in order ==> k in m
    requires KeyedBy(m, key)
    ensures Collect(ValuesOf(order, m), key) == map k | k in order :: m[k]
  {
    if order != [] {
      var rest, k := order[..|order| - 1], order[|order| - 1];
      assert forall x :: x in order <==> x in rest || x == k;
      CollectValues(rest, m, key);
      assert ValuesOf(order, m)[..|order| - 1] == ValuesOf(rest, m);
    }
  }

  /** Writing and reading back gives the same map exactly when every value sits under its own key,
      whatever order it was written in. */
  lemma {:induction false} RoundTripIff<K, V>(order: seq<K>, m: map<K, V>, key: V -> K)
    requires IsOrder(order, m)
    ensures Collect(ValuesOf(order, m), key) == m <==> KeyedBy(m, key)
  {
    CollectIsKeyed(ValuesOf(order, m), key);
    if KeyedBy(m, key) {
      CollectValues(order, m, key);
      assert (map k | k in order :: m[k]) == m;
    }
  }
}
