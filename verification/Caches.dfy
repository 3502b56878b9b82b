/** The weight-bounded least-recently-used cache of the repository map (`_BoundedLRU`). */
module Caches {
  import opened Wrappers

  /** The entries, least recently used first: Python's ordered dictionary. */
  type Entries<K, V> = seq<(K, V)>

  function Weigh<K, V>(es: Entries<K, V>, weight: V -> nat): nat {
    if es == [] then 0 else weight(es[0].1) + Weigh(es[1..], weight)
  }

  /** The position of a key, or the number of entries. */
  function Find<K(==), V>(es: Entries<K, V>, key: K): (i: nat)
    ensures i <= |es| && (i < |es| ==> es[i].0 == key) && forall j | 0 <= j < i :: es[j].0 != key
  {
    if es == [] || es[0].0 == key then 0 else 1 + Find(es[1..], key)
  }

  function Without<K(==), V>(es: Entries<K, V>, key: K): Entries<K, V> {
    RemoveAt(es, Find(es, key))
  }

  function RemoveAt<K, V>(es: Entries<K, V>, i: nat): Entries<K, V> {
    if i < |es| then es[..i] + es[i + 1..] else es
  }

  lemma {:induction false} WeighJoin<K, V>(a: Entries<K, V>, b: Entries<K, V>, weight: V -> nat)
    ensures Weigh(a + b, weight) == Weigh(a, weight) + Weigh(b, weight)
  {
    if a == [] {
      assert a + b == b;
    } else {
      WeighJoin(a[1..], b, weight);
      assert (a + b)[1..] == a[1..] + b;
    }
  }

  lemma WeighWithoutAt<K, V>(es: Entries<K, V>, i: nat, weight: V -> nat)
    ensures Weigh(RemoveAt(es, i), weight) == Weigh(es, weight) - if i < |es| then weight(es[i].1) else 0
  {
    if i < |es| {
      WeighJoin(es[..i], es[i + 1..], weight);
      WeighJoin(es[..i], es[i..], weight);
      assert es == es[..i] + es[i..] && es[i..][1..] == es[i + 1..];
    }
  }

  lemma WithoutIndex<K, V>(es: Entries<K, V>, i: nat)
    requires i <= |es|
    ensures |RemoveAt(es, i)| == if i < |es| then |es| - 1 else |es|
    ensures forall j | 0 <= j < |RemoveAt(es, i)| :: RemoveAt(es, i)[j] == if j < i then es[j] else es[j + 1]
  {
  }

  lemma WithoutAt<K, V>(es: Entries<K, V>, key: K)
    ensures
      var i, rest := Find(es, key), Without(es, key);
      && |rest| == (if i < |es| then |es| - 1 else |es|)
      && forall j | 0 <= j < |rest| :: rest[j] == if j < i then es[j] else es[j + 1]
  {
    WithoutIndex(es, Find(es, key));
  }

  /** Every entry is what was last put, and the entries stand in the order of their last use. */
  ghost predicate InOrder<K, V(!new)>(es: Entries<K, V>, lastPut: map<K, V>, lastUse: map<K, nat>, clock: nat) {
    && (forall i | 0 <= i < |es| :: IsLast(es[i], lastPut, lastUse, clock))
    && (forall i, j | 0 <= i < j < |es| :: lastUse[es[i].0] < lastUse[es[j].0])
  }

  ghost predicate IsLast<K, V(!new)>(e: (K, V), lastPut: map<K, V>, lastUse: map<K, nat>, clock: nat) {
    e.0 in lastPut && lastPut[e.0] == e.1 && e.0 in lastUse && lastUse[e.0] < clock
  }

  /** The touched entry goes to the end. */
  lemma Touched<K, V(!new)>(es: Entries<K, V>, key: K, value: V, lastPut: map<K, V>, lastUse: map<K, nat>, clock: nat)
    requires InOrder(es, lastPut, lastUse, clock)
    ensures InOrder(Without(es, key) + [(key, value)], lastPut[key := value], lastUse[key := clock], clock + 1)
  {
    var rest := Without(es, key);
    var all := rest + [(key, value)];
    WithoutAt(es, key);
    forall j | 0 <= j < |rest| ensures IsLast(rest[j], lastPut, lastUse, clock) && rest[j].0 != key {
      OthersDiffer(es, key, lastPut, lastUse, clock, j);
    }
    forall i | 0 <= i < |all| ensures IsLast(all[i], lastPut[key := value], lastUse[key := clock], clock + 1) {
      if i < |rest| { assert all[i] == rest[i]; }
    }
    forall i, j | 0 <= i < j < |all| ensures lastUse[key := clock][all[i].0] < lastUse[key := clock][all[j].0] {
      if j < |rest| { assert all[i] == rest[i] && all[j] == rest[j]; }
    }
  }

  lemma OthersDiffer<K, V(!new)>(es: Entries<K, V>, key: K, lastPut: map<K, V>, lastUse: map<K, nat>, clock: nat,
                                 j: nat)
    requires InOrder(es, lastPut, lastUse, clock) && j < |Without(es, key)|
    ensures Without(es, key)[j].0 != key && IsLast(Without(es, key)[j], lastPut, lastUse, clock)
  {
    WithoutAt(es, key);
    var i := Find(es, key);
    var k := if j < i then j else j + 1;
    assert IsLast(es[k], lastPut, lastUse, clock);
    if k > i { assert lastUse[es[i].0] < lastUse[es[k].0]; }
  }

  lemma RestInOrder<K, V(!new)>(es: Entries<K, V>, lastPut: map<K, V>, lastUse: map<K, nat>, clock: nat)
    requires InOrder(es, lastPut, lastUse, clock) && es != []
    ensures InOrder(es[1..], lastPut, lastUse, clock)
  {
  }

  /** The most entries, and the most weight, that the cache may hold. */
  predicate Fits<K, V>(es: Entries<K, V>, maxEntries: nat, maxWeight: Option<nat>, weight: V -> nat) {
    |es| <= maxEntries && (maxWeight.Some? ==> Weigh(es, weight) <= maxWeight.value)
  }

  /** `rest` is what is left when as few entries as possible leave from the front. */
  ghost predicate IsEviction<K(!new), V(!new)>(all: Entries<K, V>, evicted: nat, rest: Entries<K, V>, maxEntries: nat,
                                               maxWeight: Option<nat>, weight: V -> nat) {
    && evicted <= |all| && rest == all[evicted..] && Fits(rest, maxEntries, maxWeight, weight)
    && forall e | 0 <= e < evicted :: !Fits(all[e..], maxEntries, maxWeight, weight)
  }

  class BoundedLRU<K(==, !new), V(!new)> {
    const maxEntries: nat
    const maxWeight: Option<nat>
    const weight: V -> nat
    var values: Entries<K, V>
    var totalWeight: int
    /** What was last put under each key, and when each key was last put or got. */
    ghost var lastPut: map<K, V>
    ghost var lastUse: map<K, nat>
    ghost var clock: nat

    ghost predicate Valid()
      reads this
    {
      totalWeight == Weigh(values, weight) && InOrder(values, lastPut, lastUse, clock)
    }

    constructor (maxEntries: nat, maxWeight: Option<nat>, weight: V -> nat)
      ensures Valid() && values == [] && lastPut == map[]
      ensures this.maxEntries == maxEntries && this.maxWeight == maxWeight && this.weight == weight
    {
      this.maxEntries, this.maxWeight, this.weight := maxEntries, maxWeight, weight;
      values, totalWeight, lastPut, lastUse, clock := [], 0, map[], map[], 0;
    }

    /** A hit is the value last put under the key, and becomes the most recently used entry. */
    method Get(key: K) returns (r: Option<V>)
      requires Valid()
      modifies this
      ensures Valid() && lastPut == old(lastPut)
      ensures r.Some? <==> Find(old(values), key) < |old(values)|
      ensures r.Some? ==> key in lastPut && r.value == lastPut[key]
      ensures values == if r.Some? then Without(old(values), key) + [(key, r.value)] else old(values)
    {
      var i := Find(values, key);
      if i == |values| { return None; }
      var value := values[i].1;
      assert IsLast(values[i], lastPut, lastUse, clock);
      Touched(values, key, value, lastPut, lastUse, clock);
      TouchedWeight(values, key, value, weight);
      values := Without(values, key) + [(key, value)];
      lastUse, clock := lastUse[key := clock], clock + 1;
      assert lastPut[key := value] == lastPut;
      return Some(value);
    }

    /** The new entry is the most recent one; the shortest run of least recent ones that has to go is evicted. */
    method Put(key: K, value: V) returns (ghost evicted: nat)
      requires Valid()
      modifies this
      ensures Valid() && lastPut == old(lastPut)[key := value]
      ensures IsEviction(Without(old(values), key) + [(key, value)], evicted, values, maxEntries, maxWeight, weight)
    {
      var i := Find(values, key);
      TouchedWeight(values, key, value, weight);
      Touched(values, key, value, lastPut, lastUse, clock);
      if i < |values| { totalWeight := totalWeight - weight(values[i].1); }
      values := Without(values, key) + [(key, value)];
      totalWeight := totalWeight + weight(value);
      lastPut, lastUse, clock := lastPut[key := value], lastUse[key := clock], clock + 1;
      evicted := Evict();
    }

    /** The loop that drops the least recently used entries. */
    method Evict() returns (ghost evicted: nat)
      requires Valid()
      modifies this
      ensures Valid() && lastPut == old(lastPut)
      ensures IsEviction(old(values), evicted, values, maxEntries, maxWeight, weight)
    {
      ghost var all := values;
      evicted := 0;
      while |values| > maxEntries || (maxWeight.Some? && totalWeight > maxWeight.value)
        invariant Valid() && lastPut == old(lastPut)
        invariant evicted <= |all| && values == all[evicted..]
        invariant forall e | 0 <= e < evicted :: !Fits(all[e..], maxEntries, maxWeight, weight)
        decreases |values|
      {
        RestInOrder(values, lastPut, lastUse, clock);
        totalWeight := totalWeight - weight(values[0].1);
        values := values[1..];
        evicted := evicted + 1;
      }
    }

    method Clear()
      requires Valid()
      modifies this
      ensures Valid() && values == [] && totalWeight == 0 && lastPut == old(lastPut)
    {
      values, totalWeight := [], 0;
    }
  }

  lemma TouchedWeight<K, V>(es: Entries<K, V>, key: K, value: V, weight: V -> nat)
    ensures
      var i := Find(es, key);
      Weigh(Without(es, key) + [(key, value)], weight) ==
        Weigh(es, weight) - (if i < |es| then weight(es[i].1) else 0) + weight(value)
  {
    WeighWithoutAt(es, Find(es, key), weight);
    WeighJoin(Without(es, key), [(key, value)], weight);
  }

  lemma HeavySuffix<K, V>(before: Entries<K, V>, key: K, value: V, e: nat, maxEntries: nat, maxWeight: Option<nat>,
                          weight: V -> nat)
    requires maxWeight.Some? && weight(value) > maxWeight.value && e <= |before|
    ensures !Fits((before + [(key, value)])[e..], maxEntries, maxWeight, weight)
  {
    WeighJoin(before[e..], [(key, value)], weight);
    assert (before + [(key, value)])[e..] == before[e..] + [(key, value)];
  }

  /** An entry heavier than the limit leaves nothing behind, not even itself. */
  lemma OverweightEmptiesTheCache<K(!new), V(!new)>(before: Entries<K, V>, key: K, value: V, evicted: nat,
                                                    rest: Entries<K, V>, maxEntries: nat, maxWeight: Option<nat>,
                                                    weight: V -> nat)
    requires maxWeight.Some? && weight(value) > maxWeight.value
    requires IsEviction(before + [(key, value)], evicted, rest, maxEntries, maxWeight, weight)
    ensures rest == []
  {
    if evicted <= |before| { HeavySuffix(before, key, value, evicted, maxEntries, maxWeight, weight); }
  }

  /** Whatever was evicted had been used less recently than everything that stayed. */
  lemma EvictedAreOldest<K(!new), V(!new)>(all: Entries<K, V>, evicted: nat, rest: Entries<K, V>, maxEntries: nat,
                                           maxWeight: Option<nat>, weight: V -> nat, lastPut: map<K, V>,
                                           lastUse: map<K, nat>, clock: nat, i: nat, j: nat)
    requires IsEviction(all, evicted, rest, maxEntries, maxWeight, weight) && InOrder(all, lastPut, lastUse, clock)
    requires i < evicted && j < |rest|
    ensures all[i].0 in lastUse && rest[j].0 in lastUse && lastUse[all[i].0] < lastUse[rest[j].0]
  {
    assert rest[j] == all[evicted + j];
    assert IsLast(all[i], lastPut, lastUse, clock) && IsLast(all[evicted + j], lastPut, lastUse, clock);
  }
}
