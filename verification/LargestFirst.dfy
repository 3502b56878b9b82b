/**
 Taking the heaviest items first. The items are message indices with a weight; the results are
 stated for every set of items one might take instead.
 */
module LargestFirst {

  type Weights = nat -> nat

  /** The weight of the items of `idx` that are not in `gone`. */
  ghost function Outside(w: Weights, idx: seq<nat>, gone: set<nat>): nat {
    if idx == [] then 0
    else Outside(w, idx[1..], gone) + if idx[0] in gone then 0 else w(idx[0])
  }

  /** How many items of `idx` are in `gone`. */
  ghost function CountIn(idx: seq<nat>, gone: set<nat>): nat {
    if idx == [] then 0 else CountIn(idx[1..], gone) + if idx[0] in gone then 1 else 0
  }

  function Sum(w: Weights, idx: seq<nat>): nat {
    if idx == [] then 0 else w(idx[0]) + Sum(w, idx[1..])
  }

  /** The weight of the items of `idx` from position `k` on. */
  ghost function SumFrom(w: Weights, idx: seq<nat>, k: nat): nat
    requires k <= |idx|
    decreases |idx| - k
  {
    if k == |idx| then 0 else w(idx[k]) + SumFrom(w, idx, k + 1)
  }

  lemma {:induction false} SumFromIsSum(w: Weights, idx: seq<nat>, k: nat)
    requires k <= |idx|
    ensures SumFrom(w, idx, k) == Sum(w, idx[k..])
    decreases |idx| - k
  {
    if k < |idx| {
      SumFromIsSum(w, idx, k + 1);
      assert idx[k..][1..] == idx[k + 1..];
    }
  }

  ghost predicate Distinct(idx: seq<nat>) {
    forall i, j | 0 <= i < j < |idx| :: idx[i] != idx[j]
  }

  ghost predicate Descending(w: Weights, idx: seq<nat>) {
    forall i, j | 0 <= i < j < |idx| :: w(idx[i]) >= w(idx[j])
  }

  // ---------------------------------------------------------------------------
  // Sorting
  // ---------------------------------------------------------------------------

  /** Inserts `x` after every item that is at least as heavy, so equal items keep their order. */
  function Insert(w: Weights, idx: seq<nat>, x: nat): seq<nat> {
    if idx == [] || w(idx[0]) < w(x) then [x] + idx else [idx[0]] + Insert(w, idx[1..], x)
  }

  function Sorted(w: Weights, idx: seq<nat>): seq<nat> {
    if idx == [] then [] else Insert(w, Sorted(w, idx[..|idx| - 1]), idx[|idx| - 1])
  }

  lemma {:induction false} InsertItems(w: Weights, idx: seq<nat>, x: nat)
    ensures forall y :: y in Insert(w, idx, x) <==> y in idx || y == x
    ensures |Insert(w, idx, x)| == |idx| + 1
    ensures forall gone :: Outside(w, Insert(w, idx, x), gone) == Outside(w, idx, gone) + if x in gone then 0 else w(x)
  {
    if idx != [] && w(idx[0]) >= w(x) {
      InsertItems(w, idx[1..], x);
      assert idx == [idx[0]] + idx[1..];
    }
  }

  lemma {:induction false} InsertDescends(w: Weights, idx: seq<nat>, x: nat)
    requires Descending(w, idx)
    ensures Descending(w, Insert(w, idx, x))
  {
    if idx != [] && w(idx[0]) >= w(x) {
      InsertDescends(w, idx[1..], x);
      var rest := Insert(w, idx[1..], x);
      InsertItems(w, idx[1..], x);
      forall j | 0 <= j < |rest| ensures w(idx[0]) >= w(rest[j]) {
        assert rest[j] in rest;
        if rest[j] != x {
          assert rest[j] in idx[1..];
        }
      }
    }
  }

  lemma {:induction false} InsertDistinct(w: Weights, idx: seq<nat>, x: nat)
    requires Distinct(idx) && x !in idx
    ensures Distinct(Insert(w, idx, x))
  {
    if idx != [] && w(idx[0]) >= w(x) {
      InsertDistinct(w, idx[1..], x);
      InsertItems(w, idx[1..], x);
      var rest := Insert(w, idx[1..], x);
      forall j | 0 <= j < |rest| ensures rest[j] != idx[0] {
        assert rest[j] in rest;
      }
    }
  }

  lemma {:induction false} OutsideAppend(w: Weights, idx: seq<nat>, x: nat, gone: set<nat>)
    ensures Outside(w, idx + [x], gone) == Outside(w, idx, gone) + if x in gone then 0 else w(x)
  {
    if idx == [] {
      assert (idx + [x])[1..] == [];
    } else {
      OutsideAppend(w, idx[1..], x, gone);
      assert (idx + [x])[1..] == idx[1..] + [x];
    }
  }

  /** Sorting changes neither the items nor what any part of them weighs. */
  lemma {:induction false} SortedItems(w: Weights, idx: seq<nat>)
    requires Distinct(idx)
    ensures Descending(w, Sorted(w, idx)) && Distinct(Sorted(w, idx)) && |Sorted(w, idx)| == |idx|
    ensures forall y :: y in Sorted(w, idx) <==> y in idx
    ensures forall gone :: Outside(w, Sorted(w, idx), gone) == Outside(w, idx, gone)
  {
    if idx != [] {
      var rest, x := idx[..|idx| - 1], idx[|idx| - 1];
      assert idx == rest + [x];
      SortedItems(w, rest);
      InsertItems(w, Sorted(w, rest), x);
      InsertDescends(w, Sorted(w, rest), x);
      InsertDistinct(w, Sorted(w, rest), x);
      forall gone ensures Outside(w, Sorted(w, idx), gone) == Outside(w, idx, gone) {
        OutsideAppend(w, rest, x, gone);
      }
    }
  }

  // ---------------------------------------------------------------------------
  // Taking a prefix of the sorted items is optimal
  // ---------------------------------------------------------------------------

  ghost function Items(idx: seq<nat>): set<nat> {
    set x | x in idx
  }

  lemma {:induction false} OutsideNothing(w: Weights, idx: seq<nat>, gone: set<nat>)
    requires forall x | x in idx :: x !in gone
    ensures Outside(w, idx, gone) == Sum(w, idx)
  {
    if idx != [] { OutsideNothing(w, idx[1..], gone); }
  }

  /** Taking the first `k` items leaves the weight of the others. */
  lemma {:induction false} OutsidePrefix(w: Weights, idx: seq<nat>, k: nat)
    requires k <= |idx| && Distinct(idx)
    ensures Outside(w, idx, Items(idx[..k])) == Sum(w, idx[k..])
  {
    OutsideSplit(w, idx[..k], idx[k..], Items(idx[..k]));
    assert idx == idx[..k] + idx[k..];
    OutsideEverything(w, idx[..k], Items(idx[..k]));
    assert forall i, j | 0 <= i < k <= j < |idx| :: idx[i] != idx[j];
    OutsideNothing(w, idx[k..], Items(idx[..k]));
  }

  lemma {:induction false} OutsideEverything(w: Weights, idx: seq<nat>, gone: set<nat>)
    requires forall x | x in idx :: x in gone
    ensures Outside(w, idx, gone) == 0
  {
    if idx != [] { OutsideEverything(w, idx[1..], gone); }
  }

  lemma {:induction false} OutsideSplit(w: Weights, a: seq<nat>, b: seq<nat>, gone: set<nat>)
    ensures Outside(w, a + b, gone) == Outside(w, a, gone) + Outside(w, b, gone)
  {
    if a == [] {
      assert a + b == b;
    } else {
      OutsideSplit(w, a[1..], b, gone);
      assert (a + b)[1..] == a[1..] + b;
    }
  }

  lemma {:induction false} CountIsAtMostSize(idx: seq<nat>, gone: set<nat>)
    requires Distinct(idx)
    ensures CountIn(idx, gone) <= |gone| && CountIn(idx, gone) <= |idx|
  {
    if idx != [] {
      if idx[0] in gone {
        CountIsAtMostSize(idx[1..], gone - {idx[0]});
        CountWithout(idx[1..], gone, idx[0]);
      } else {
        CountIsAtMostSize(idx[1..], gone);
      }
    }
  }

  lemma {:induction false} CountWithout(idx: seq<nat>, gone: set<nat>, x: nat)
    requires x !in idx
    ensures CountIn(idx, gone - {x}) == CountIn(idx, gone)
  {
    if idx != [] { CountWithout(idx[1..], gone, x); }
  }

  /** The `c` heaviest items outweigh any `c` items: what is left after them is least. */
  lemma {:induction false} HeaviestLeaveLeast(w: Weights, idx: seq<nat>, gone: set<nat>, k: nat)
    requires Descending(w, idx) && k <= |idx| && CountIn(idx, gone) <= k
    ensures Sum(w, idx[k..]) <= Outside(w, idx, gone)
  {
    if idx != [] {
      if idx[0] in gone {
        HeaviestLeaveLeast(w, idx[1..], gone, k - 1);
        assert idx[1..][k - 1..] == idx[k..];
      } else if k == 0 {
        HeaviestLeaveLeast(w, idx[1..], gone, 0);
        assert idx[1..][0..] == idx[1..] && idx[0..] == idx;
      } else {
        // The first item stays; leaving it out of the prefix instead of a lighter one costs at least as much.
        if k == |idx| {
          assert idx[k..] == [];
        } else {
          HeaviestLeaveLeast(w, idx[1..], gone, k);
          assert idx[1..][k..] == idx[k + 1..];
          assert Sum(w, idx[k..]) == w(idx[k]) + Sum(w, idx[k + 1..]) by {
            assert idx[k..][1..] == idx[k + 1..];
          }
        }
      }
    }
  }

  /** No set of fewer than `k` items brings the rest under a limit that `k - 1` heaviest items miss. */
  lemma FewestItems(w: Weights, idx: seq<nat>, k: nat, limit: nat, gone: set<nat>)
    requires Descending(w, idx) && Distinct(idx) && k <= |idx|
    requires k > 0 ==> Sum(w, idx[k - 1..]) > limit
    requires Outside(w, idx, gone) <= limit
    ensures k <= |gone|
  {
    CountIsAtMostSize(idx, gone);
    if k > 0 && CountIn(idx, gone) < k {
      HeaviestLeaveLeast(w, idx, gone, k - 1);
    }
  }
}
