/**
 Maximum bipartite matching between extracted memories and expected ones.

 `ExpectedOwners` holds the dictionary `expected_owner` and the per-call set `visited`
 that the augmenting-path search updates in place.
 */
module Matching {

  /** The expected indices each prediction may be paired with, in the order they are tried. */
  type Edges = seq<seq<nat>>

  // ---------------------------------------------------------------------------
  // Matchings
  // ---------------------------------------------------------------------------

  /** Every pair runs along an edge. */
  ghost predicate Along(owner: map<nat, nat>, edges: Edges) {
    forall e | e in owner :: owner[e] < |edges| && e in edges[owner[e]]
  }

  /** No prediction owns two expected entries outside `w`. */
  ghost predicate OneToOneOutside(owner: map<nat, nat>, w: set<nat>) {
    forall e, f | e in owner && f in owner && e !in w && f !in w && owner[e] == owner[f] :: e == f
  }

  ghost predicate IsMatching(owner: map<nat, nat>, edges: Edges) {
    Along(owner, edges) && OneToOneOutside(owner, {})
  }

  /** Prediction `q` owns an expected entry outside `w`. */
  ghost predicate Owns(owner: map<nat, nat>, w: set<nat>, q: nat) {
    exists e :: e in owner && e !in w && owner[e] == q
  }

  /** Only predictions before `n` are paired. */
  ghost predicate Below(owner: map<nat, nat>, n: nat) {
    forall e | e in owner :: owner[e] < n
  }

  /** No matching that uses only the first `n` predictions is larger. */
  ghost predicate MaximumUpTo(owner: map<nat, nat>, edges: Edges, n: nat) {
    forall other: map<nat, nat> ::
      IsMatching(other, edges) && Below(other, n) ==> |other| <= |owner|
  }

  ghost predicate Maximum(owner: map<nat, nat>, edges: Edges) {
    && IsMatching(owner, edges)
    && forall other: map<nat, nat> ::
      IsMatching(other, edges) ==> |other| <= |owner|
  }

  ghost function Targets(edges: Edges): set<nat> {
    set i, e | 0 <= i < |edges| && e in edges[i] :: e
  }

  /** Each entry of `s` is owned, and its owner has no edge that leaves `v`. */
  ghost predicate ClosedIn(owner: map<nat, nat>, edges: Edges, s: set<nat>, v: set<nat>) {
    forall e | e in s ::
      e in owner && owner[e] < |edges| && forall f | f in edges[owner[e]] :: f in v
  }

  /** `w` is as it was: the search never touches an entry that was visited before it started. */
  ghost predicate SameOn(w: set<nat>, a: map<nat, nat>, b: map<nat, nat>) {
    forall e | e in w :: (e in a <==> e in b) && (e in a ==> a[e] == b[e])
  }

  /** One more expected entry is owned, and outside `w` exactly `p` joined the owners. */
  ghost predicate Augmented(before: map<nat, nat>, after: map<nat, nat>, w: set<nat>, p: nat) {
    && before.Keys <= after.Keys
    && |after| == |before| + 1
    && SameOn(w, before, after)
    && forall q :: Owns(after, w, q) <==> Owns(before, w, q) || q == p
  }

  /** How ownership outside `w` changes when entry `e` passes from its old owner to `p`. */
  lemma ShiftedOwnership(before: map<nat, nat>, middle: map<nat, nat>, w: set<nat>, v: set<nat>, e: nat, p: nat, f: nat)
    requires w <= v && e !in v && e in before
    requires Augmented(before, middle, v + {e}, before[e])
    requires f in middle && f !in w && f != e
    ensures if f in v then f in before && middle[f] == before[f]
            else Owns(middle, v + {e}, middle[f]) && (middle[f] == before[e] || Owns(before, v + {e}, middle[f]))
  {
  }

  lemma ShiftOwner(before: map<nat, nat>, middle: map<nat, nat>, w: set<nat>, v: set<nat>, e: nat, p: nat)
    requires w <= v && e !in v && e in before && !Owns(before, w, p)
    requires OneToOneOutside(before, w)
    requires Augmented(before, middle, v + {e}, before[e]) && OneToOneOutside(middle, v + {e})
    ensures Augmented(before, middle[e := p], w, p)
    ensures OneToOneOutside(middle[e := p], w)
  {
    var after := middle[e := p];
    var q := before[e];
    assert after.Keys == middle.Keys && after[e] == p;
    forall x
      ensures Owns(after, w, x) <==> Owns(before, w, x) || x == p
    {
      if Owns(after, w, x) {
        var f :| f in after && f !in w && after[f] == x;
        if f != e { ShiftedOwnership(before, middle, w, v, e, p, f); }
      }
      if Owns(before, w, x) {
        var f :| f in before && f !in w && before[f] == x;
        if f in v {
          assert after[f] == x;
        } else {
          assert x == q || Owns(before, v + {e}, x);
          assert Owns(middle, v + {e}, x);
          var g :| g in middle && g !in v + {e} && middle[g] == x;
          assert after[g] == x;
        }
      }
    }
    forall f, g | f in after && g in after && f !in w && g !in w && after[f] == after[g]
      ensures f == g
    {
      if f != e { ShiftedOwnership(before, middle, w, v, e, p, f); }
      if g != e { ShiftedOwnership(before, middle, w, v, e, p, g); }
    }
  }

  lemma TakeFree(before: map<nat, nat>, w: set<nat>, e: nat, p: nat)
    requires e !in before && e !in w && !Owns(before, w, p)
    requires OneToOneOutside(before, w)
    ensures Augmented(before, before[e := p], w, p)
    ensures OneToOneOutside(before[e := p], w)
  {
    var after := before[e := p];
    assert after.Keys == before.Keys + {e};
    assert after[e] == p;
    forall q | Owns(before, w, q)
      ensures Owns(after, w, q)
    {
      var f :| f in before && f !in w && before[f] == q;
      assert after[f] == q;
    }
  }

  class ExpectedOwners {
    var owner: map<nat, nat>
    var visited: set<nat>

    constructor ()
      ensures owner == map[] && visited == {}
    {
      owner, visited := map[], {};
    }

    /**
     Tries to find an expected entry for prediction `p`, moving current owners along an
     augmenting path. A failing call leaves the owners alone and closes the visited set.
     */
    method Augment(p: nat, edges: Edges) returns (found: bool)
      requires p < |edges|
      requires Along(owner, edges) && OneToOneOutside(owner, visited)
      requires !Owns(owner, visited, p)
      modifies this
      ensures Along(owner, edges)
      ensures old(visited) <= visited
      ensures found ==> Augmented(old(owner), owner, old(visited), p)
      ensures found ==> OneToOneOutside(owner, old(visited))
      ensures !found ==> owner == old(owner) && ClosedIn(owner, edges, visited - old(visited), visited)
      ensures !found ==> forall e | e in edges[p] :: e in visited
      decreases Targets(edges) - visited
    {
      var k := 0;
      while k < |edges[p]|
        invariant 0 <= k <= |edges[p]|
        invariant owner == old(owner) && old(visited) <= visited
        invariant ClosedIn(owner, edges, visited - old(visited), visited)
        invariant forall j | 0 <= j < k :: edges[p][j] in visited
      {
        var e := edges[p][k];
        k := k + 1;
        if e in visited {
          continue;
        }
        ghost var before := visited;
        visited := visited + {e};
        assert edges[p][k - 1] in edges[p];
        if e !in owner {
          TakeFree(owner, old(visited), e, p);
          owner := owner[e := p];
          return true;
        }
        var moved := Augment(owner[e], edges);
        if moved {
          ShiftOwner(old(owner), owner, old(visited), before, e, p);
          owner := owner[e := p];
          return true;
        }
      }
      return false;
    }
  }

  // ---------------------------------------------------------------------------
  // Maximality
  // ---------------------------------------------------------------------------

  /** `other` with its pairs on `v` replaced by the current owners of `v`. */
  ghost function Moved(owner: map<nat, nat>, other: map<nat, nat>, v: set<nat>): map<nat, nat>
    requires forall e | e in v :: e in owner
  {
    map e | e in other.Keys + v :: if e in v then owner[e] else other[e]
  }

  lemma MovedIsMatching(owner: map<nat, nat>, edges: Edges, other: map<nat, nat>, v: set<nat>)
    requires IsMatching(owner, edges) && IsMatching(other, edges) && ClosedIn(owner, edges, v, v)
    ensures IsMatching(Moved(owner, other, v), edges)
  {
    var moved := Moved(owner, other, v);
    forall e, f | e in moved && f in v && e !in v
      ensures moved[e] != moved[f]
    {
      assert e in other && e in edges[other[e]];
    }
    forall e, f | e in moved && f in moved && moved[e] == moved[f]
      ensures e == f
    {
      if e in v && f in v {
        assert owner[e] == owner[f];
      }
    }
  }

  /** A rival that may use prediction `n` is no larger than one that does not. */
  lemma AvoidPrediction(owner: map<nat, nat>, edges: Edges, n: nat, v: set<nat>, other: map<nat, nat>)
      returns (moved: map<nat, nat>)
    requires n < |edges| && IsMatching(owner, edges) && Below(owner, n)
    requires ClosedIn(owner, edges, v, v) && forall e | e in edges[n] :: e in v
    requires IsMatching(other, edges) && Below(other, n + 1)
    ensures IsMatching(moved, edges) && Below(moved, n) && |other| <= |moved|
  {
    moved := Moved(owner, other, v);
    MovedIsMatching(owner, edges, other, v);
    forall e | e in moved ensures moved[e] < n {
      if e !in v { assert e in edges[other[e]]; }
    }
    SubsetSize(other.Keys, moved.Keys);
  }

  /** A failed search leaves a closed set, so prediction `n` cannot enlarge the matching. */
  lemma FailedSearchKeepsMaximum(owner: map<nat, nat>, edges: Edges, n: nat, v: set<nat>)
    requires n < |edges| && IsMatching(owner, edges) && Below(owner, n) && MaximumUpTo(owner, edges, n)
    requires ClosedIn(owner, edges, v, v) && forall e | e in edges[n] :: e in v
    ensures MaximumUpTo(owner, edges, n + 1)
  {
    forall other: map<nat, nat> | IsMatching(other, edges) && Below(other, n + 1)
      ensures |other| <= |owner|
    {
      var moved := AvoidPrediction(owner, edges, n, v, other);
    }
  }

  lemma SubsetSize<T>(a: set<T>, b: set<T>)
    requires a <= b
    ensures |a| <= |b|
  {
    assert b == a + (b - a);
  }

  /** A successful search gains one pair, and one more prediction can never be worth more than that. */
  lemma AugmentingKeepsMaximum(before: map<nat, nat>, after: map<nat, nat>, edges: Edges, n: nat)
    requires MaximumUpTo(before, edges, n) && |after| == |before| + 1
    ensures MaximumUpTo(after, edges, n + 1)
  {
    forall other: map<nat, nat> | IsMatching(other, edges) && Below(other, n + 1)
      ensures |other| <= |after|
    {
      if e :| e in other && other[e] == n {
        var rest := other - {e};
        assert rest.Keys == other.Keys - {e};
        assert IsMatching(rest, edges) && Below(rest, n);
        assert |rest| <= |before|;
        assert |rest.Keys| == |other.Keys| - 1;
      } else {
        assert Below(other, n);
      }
    }
  }

  /** The dictionary `match` builds: a matching that no other matching exceeds. */
  method MaximumMatching(edges: Edges) returns (owner: map<nat, nat>)
    ensures Maximum(owner, edges)
  {
    var owners := new ExpectedOwners();
    for n := 0 to |edges|
      invariant IsMatching(owners.owner, edges) && Below(owners.owner, n)
      invariant MaximumUpTo(owners.owner, edges, n)
    {
      ghost var before := owners.owner;
      owners.visited := {};
      assert !Owns(before, {}, n);
      var found := owners.Augment(n, edges);
      if found {
        AugmentingKeepsMaximum(before, owners.owner, edges, n);
        forall e | e in owners.owner ensures owners.owner[e] < n + 1 {
          assert Owns(owners.owner, {}, owners.owner[e]);
          assert Owns(before, {}, owners.owner[e]) || owners.owner[e] == n;
        }
      } else {
        FailedSearchKeepsMaximum(before, edges, n, owners.visited);
      }
    }
    owner := owners.owner;
    assert forall other: map<nat, nat> | IsMatching(other, edges) :: Below(other, |edges|);
  }

  // ---------------------------------------------------------------------------
  // The critical part of a maximum matching
  // ---------------------------------------------------------------------------

  /** The pairs of `owner` whose expected entry is in `side`. */
  function PairsIn(owner: map<nat, nat>, side: set<nat>): map<nat, nat> {
    map e | e in owner && e in side :: owner[e]
  }

  /** Edges never join an entry of `side` and an entry outside it at the same prediction. */
  ghost predicate Separates(edges: Edges, side: set<nat>) {
    forall q, e, f | 0 <= q < |edges| && e in edges[q] && f in edges[q] :: e in side <==> f in side
  }

  lemma MixedIsMatching(owner: map<nat, nat>, edges: Edges, side: set<nat>, other: map<nat, nat>)
    requires IsMatching(owner, edges) && Separates(edges, side) && IsMatching(other, edges)
    ensures IsMatching(PairsIn(other, side) + (owner - side), edges)
  {
    var inside, outside := PairsIn(other, side), owner - side;
    var mixed := inside + outside;
    forall e, f | e in mixed && f in mixed && mixed[e] == mixed[f]
      ensures e == f
    {
      assert e in edges[mixed[e]] && f in edges[mixed[f]];
      assert e in side <==> f in side;
      if e in side {
        assert other[e] == other[f];
      } else {
        assert owner[e] == owner[f];
      }
    }
  }

  /** Swapping in another matching's pairs on one side changes the size by that side's difference. */
  lemma MixedSize(owner: map<nat, nat>, side: set<nat>, other: map<nat, nat>)
    ensures |PairsIn(other, side) + (owner - side)| - |owner| == |PairsIn(other, side)| - |PairsIn(owner, side)|
  {
    var inside, kept, outside := PairsIn(other, side), PairsIn(owner, side), owner - side;
    assert (inside + outside).Keys == inside.Keys + outside.Keys;
    assert |inside.Keys + outside.Keys| == |inside.Keys| + |outside.Keys|;
    assert owner.Keys == kept.Keys + outside.Keys;
    assert |kept.Keys + outside.Keys| == |kept.Keys| + |outside.Keys|;
  }

  /** A better matching of one side improves the whole matching when no prediction spans both sides. */
  lemma ImproveSide(owner: map<nat, nat>, edges: Edges, side: set<nat>, other: map<nat, nat>)
      returns (mixed: map<nat, nat>)
    requires IsMatching(owner, edges) && Separates(edges, side) && IsMatching(other, edges)
    ensures IsMatching(mixed, edges)
    ensures |mixed| - |owner| == |PairsIn(other, side)| - |PairsIn(owner, side)|
  {
    mixed := PairsIn(other, side) + (owner - side);
    MixedIsMatching(owner, edges, side, other);
    MixedSize(owner, side, other);
  }

  /**
   When no prediction has edges on both sides of a split, a maximum matching is maximum on
   each side: a better matching of one side could replace that side's pairs.
   */
  lemma MaximumOnEachSide(owner: map<nat, nat>, edges: Edges, side: set<nat>, other: map<nat, nat>)
    requires Maximum(owner, edges) && Separates(edges, side)
    requires IsMatching(other, edges)
    ensures |PairsIn(other, side)| <= |PairsIn(owner, side)|
  {
    var mixed := ImproveSide(owner, edges, side, other);
  }
}
