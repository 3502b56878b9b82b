/**
 The commit graph. A commit is the position at which it was created, so its parents come before it.
 */
module GitGraph {
  type Commit = nat

  type Commits = seq<seq<Commit>>

  predicate ValidCommits(g: Commits) {
    forall i | 0 <= i < |g| :: ParentsBefore(g, i)
  }

  predicate ParentsBefore(g: Commits, i: nat)
    requires i < |g|
  {
    forall k | 0 <= k < |g[i]| :: g[i][k] < i
  }

  predicate Exists(g: Commits, c: Commit) {
    c < |g|
  }

  /** `merge-base --is-ancestor`: every commit is its own ancestor. */
  predicate Ancestor(g: Commits, a: Commit, d: Commit)
    decreases d
  {
    a == d || (d < |g| && exists k :: 0 <= k < |g[d]| && g[d][k] < d && Ancestor(g, a, g[d][k]))
  }

  predicate IsMerge(g: Commits, c: Commit, first: Commit, second: Commit) {
    c < |g| && g[c] == [first, second]
  }

  lemma {:induction false} AncestorIsOlder(g: Commits, a: Commit, d: Commit)
    requires Ancestor(g, a, d)
    ensures a <= d
    decreases d
  {
    if a != d {
      var k :| 0 <= k < |g[d]| && g[d][k] < d && Ancestor(g, a, g[d][k]);
      AncestorIsOlder(g, a, g[d][k]);
    }
  }

  lemma {:induction false} AncestorTransitive(g: Commits, a: Commit, b: Commit, d: Commit)
    requires Ancestor(g, a, b) && Ancestor(g, b, d)
    ensures Ancestor(g, a, d)
    decreases d
  {
    if b != d {
      var k :| 0 <= k < |g[d]| && g[d][k] < d && Ancestor(g, b, g[d][k]);
      AncestorTransitive(g, a, b, g[d][k]);
    }
  }

  /** New commits change nothing about old ones. */
  lemma {:induction false} AncestorAppend(g: Commits, h: Commits, a: Commit, d: Commit)
    requires g <= h && Exists(g, d)
    ensures Ancestor(g, a, d) <==> Ancestor(h, a, d)
    decreases d
  {
    if a != d {
      forall k | 0 <= k < |g[d]| && g[d][k] < d ensures Ancestor(g, a, g[d][k]) <==> Ancestor(h, a, h[d][k]) {
        AncestorAppend(g, h, a, g[d][k]);
      }
      assert g[d] == h[d];
    }
  }

  lemma MergeHasBoth(g: Commits, c: Commit, first: Commit, second: Commit)
    requires ValidCommits(g) && IsMerge(g, c, first, second)
    ensures Ancestor(g, first, c) && Ancestor(g, second, c)
  {
    assert ParentsBefore(g, c);
    assert g[c][0] == first && g[c][1] == second;
    assert Ancestor(g, first, g[c][0]) && Ancestor(g, second, g[c][1]);
  }

  lemma NotItsOwnParent(g: Commits, c: Commit, second: Commit)
    requires ValidCommits(g)
    ensures !IsMerge(g, c, c, second)
  {
    if c < |g| {
      assert ParentsBefore(g, c);
      assert g[c] != [] ==> g[c][0] != c;
    }
  }

  lemma NewCommitIsValid(g: Commits, first: Commit, second: Commit)
    requires ValidCommits(g) && Exists(g, first) && Exists(g, second)
    ensures ValidCommits(g + [[first, second]]) && IsMerge(g + [[first, second]], |g|, first, second)
    ensures g <= g + [[first, second]]
  {
    var h := g + [[first, second]];
    forall i | 0 <= i < |h| ensures ParentsBefore(h, i) {
      if i < |g| { assert ParentsBefore(g, i); }
    }
  }
}
