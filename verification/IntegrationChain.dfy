/**
 The accepted records of a round as a path in the commit graph, from the commit the round started
 at to the head of its integration branch.
 */
module IntegrationChain {
  import opened TeamModels
  import opened GitGraph

  type Record = IntegratedTaskRecord<Commit>

  /** The record's commit merges the source into the previous head, or the source was already in there. */
  predicate Link(g: Commits, r: Record) {
    || IsMerge(g, r.integrationHead, r.previousHead, r.sourceCommit)
    || (r.integrationHead == r.previousHead && Ancestor(g, r.sourceCommit, r.integrationHead))
  }

  /** Every record starts where the one before it ended. */
  ghost predicate Chain(g: Commits, base: Commit, accepted: seq<Record>, head: Commit)
    decreases |accepted|
  {
    if accepted == [] then base == head
    else
      var last := accepted[|accepted| - 1];
      last.integrationHead == head && Link(g, last) && Chain(g, base, accepted[..|accepted| - 1], last.previousHead)
  }

  lemma ChainNext(g: Commits, base: Commit, accepted: seq<Record>, r: Record)
    requires Chain(g, base, accepted, r.previousHead) && Link(g, r)
    ensures Chain(g, base, accepted + [r], r.integrationHead)
  {
    assert (accepted + [r])[..|accepted|] == accepted;
  }

  lemma {:induction false} ChainPersists(g: Commits, h: Commits, base: Commit, accepted: seq<Record>, head: Commit)
    requires ValidCommits(g) && g <= h && Exists(g, head) && Chain(g, base, accepted, head)
    ensures Chain(h, base, accepted, head)
    decreases |accepted|
  {
    if accepted != [] {
      var last := accepted[|accepted| - 1];
      AncestorAppend(g, h, last.sourceCommit, head);
      if IsMerge(g, head, last.previousHead, last.sourceCommit) {
        assert ParentsBefore(g, head) && g[head][0] == last.previousHead;
        assert h[head] == g[head];
      }
      ChainPersists(g, h, base, accepted[..|accepted| - 1], last.previousHead);
    }
  }

  /** Where record `i` starts. */
  function StartOf(base: Commit, accepted: seq<Record>, i: nat): Commit
    requires i <= |accepted|
  {
    if i == 0 then base else accepted[i - 1].integrationHead
  }

  lemma SameStart(base: Commit, accepted: seq<Record>, i: nat)
    requires i < |accepted|
    ensures StartOf(base, accepted[..|accepted| - 1], i) == StartOf(base, accepted, i)
  {
  }

  /** The chain is unbroken, and its commits lead from the base to the head. */
  lemma {:induction false} ChainIsUnbroken(g: Commits, base: Commit, accepted: seq<Record>, head: Commit)
    requires Chain(g, base, accepted, head)
    ensures head == StartOf(base, accepted, |accepted|)
    ensures forall i | 0 <= i < |accepted| ::
        accepted[i].previousHead == StartOf(base, accepted, i) && Link(g, accepted[i])
    decreases |accepted|
  {
    if accepted != [] {
      var init, last := accepted[..|accepted| - 1], accepted[|accepted| - 1];
      ChainIsUnbroken(g, base, init, last.previousHead);
      forall i | 0 <= i < |accepted|
        ensures accepted[i].previousHead == StartOf(base, accepted, i) && Link(g, accepted[i])
      {
        SameStart(base, accepted, i);
        if i < |init| { assert init[i] == accepted[i]; }
      }
    }
  }

  lemma LinkReaches(g: Commits, r: Record)
    requires ValidCommits(g) && Link(g, r)
    ensures Ancestor(g, r.previousHead, r.integrationHead) && Ancestor(g, r.sourceCommit, r.integrationHead)
  {
    if IsMerge(g, r.integrationHead, r.previousHead, r.sourceCommit) {
      MergeHasBoth(g, r.integrationHead, r.previousHead, r.sourceCommit);
    }
  }

  /** The head of the chain contains the base, every head on the way, and the work of every accepted task. */
  lemma {:induction false} ChainContains(g: Commits, base: Commit, accepted: seq<Record>, head: Commit)
    requires ValidCommits(g) && Chain(g, base, accepted, head)
    ensures Ancestor(g, base, head)
    ensures forall i | 0 <= i < |accepted| ::
        Ancestor(g, accepted[i].sourceCommit, head) && Ancestor(g, accepted[i].integrationHead, head)
    decreases |accepted|
  {
    if accepted != [] {
      var init, last := accepted[..|accepted| - 1], accepted[|accepted| - 1];
      ChainContains(g, base, init, last.previousHead);
      LinkReaches(g, last);
      AncestorTransitive(g, base, last.previousHead, head);
      forall i | 0 <= i < |accepted|
        ensures Ancestor(g, accepted[i].sourceCommit, head) && Ancestor(g, accepted[i].integrationHead, head)
      {
        if i < |init| {
          assert init[i] == accepted[i];
          AncestorTransitive(g, accepted[i].sourceCommit, last.previousHead, head);
          AncestorTransitive(g, accepted[i].integrationHead, last.previousHead, head);
        }
      }
    }
  }

  /** The merge commits that the records claim to have made. */
  function MergeCommits(accepted: seq<Record>): seq<Commit> {
    if accepted == [] then []
    else
      var rest, last := MergeCommits(accepted[..|accepted| - 1]), accepted[|accepted| - 1];
      if last.integrationHead == last.previousHead then rest else rest + [last.integrationHead]
  }

  /** What `git log --first-parent base..head` lists, oldest first. */
  function FirstParentLog(g: Commits, base: Commit, head: Commit): seq<Commit>
    decreases head
  {
    if head == base || head >= |g| || g[head] == [] || g[head][0] >= head then []
    else FirstParentLog(g, base, g[head][0]) + [head]
  }

  /** The integration branch's own history since the base is exactly the recorded merges, in order. */
  lemma {:induction false} LogIsTheRecordedMerges(g: Commits, base: Commit, accepted: seq<Record>, head: Commit)
    requires ValidCommits(g) && Chain(g, base, accepted, head)
    ensures FirstParentLog(g, base, head) == MergeCommits(accepted)
    decreases |accepted|
  {
    if accepted != [] {
      var init, last := accepted[..|accepted| - 1], accepted[|accepted| - 1];
      LogIsTheRecordedMerges(g, base, init, last.previousHead);
      if last.integrationHead != last.previousHead {
        assert ParentsBefore(g, head) && g[head][0] == last.previousHead;
        ChainContains(g, base, init, last.previousHead);
        AncestorIsOlder(g, base, last.previousHead);
      }
    }
  }
}
