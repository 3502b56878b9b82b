/**
 What the protocol guarantees over whole runs, crashes and interference by others included.
 */
module IntegrationSafety {
  import opened Wrappers
  import opened TeamModels
  import opened TeamTasks
  import opened GitGraph
  import opened IntegrationChain
  import opened IntegrationProtocol

  /** A run from a repository in which nothing was integrated yet. */
  ghost predicate FromStart(worlds: seq<World>, actions: seq<Action>) {
    IsRun(worlds, actions) && Initial(worlds[0])
  }

  lemma RunHolds(worlds: seq<World>, actions: seq<Action>, k: nat)
    requires FromStart(worlds, actions) && k < |worlds|
    ensures Holds(worlds[k]) && (!Resurrected(worlds[k]) ==> Inv(worlds[k]))
    ensures Resurrected(worlds[k]) <==> exists j :: 0 <= j < k && actions[j].Resurrect?
  {
    InitialIsOk(worlds[0]);
    RunKeepsInv(worlds, actions, k);
  }

  /** Some run leads from a repository in which nothing was integrated yet to this world. */
  ghost predicate Reachable(w: World) {
    exists worlds, actions :: FromStart(worlds, actions) && worlds[|actions|] == w
  }

  lemma StartIsReachable(w: World)
    requires Initial(w)
    ensures Reachable(w)
  {
    assert FromStart([w], []);
  }

  lemma ReachableIsSound(w: World)
    requires Reachable(w) && !Resurrected(w)
    ensures Inv(w)
  {
    var worlds, actions :| FromStart(worlds, actions) && worlds[|actions|] == w;
    RunHolds(worlds, actions, |actions|);
  }

  lemma OneStepFurther(worlds: seq<World>, actions: seq<Action>, a: Action, v: World)
    requires FromStart(worlds, actions) && Steps(worlds[|actions|], a, v)
    ensures FromStart(worlds + [v], actions + [a])
  {
    var ws, acts := worlds + [v], actions + [a];
    forall k | 0 <= k < |acts| ensures Steps(ws[k], acts[k], ws[k + 1]) {
      if k < |actions| { assert Steps(worlds[k], actions[k], worlds[k + 1]); }
    }
  }

  lemma Next(w: World, a: Action) returns (v: World)
    requires Reachable(w) && Enabled(w, a)
    ensures v == After(w, a) && Reachable(v)
  {
    v := After(w, a);
    var worlds, actions :| FromStart(worlds, actions) && worlds[|actions|] == w;
    OneStepFurther(worlds, actions, a, v);
  }

  /** A copy of an archived round is as sound as the round. */
  lemma RoundHolds(w: World, i: nat)
    requires Holds(w) && i < |Rounds(w.state)|
    ensures RoundOk(w.commits, Rounds(w.state)[i]) && OkRound(Rounds(w.state)[i])
    ensures Rounds(w.state)[i].phase == Published ==> PublishedOnLead(w, Rounds(w.state)[i])
  {
    var u := Intact(w);
    if i < |Rounds(u.state)| {
      assert RoundOk(u.commits, Rounds(u.state)[i]) && OkRound(Rounds(u.state)[i]);
      assert Rounds(u.state)[i].phase == Published ==> PublishedOnLead(u, Rounds(u.state)[i]);
    } else {
      var last := Rounds(u.state)[|w.state.history| - 1];
      assert last == LastRound(w) && RoundOk(u.commits, last) && OkRound(last);
    }
  }

  lemma CopyWasPublished(w: World)
    requires Holds(w) && Resurrected(w)
    ensures Cur(w).publishedAt.Some?
  {
    RoundHolds(w, |w.state.history| - 1);
  }

  // ---------------------------------------------------------------------------
  // The integration branch and its record
  // ---------------------------------------------------------------------------

  /** The one merge that may be in Git but not yet in the record. */
  function Unrecorded(w: World): seq<Commit>
    requires HasRound(w) && Captured(Cur(w)) && Cur(w).number in w.inner
  {
    if Some(w.inner[Cur(w).number].head) == Cur(w).integrationHead then [] else [w.inner[Cur(w).number].head]
  }

  /**
   In every world of every run, until its round is published, the integration branch consists of
   exactly the recorded merges, in order, and at most one more: the one that the pending intent
   announces, with exactly the announced parents, and of a task attempt not yet accepted.
   */
  lemma BranchIsTheRecord(worlds: seq<World>, actions: seq<Action>, k: nat)
    requires FromStart(worlds, actions) && k < |worlds|
    requires HasRound(worlds[k]) && Captured(Cur(worlds[k])) && Cur(worlds[k]).publishedAt.None?
    ensures Cur(worlds[k]).number in worlds[k].inner
    ensures
      var w, r, head := worlds[k], Cur(worlds[k]), worlds[k].inner[Cur(worlds[k]).number].head;
      && FirstParentLog(w.commits, r.baseCommit.value, head) == MergeCommits(r.accepted) + Unrecorded(w)
      && (Unrecorded(w) != [] ==>
            && MergePending(r) && FullIntent(r.intent.value)
            && r.intent.value.expectedHead == r.integrationHead.value
            && IsMerge(w.commits, head, r.integrationHead.value, r.intent.value.sourceCommit.value)
            && !IsAccepted(r.accepted, r.intent.value.task.value))
  {
    var w, r := worlds[k], Cur(worlds[k]);
    RunHolds(worlds, actions, k);
    if Resurrected(w) { CopyWasPublished(w); }
    CurrentHolds(w);
    var base, ih, head := r.baseCommit.value, r.integrationHead.value, w.inner[r.number].head;
    LogIsTheRecordedMerges(w.commits, base, r.accepted, ih);
    if head != ih {
      ChainContains(w.commits, base, r.accepted, ih);
      AncestorIsOlder(w.commits, base, ih);
      assert ParentsBefore(w.commits, head) && w.commits[head][0] == ih;
    }
  }

  /** The accepted records chain the base to the recorded head without a gap, and no attempt occurs twice. */
  lemma AcceptedIsAChain(worlds: seq<World>, actions: seq<Action>, k: nat, i: nat)
    requires FromStart(worlds, actions) && k < |worlds| && i < |Rounds(worlds[k].state)|
    ensures
      var r := Rounds(worlds[k].state)[i];
      && UniqueKeys(r.accepted)
      && (r.accepted != [] ==> Captured(r))
      && (Captured(r) ==>
            && r.integrationHead.value == StartOf(r.baseCommit.value, r.accepted, |r.accepted|)
            && (forall j | 0 <= j < |r.accepted| ::
                r.accepted[j].previousHead == StartOf(r.baseCommit.value, r.accepted, j)))
  {
    RunHolds(worlds, actions, k);
    var w := worlds[k];
    var r := Rounds(w.state)[i];
    RoundHolds(w, i);
    if Captured(r) { ChainIsUnbroken(w.commits, r.baseCommit.value, r.accepted, r.integrationHead.value); }
  }

  /** What was published has been on the Lead, and contains the base and the work of every accepted task. */
  lemma PublishedContainsAcceptedWork(worlds: seq<World>, actions: seq<Action>, k: nat, i: nat)
    requires FromStart(worlds, actions) && k < |worlds| && i < |Rounds(worlds[k].state)|
    requires Rounds(worlds[k].state)[i].phase == Published
    ensures
      var w, r := worlds[k], Rounds(worlds[k].state)[i];
      && Captured(r) && LeadVisited(w, r.integrationHead.value)
      && Ancestor(w.commits, r.baseCommit.value, r.integrationHead.value)
      && (forall j | 0 <= j < |r.accepted| :: Ancestor(w.commits, r.accepted[j].sourceCommit, r.integrationHead.value))
  {
    RunHolds(worlds, actions, k);
    var w := worlds[k];
    var r := Rounds(w.state)[i];
    RoundHolds(w, i);
    ChainContains(w.commits, r.baseCommit.value, r.accepted, r.integrationHead.value);
  }

  // ---------------------------------------------------------------------------
  // No landed merge is forgotten
  // ---------------------------------------------------------------------------

  /** The merge of the pending intent is in Git. */
  ghost predicate HasLanded(w: World) {
    && HasRound(w) && Captured(Cur(w)) && MergePending(Cur(w)) && Cur(w).number in w.inner
    && w.inner[Cur(w).number].head != Cur(w).intent.value.expectedHead
  }

  /** The round still waits for the same merge, which is still there. */
  ghost predicate StillLanded(w: World, v: World)
    requires HasLanded(w)
  {
    && HasLanded(v) && Cur(v).number == Cur(w).number && Cur(v).intent == Cur(w).intent
    && Cur(v).accepted == Cur(w).accepted
    && v.inner[Cur(v).number].head == w.inner[Cur(w).number].head
  }

  /** The record of the merge was appended. */
  ghost predicate NowRecorded(w: World, v: World)
    requires HasLanded(w)
  {
    && HasRound(v) && Cur(v).number == Cur(w).number && Cur(v).intent.None?
    && |Cur(v).accepted| == |Cur(w).accepted| + 1 && Cur(v).accepted[..|Cur(w).accepted|] == Cur(w).accepted
    && Some(Cur(v).accepted[|Cur(w).accepted|].task) == Cur(w).intent.value.task
    && Cur(v).accepted[|Cur(w).accepted|].integrationHead == w.inner[Cur(w).number].head
    && Cur(v).integrationHead == Some(w.inner[Cur(w).number].head)
  }

  /** The step that follows keeps it announced or records it; only archiving a round as not needed drops it. */
  lemma LandedStep(w: World, a: Action)
    requires Inv(w) && HasLanded(w) && Enabled(w, a) && !a.ArchiveUnneeded?
    ensures StillLanded(w, After(w, a)) || NowRecorded(w, After(w, a))
  {
    CurrentHolds(w);
    assert Landed(w.commits, w.inner[Cur(w).number].head, Cur(w).intent.value);
    hide Inv, Landed, OkRound, RoundOk, TasksFit, Ancestor;
    if IsWrite(a) { LandedWrite(w, a); }
  }

  lemma LandedWrite(w: World, a: Action)
    requires HasLanded(w) && Enabled(w, a) && IsWrite(a)
    requires Captured(Cur(w)) && Coupled(w, Cur(w)) && IntentOk(w.commits, Cur(w))
    ensures StillLanded(w, After(w, a)) || NowRecorded(w, After(w, a))
  {
    assert a.Accept? || a.Block? || a.Capture? || a.BeginMerge?;
    hide Coupled, IntentOk;
  }

  /** Some record of round `number`, current or archived, says that `key` was merged at `head`. */
  ghost predicate Recorded(s: State, number: int, key: TaskAttemptRef, head: Commit) {
    exists i, j :: 0 <= i < |Rounds(s)| && 0 <= j < |Rounds(s)[i].accepted|
      && IsRecord(Rounds(s)[i], j, number, key, head)
  }

  predicate IsRecord(r: Round, j: nat, number: int, key: TaskAttemptRef, head: Commit)
    requires j < |r.accepted|
  {
    r.number == number && r.accepted[j].task == key && r.accepted[j].integrationHead == head
  }

  /** Rounds are only added, and records only appended. */
  ghost predicate RecordsGrow(s: State, t: State) {
    && |Rounds(s)| <= |Rounds(t)|
    && forall i | 0 <= i < |Rounds(s)| ::
         Rounds(t)[i].number == Rounds(s)[i].number && Rounds(s)[i].accepted <= Rounds(t)[i].accepted
  }

  lemma RewritingGrowsRecords(w: World, r: Round)
    requires HasRound(w) && r.number == Cur(w).number && Cur(w).accepted <= r.accepted
    ensures RecordsGrow(w.state, Put(w, r).state) && RecordsGrow(w.state, Retire(w, r).state)
  {
  }

  lemma RewrittenGrows(w: World, a: Action)
    requires Enabled(w, a) && IsWrite(a)
    ensures HasRound(w) && Rewritten(w, a).number == Cur(w).number && Cur(w).accepted <= Rewritten(w, a).accepted
  {
  }

  lemma ActionGrowsRecords(w: World, a: Action)
    requires Enabled(w, a)
    ensures RecordsGrow(w.state, After(w, a).state)
  {
    hide RecordsGrow;
    if IsWrite(a) {
      RewrittenGrows(w, a);
      RewritingGrowsRecords(w, Rewritten(w, a));
    } else {
      OtherActionGrowsRecords(w, a);
    }
  }

  lemma OtherActionGrowsRecords(w: World, a: Action)
    requires Enabled(w, a) && !IsWrite(a)
    ensures RecordsGrow(w.state, After(w, a).state)
  {
    if a.Archive? || a.ArchiveUnneeded? {
      RewritingGrowsRecords(w, After(w, a).state.history[|w.state.history|]);
    }
  }

  lemma RecordedStays(s: State, t: State, number: int, key: TaskAttemptRef, head: Commit)
    requires RecordsGrow(s, t) && Recorded(s, number, key, head)
    ensures Recorded(t, number, key, head)
  {
    var i, j :| 0 <= i < |Rounds(s)| && 0 <= j < |Rounds(s)[i].accepted|
      && IsRecord(Rounds(s)[i], j, number, key, head);
    assert IsRecord(Rounds(t)[i], j, number, key, head);
  }

  // ---------------------------------------------------------------------------
  // Rounds archived as not needed
  // ---------------------------------------------------------------------------

  /** What the round has accepted or is merging belongs to attempts that are gone. */
  predicate WorkGone(tasks: Tasks, r: Round) {
    && (forall k | 0 <= k < |r.accepted| :: AttemptGone(tasks, r.accepted[k].task))
    && (MergePending(r) && r.intent.value.task.Some? ==> AttemptGone(tasks, r.intent.value.task.value))
  }

  /** The list lets the round be archived exactly when nothing of it is left but completed research. */
  lemma ListShowsRound(tasks: Tasks, list: seq<TeamTask>, number: int)
    requires Lists(tasks, list)
    ensures AllCompleted(list, number) && !SomeCode(list, number) <==> NoCodeLeft(tasks, number)
  {
    if AllCompleted(list, number) && !SomeCode(list, number) {
      forall id | id in tasks && tasks[id].integrationRound == number
        ensures tasks[id].kind != CodeTask && tasks[id].status == TaskCompleted
      {
        var k :| 0 <= k < |list| && list[k] == tasks[id];
      }
    }
  }

  /** An accepted or announced attempt that is not gone is still a code task of the round. */
  lemma NoCodeLeftMeansGone(w: World)
    requires Inv(w) && HasRound(w) && NoCodeLeft(w.tasks, Cur(w).number)
    ensures WorkGone(w.tasks, Cur(w))
  {
    CurrentHolds(w);
    hide Inv;
    forall k | 0 <= k < |Cur(w).accepted| ensures AttemptGone(w.tasks, Cur(w).accepted[k].task) {
      assert RecordFits(w.tasks, Cur(w).accepted[k], Cur(w).number);
    }
  }

  /**
   With the list of all tasks, a round is archived as not needed exactly when nothing of it is left
   but completed research. What it has accepted, and what it is merging, is then left behind, and all
   of that was deleted or started over.
   */
  lemma UnneededLeavesWorkIff(w: World, list: seq<TeamTask>, now: string)
    requires Inv(w) && HasRound(w) && Lists(w.tasks, list) && NotBlank(now)
    ensures Enabled(w, ArchiveUnneeded(list, now)) <==> NoCodeLeft(w.tasks, Cur(w).number)
    ensures Enabled(w, ArchiveUnneeded(list, now)) ==>
        var r := LastRound(After(w, ArchiveUnneeded(list, now)));
        && r.phase == NotNeeded && r.accepted == Cur(w).accepted && r.intent == Cur(w).intent
        && WorkGone(w.tasks, r)
  {
    ListShowsRound(w.tasks, list, Cur(w).number);
    InvIsReadable(w);
    if NoCodeLeft(w.tasks, Cur(w).number) { NoCodeLeftMeansGone(w); }
  }

  /** The round keeps its place, and what it has accepted, as long as it is the current one. */
  lemma {:induction false} AcceptedOnlyGrows(worlds: seq<World>, actions: seq<Action>, r: nat, m: nat)
    requires IsRun(worlds, actions) && r <= m < |worlds|
    ensures RecordsGrow(worlds[r].state, worlds[m].state)
    decreases m
  {
    hide RecordsGrow;
    if r == m {
      assert RecordsGrow(worlds[r].state, worlds[m].state) by { GrowsFromItself(worlds[r].state); }
    } else {
      AcceptedOnlyGrows(worlds, actions, r, m - 1);
      assert Steps(worlds[m - 1], actions[m - 1], worlds[m]);
      ActionGrowsRecords(worlds[m - 1], actions[m - 1]);
      GrowsOn(worlds[r].state, worlds[m - 1].state, worlds[m].state);
    }
  }

  lemma GrowsFromItself(s: State)
    ensures RecordsGrow(s, s)
  {
  }

  lemma GrowsOn(s: State, t: State, u: State)
    requires RecordsGrow(s, t) && RecordsGrow(t, u)
    ensures RecordsGrow(s, u)
  {
  }

  lemma SameRoundGrows(s: State, t: State)
    requires RecordsGrow(s, t) && WellFormed(s) && WellFormed(t) && s.current.Some? && t.current.Some?
    requires s.current.value.number == t.current.value.number
    ensures s.current.value.accepted <= t.current.value.accepted
  {
    var i := |s.history|;
    assert Rounds(s)[i] == s.current.value && Rounds(t)[i].number == s.current.value.number;
    assert Rounds(t)[|t.history|] == t.current.value;
  }

  /**
   The list may have been read earlier in the same round: what the round had accepted by then, or was
   merging, was already deleted or started over. The rest was accepted after the list was read.
   */
  lemma UnneededWorkWasGone(worlds: seq<World>, actions: seq<Action>, r: nat, m: nat)
    requires FromStart(worlds, actions) && r <= m < |actions| && actions[m].ArchiveUnneeded?
    requires HasRound(worlds[r]) && HasRound(worlds[m]) && Cur(worlds[r]).number == Cur(worlds[m]).number
    requires Lists(worlds[r].tasks, actions[m].snapshot)
    ensures Cur(worlds[r]).accepted <= Cur(worlds[m]).accepted
    ensures WorkGone(worlds[r].tasks, Cur(worlds[r]))
  {
    hide Inv, MayHappen, After, RecordsGrow;
    assert Steps(worlds[m], actions[m], worlds[m + 1]);
    RunHolds(worlds, actions, r);
    RunHolds(worlds, actions, m);
    assert !Resurrected(worlds[m]) && !Resurrected(worlds[r]);
    ReadableUnlessResurrected(worlds[r]);
    ReadableUnlessResurrected(worlds[m]);
    AcceptedOnlyGrows(worlds, actions, r, m);
    SameRoundGrows(worlds[r].state, worlds[m].state);
    UnneededShowsNoCode(worlds[m], actions[m]);
    ListShowsRound(worlds[r].tasks, actions[m].snapshot, Cur(worlds[r]).number);
    NoCodeLeftMeansGone(worlds[r]);
  }

  lemma UnneededShowsNoCode(w: World, a: Action)
    requires Enabled(w, a) && a.ArchiveUnneeded?
    ensures HasRound(w) && AllCompleted(a.snapshot, Cur(w).number) && !SomeCode(a.snapshot, Cur(w).number)
  {
  }

  // ---------------------------------------------------------------------------
  // Landed merges over runs
  // ---------------------------------------------------------------------------

  /** From step `j` to step `k` the merge has landed and is still announced. */
  ghost predicate LandedThroughout(worlds: seq<World>, j: nat, k: nat)
    requires j <= k < |worlds| && HasLanded(worlds[j])
  {
    forall r | j <= r <= k :: StillLanded(worlds[j], worlds[r])
  }

  /**
   Between the two worlds the round was archived as one without code. If that was done on the list of
   all tasks as they were at any step since the merge has landed, the task was deleted or started
   over by then.
   */
  ghost predicate Overlooked(worlds: seq<World>, actions: seq<Action>, j: nat, k: nat)
    requires IsRun(worlds, actions) && j <= k < |worlds| && HasLanded(worlds[j])
        && Cur(worlds[j]).intent.value.task.Some?
  {
    exists m :: j <= m < k && OverlookedAt(worlds, actions, j, m)
  }

  ghost predicate OverlookedAt(worlds: seq<World>, actions: seq<Action>, j: nat, m: nat)
    requires IsRun(worlds, actions) && j <= m < |actions| && HasLanded(worlds[j])
        && Cur(worlds[j]).intent.value.task.Some?
  {
    && actions[m].ArchiveUnneeded? && LandedThroughout(worlds, j, m)
    && forall r | j <= r <= m && Lists(worlds[r].tasks, actions[m].snapshot) ::
         AttemptGone(worlds[r].tasks, Cur(worlds[j]).intent.value.task.value)
  }

  lemma LandedWasGone(worlds: seq<World>, actions: seq<Action>, j: nat, m: nat)
    requires FromStart(worlds, actions) && j <= m < |actions| && actions[m].ArchiveUnneeded? && HasLanded(worlds[j])
    requires Cur(worlds[j]).intent.value.task.Some? && LandedThroughout(worlds, j, m)
    ensures OverlookedAt(worlds, actions, j, m)
  {
    hide Inv, MayHappen, After, Lists;
    forall r | j <= r <= m && Lists(worlds[r].tasks, actions[m].snapshot)
      ensures AttemptGone(worlds[r].tasks, Cur(worlds[j]).intent.value.task.value)
    {
      assert StillLanded(worlds[j], worlds[r]) && StillLanded(worlds[j], worlds[m]);
      UnneededWorkWasGone(worlds, actions, r, m);
    }
  }

  /** The record of the merge that had landed in world `j`. */
  ghost predicate RecordedSince(worlds: seq<World>, j: nat, k: nat)
    requires j < |worlds| && k < |worlds| && HasLanded(worlds[j]) && Cur(worlds[j]).intent.value.task.Some?
  {
    Recorded(worlds[k].state, Cur(worlds[j]).number, Cur(worlds[j]).intent.value.task.value,
             worlds[j].inner[Cur(worlds[j]).number].head)
  }

  /**
   A merge that has landed stays announced until it is recorded, and its record is never lost, in any
   run, unless the round is archived as not needed, on a list in which its attempt is gone.
   */
  lemma {:induction false} LandedMergeIsKept(worlds: seq<World>, actions: seq<Action>, j: nat, k: nat)
    requires FromStart(worlds, actions) && j <= k < |worlds| && HasLanded(worlds[j])
    ensures Cur(worlds[j]).intent.value.task.Some?
    ensures LandedThroughout(worlds, j, k) || RecordedSince(worlds, j, k) || Overlooked(worlds, actions, j, k)
    decreases k
  {
    hide Inv, MayHappen, After, RecordsGrow, Recorded, OverlookedAt;
    RunHolds(worlds, actions, j);
    assert !Resurrected(worlds[j]);
    CurrentHolds(worlds[j]);
    if k > j {
      LandedMergeIsKept(worlds, actions, j, k - 1);
      assert Steps(worlds[k - 1], actions[k - 1], worlds[k]);
      RunHolds(worlds, actions, k - 1);
      if LandedThroughout(worlds, j, k - 1) {
        LandedStepOfRun(worlds, actions, j, k);
      } else if Overlooked(worlds, actions, j, k - 1) {
        var m :| j <= m < k - 1 && OverlookedAt(worlds, actions, j, m);
      } else {
        ActionGrowsRecords(worlds[k - 1], actions[k - 1]);
        RecordedStays(worlds[k - 1].state, worlds[k].state, Cur(worlds[j]).number,
                      Cur(worlds[j]).intent.value.task.value, worlds[j].inner[Cur(worlds[j]).number].head);
      }
    }
  }

  lemma LandedStepOfRun(worlds: seq<World>, actions: seq<Action>, j: nat, k: nat)
    requires FromStart(worlds, actions) && j < k < |worlds| && HasLanded(worlds[j])
        && Cur(worlds[j]).intent.value.task.Some?
    requires Holds(worlds[k - 1]) && LandedThroughout(worlds, j, k - 1)
    ensures LandedThroughout(worlds, j, k) || RecordedSince(worlds, j, k) || Overlooked(worlds, actions, j, k)
  {
    var w, a, v := worlds[k - 1], actions[k - 1], worlds[k];
    assert Steps(w, a, v) && StillLanded(worlds[j], w) && !Resurrected(w);
    hide Inv, MayHappen, After, Recorded, OverlookedAt, NowRecorded, RecordsGrow;
    if a.ArchiveUnneeded? {
      LandedWasGone(worlds, actions, j, k - 1);
    } else {
      LandedStep(w, a);
      if NowRecorded(w, v) { NowRecordedIsRecorded(worlds[j], w, v); }
    }
  }

  lemma NowRecordedIsRecorded(u: World, w: World, v: World)
    requires HasLanded(u) && Cur(u).intent.value.task.Some? && StillLanded(u, w) && NowRecorded(w, v)
    ensures Recorded(v.state, Cur(u).number, Cur(u).intent.value.task.value, u.inner[Cur(u).number].head)
  {
    var at := |v.state.history|;
    assert Rounds(v.state)[at] == Cur(v);
    assert IsRecord(Rounds(v.state)[at], |Cur(w).accepted|, Cur(u).number, Cur(u).intent.value.task.value,
                    u.inner[Cur(u).number].head);
  }

  // ---------------------------------------------------------------------------
  // The Lead branch
  // ---------------------------------------------------------------------------

  /** The service moves the Lead only by publishing: forward, to the recorded head, while the intent says so. */
  lemma OnlyPublishingMovesLead(w: World, a: Action)
    requires Inv(w) && Enabled(w, a) && !a.Outsiders? && After(w, a).lead != w.lead
    ensures a == ForwardLead && PublishPending(Cur(w)) && Captured(Cur(w))
    ensures Some(After(w, a).lead.head) == Cur(w).integrationHead
        && After(w, a).lead == w.lead.(head := After(w, a).lead.head)
    ensures Ancestor(w.commits, w.lead.head, After(w, a).lead.head)
    ensures Some(w.lead.head) == Cur(w).baseCommit || LastByOthers(w.leadLog)
  {
    CurrentHolds(w);
  }

  /** The same round, with the same work. */
  predicate SameAnnouncement(w: World, v: World)
    requires HasRound(w) && HasRound(v)
  {
    Cur(w).number == Cur(v).number && Cur(w).accepted == Cur(v).accepted
      && Cur(w).integrationHead == Cur(v).integrationHead
  }

  /** Publishing step `j` announced what step `k` finds pending. */
  ghost predicate AnnouncedAt(worlds: seq<World>, actions: seq<Action>, j: nat, k: nat)
    requires IsRun(worlds, actions) && k < |worlds| && HasRound(worlds[k])
  {
    j < k && actions[j].BeginPublish? && HasRound(worlds[j]) && SameAnnouncement(worlds[j], worlds[k])
  }

  lemma AnnouncementStep(w: World, a: Action, v: World)
    requires Steps(w, a, v) && Holds(w) && HasRound(v) && PublishPending(Cur(v))
    ensures HasRound(w) && SameAnnouncement(w, v) && (a.BeginPublish? || PublishPending(Cur(w)))
  {
    if a.BeginPublish? {
      assert v == Put(w, Rewritten(w, a)) && Rewritten(w, a).integrationHead == Cur(w).integrationHead;
    } else if IsWrite(a) {
      CurrentHolds(w);
      assert a.Block?;
    } else if WritesFile(a) {
      assert false;
    } else {
      RevisionCounts(w, a);
    }
  }

  lemma AnnouncementStepOf(worlds: seq<World>, actions: seq<Action>, k: nat)
    requires FromStart(worlds, actions) && k < |worlds| && HasRound(worlds[k]) && PublishPending(Cur(worlds[k]))
    ensures k > 0 && HasRound(worlds[k - 1]) && SameAnnouncement(worlds[k - 1], worlds[k])
    ensures actions[k - 1].BeginPublish? || PublishPending(Cur(worlds[k - 1]))
  {
    RunHolds(worlds, actions, k - 1);
    assert Steps(worlds[k - 1], actions[k - 1], worlds[k]);
    AnnouncementStep(worlds[k - 1], actions[k - 1], worlds[k]);
  }

  lemma {:induction false} PendingPublishWasAnnounced(worlds: seq<World>, actions: seq<Action>, k: nat) returns (j: nat)
    requires FromStart(worlds, actions) && k < |worlds| && HasRound(worlds[k]) && PublishPending(Cur(worlds[k]))
    ensures AnnouncedAt(worlds, actions, j, k)
  {
    hide Steps, Initial;
    AnnouncementStepOf(worlds, actions, k);
    j := k - 1;
    if !actions[j].BeginPublish? { j := PendingPublishWasAnnounced(worlds, actions, j); }
  }

  /**
   Whenever the Lead is published to, some earlier step saw every task of the round in the given
   snapshot completed and every code task of it accepted, and nothing was accepted since.
   */
  lemma PublishedRoundsWereComplete(worlds: seq<World>, actions: seq<Action>, k: nat) returns (j: nat)
    requires FromStart(worlds, actions) && k < |actions| && actions[k] == ForwardLead
    ensures j < k && actions[j].BeginPublish? && HasRound(worlds[k])
    ensures AllCompleted(actions[j].snapshot, Cur(worlds[k]).number)
        && SomeCode(actions[j].snapshot, Cur(worlds[k]).number)
    ensures AllCodeAccepted(actions[j].snapshot, Cur(worlds[k]))
  {
    assert Steps(worlds[k], actions[k], worlds[k + 1]);
    j := PendingPublishWasAnnounced(worlds, actions, k);
    assert Steps(worlds[j], actions[j], worlds[j + 1]);
    var s := actions[j].snapshot;
    forall t | 0 <= t < |s| && s[t].integrationRound == Cur(worlds[k]).number && s[t].kind == CodeTask
      ensures IsAccepted(Cur(worlds[k]).accepted, TaskAttemptRef(s[t].id, s[t].attempt))
    {
      assert IsAccepted(Cur(worlds[j]).accepted, TaskAttemptRef(s[t].id, s[t].attempt));
    }
  }

  /** A round moves the Lead from its recorded base, or right behind a move by others. */
  lemma MovesStartAtBase(worlds: seq<World>, actions: seq<Action>, k: nat, i: nat)
    requires FromStart(worlds, actions) && k < |worlds| && i < |worlds[k].leadLog| && worlds[k].leadLog[i].ByRound?
    ensures worlds[k].leadLog[i].from == worlds[k].leadLog[i].base || (i > 0 && worlds[k].leadLog[i - 1].ByOthers?)
    ensures Ancestor(worlds[k].commits, worlds[k].leadLog[i].from, worlds[k].leadLog[i].to)
  {
    RunHolds(worlds, actions, k);
    assert MoveOk(Intact(worlds[k]), i);
  }

  /** In every run, a round that moves the Lead twice does so only because others have moved it. */
  lemma SecondMoveNeedsOthers(worlds: seq<World>, actions: seq<Action>, k: nat, i: nat, j: nat) returns (m: nat)
    requires FromStart(worlds, actions) && k < |worlds| && i < j < |worlds[k].leadLog|
    requires worlds[k].leadLog[i].ByRound? && worlds[k].leadLog[j].ByRound?
    requires worlds[k].leadLog[i].round == worlds[k].leadLog[j].round
    ensures i - 1 <= m < j && worlds[k].leadLog[m].ByOthers?
  {
    RunHolds(worlds, actions, k);
    var u := Intact(worlds[k]);
    assert MoveOk(u, i) && MoveOk(u, j);
    if u.leadLog[j].from != u.leadLog[j].base {
      m := j - 1;
    } else if u.leadLog[i].from != u.leadLog[i].base {
      m := i - 1;
    } else {
      assert MovedTwice(u.leadLog, i, j);
      m :| i < m < j && m < |u.leadLog| && u.leadLog[m].ByOthers?;
    }
  }

  /** If nobody else ever moves the Lead, every round moves it at most once, and from the base it recorded. */
  lemma RoundsMoveLeadOnce(worlds: seq<World>, actions: seq<Action>, k: nat)
    requires FromStart(worlds, actions) && k < |worlds|
    requires forall i | 0 <= i < |worlds[k].leadLog| :: worlds[k].leadLog[i].ByRound?
    ensures forall i | 0 <= i < |worlds[k].leadLog| :: worlds[k].leadLog[i].from == worlds[k].leadLog[i].base
    ensures forall i, j | 0 <= i < j < |worlds[k].leadLog| :: worlds[k].leadLog[i].round != worlds[k].leadLog[j].round
  {
    var log := worlds[k].leadLog;
    forall i | 0 <= i < |log| ensures log[i].from == log[i].base { MovesStartAtBase(worlds, actions, k, i); }
    forall i, j | 0 <= i < j < |log| ensures log[i].round != log[j].round {
      if log[i].round == log[j].round { var m := SecondMoveNeedsOthers(worlds, actions, k, i, j); }
    }
  }

  // ---------------------------------------------------------------------------
  // One round and the Lead
  // ---------------------------------------------------------------------------

  /** Round `number` has moved the Lead. */
  ghost predicate MovedBy(log: seq<LeadMove>, number: int) {
    exists i :: 0 <= i < |log| && log[i].ByRound? && log[i].round == number
  }

  predicate IsOpen(w: World, number: int) {
    HasRound(w) && Cur(w).number == number && !Resurrected(w)
  }

  /** Step `c` captures the Lead, and nobody moved it between reading it and recording it. */
  ghost predicate Captures(worlds: seq<World>, actions: seq<Action>, c: nat)
    requires IsRun(worlds, actions) && c < |actions|
  {
    actions[c].Capture? && HasRound(worlds[c]) && worlds[c].lead.head == actions[c].base
  }

  /** While the round captured by step `c` is open, others leave the Lead where it is. */
  ghost predicate LeftAlone(worlds: seq<World>, actions: seq<Action>, c: nat, k: nat)
    requires IsRun(worlds, actions) && c < k < |worlds| && HasRound(worlds[c])
  {
    forall m | c < m < k && actions[m].Outsiders? && IsOpen(worlds[m], Cur(worlds[c]).number) ::
      actions[m].newLead.head == worlds[m].lead.head
  }

  /** The Lead stands at the base, or at the one place to which the round has moved it. */
  ghost predicate LeadQuiet(w: World, base: Commit)
    requires HasRound(w)
  {
    && Captured(Cur(w)) && Cur(w).baseCommit == Some(base)
    && if MovedBy(w.leadLog, Cur(w).number) then
         && w.leadLog[|w.leadLog| - 1] == ByRound(Cur(w).number, base, base, w.lead.head) && w.lead.head != base
         && (PublishPending(Cur(w)) ==> Cur(w).intent.value.expectedHead == w.lead.head)
       else w.lead.head == base
  }

  /** The round moved the Lead at most once, and from its base. */
  ghost predicate MovedOnce(log: seq<LeadMove>, number: int, base: Commit) {
    && (forall i | 0 <= i < |log| && log[i].ByRound? && log[i].round == number :: log[i].from == log[i].base == base)
    && (forall i, j | 0 <= i < j < |log| && log[i].ByRound? && log[j].ByRound? && log[i].round == number ::
        log[j].round != number)
  }

  ghost predicate RoundLead(w: World, number: int, base: Commit) {
    && number < w.state.nextRound && MovedOnce(w.leadLog, number, base)
    && (IsOpen(w, number) ==> LeadQuiet(w, base))
  }

  lemma CaptureStartsQuiet(w: World, a: Action)
    requires Inv(w) && a.Capture? && Enabled(w, a) && w.lead.head == a.base
    ensures RoundLead(After(w, a), Cur(w).number, a.base)
  {
    CurrentHolds(w);
    forall i | 0 <= i < |w.leadLog| && w.leadLog[i].ByRound? ensures w.leadLog[i].round != Cur(w).number {
      EntryHasRoundsBase(w, i);
    }
  }

  lemma QuietStep(w: World, a: Action, number: int, base: Commit)
    requires RoundLead(w, number, base) && Enabled(w, a)
    requires a.Outsiders? && IsOpen(w, number) ==> a.newLead.head == w.lead.head
    ensures RoundLead(After(w, a), number, base)
  {
    var v := After(w, a);
    if a.ForwardLead? {
      QuietForward(w, a, number, base);
    } else {
      assert v.leadLog == w.leadLog || (a.Outsiders? && v.leadLog == w.leadLog + [ByOthers(w.lead.head, v.lead.head)]);
      assert MovedBy(v.leadLog, number) <==> MovedBy(w.leadLog, number) by {
        if MovedBy(w.leadLog, number) {
          var i :| 0 <= i < |w.leadLog| && w.leadLog[i].ByRound? && w.leadLog[i].round == number;
          assert v.leadLog[i] == w.leadLog[i];
        }
      }
      QuietElsewhere(w, a, number, base);
    }
  }

  /** Actions that do not move the Lead for this round. */
  lemma QuietElsewhere(w: World, a: Action, number: int, base: Commit)
    requires RoundLead(w, number, base) && Enabled(w, a) && !a.ForwardLead?
    requires a.Outsiders? && IsOpen(w, number) ==> a.newLead.head == w.lead.head
    requires MovedBy(After(w, a).leadLog, number) <==> MovedBy(w.leadLog, number)
    ensures RoundLead(After(w, a), number, base)
  {
    var v := After(w, a);
    if IsOpen(v, number) {
      assert IsOpen(w, number);
      if PublishPending(Cur(v)) && !PublishPending(Cur(w)) {
        assert a.BeginPublish? && !MovedBy(w.leadLog, number);
      }
    }
  }

  lemma QuietForward(w: World, a: Action, number: int, base: Commit)
    requires RoundLead(w, number, base) && a.ForwardLead? && Enabled(w, a)
    ensures RoundLead(After(w, a), number, base)
  {
    var v := After(w, a);
    if IsOpen(w, number) && v.leadLog != w.leadLog {
      assert !MovedBy(w.leadLog, number);
      assert v.leadLog[|w.leadLog|] == ByRound(number, base, base, v.lead.head);
    }
  }

  lemma {:induction false} QuietRun(worlds: seq<World>, actions: seq<Action>, c: nat, k: nat)
    requires FromStart(worlds, actions) && c < k < |worlds| && Captures(worlds, actions, c)
        && LeftAlone(worlds, actions, c, k)
    ensures RoundLead(worlds[k], Cur(worlds[c]).number, actions[c].base)
    decreases k
  {
    hide MayHappen, After, Inv, RoundLead;
    RunHolds(worlds, actions, k - 1);
    assert Steps(worlds[k - 1], actions[k - 1], worlds[k]);
    if k == c + 1 {
      CaptureStartsQuiet(worlds[c], actions[c]);
    } else {
      QuietRun(worlds, actions, c, k - 1);
      QuietStep(worlds[k - 1], actions[k - 1], Cur(worlds[c]).number, actions[c].base);
    }
  }

  /**
   If others do not move the Lead while a round is open, the round moves it at most once and from
   its recorded base, whatever others did before and do afterwards.
   */
  lemma RoundMovesLeadOnce(worlds: seq<World>, actions: seq<Action>, c: nat, k: nat)
    requires FromStart(worlds, actions) && c < k < |worlds| && Captures(worlds, actions, c)
        && LeftAlone(worlds, actions, c, k)
    ensures MovedOnce(worlds[k].leadLog, Cur(worlds[c]).number, actions[c].base)
  {
    QuietRun(worlds, actions, c, k);
  }

  /**
   What is announced to be published is never what the Lead had already: a round without new
   commits is not published.
   */
  lemma PublishedHeadIsNew(worlds: seq<World>, actions: seq<Action>, k: nat)
    requires FromStart(worlds, actions) && k < |worlds| && HasRound(worlds[k]) && PublishPending(Cur(worlds[k]))
    ensures Captured(Cur(worlds[k])) && Cur(worlds[k]).intent.value.expectedHead != Cur(worlds[k]).baseCommit.value
  {
    var w := worlds[k];
    RunHolds(worlds, actions, k);
    assert !Resurrected(w);
    CurrentHolds(w);
    var j := PendingPublishWasAnnounced(worlds, actions, k);
    assert Steps(worlds[j], actions[j], worlds[j + 1]);
    var t :| 0 <= t < |actions[j].snapshot| && actions[j].snapshot[t].integrationRound == Cur(worlds[j]).number
             && actions[j].snapshot[t].kind == CodeTask;
    assert IsAccepted(Cur(worlds[j]).accepted,
                      TaskAttemptRef(actions[j].snapshot[t].id, actions[j].snapshot[t].attempt));
    assert Cur(w).accepted != [];
    ChainContains(w.commits, Cur(w).baseCommit.value, Cur(w).accepted, Cur(w).integrationHead.value);
    assert Ancestor(w.commits, Cur(w).accepted[0].sourceCommit, Cur(w).integrationHead.value);
  }

  /**
   When recovery finds a publication announced, the Lead's head tells what happened, provided
   others left the Lead alone: it stands at the announced head exactly when the round has moved
   it there, and at the base exactly when the round has not moved it.
   */
  lemma LeadTellsWhatHappened(worlds: seq<World>, actions: seq<Action>, c: nat, k: nat)
    requires FromStart(worlds, actions) && c < k < |worlds| && Captures(worlds, actions, c)
        && LeftAlone(worlds, actions, c, k)
    requires HasRound(worlds[k]) && Cur(worlds[k]).number == Cur(worlds[c]).number && PublishPending(Cur(worlds[k]))
    ensures Captured(Cur(worlds[k])) && Cur(worlds[k]).baseCommit == Some(actions[c].base)
    ensures MovedBy(worlds[k].leadLog, Cur(worlds[k]).number) <==>
        worlds[k].lead.head == Cur(worlds[k]).intent.value.expectedHead
    ensures !MovedBy(worlds[k].leadLog, Cur(worlds[k]).number) <==> worlds[k].lead.head == actions[c].base
  {
    RunHolds(worlds, actions, k);
    QuietRun(worlds, actions, c, k);
    PublishedHeadIsNew(worlds, actions, k);
  }

  /**
   Whatever others do: a round that has moved the Lead finds it at its base again only because
   others have moved it.
   */
  lemma BackAtBaseNeedsOthers(worlds: seq<World>, actions: seq<Action>, k: nat, i: nat) returns (m: nat)
    requires FromStart(worlds, actions) && k < |worlds| && HasRound(worlds[k]) && !Resurrected(worlds[k])
    requires Cur(worlds[k]).baseCommit == Some(worlds[k].lead.head)
    requires i < |worlds[k].leadLog| && worlds[k].leadLog[i].ByRound?
        && worlds[k].leadLog[i].round == Cur(worlds[k]).number
    ensures i - 1 <= m < |worlds[k].leadLog| && worlds[k].leadLog[m].ByOthers?
  {
    var w := worlds[k];
    RunHolds(worlds, actions, k);
    EntryHasRoundsBase(w, i);
    assert MoveOk(w, i) && MoveSpent(w, i);
    if w.leadLog[i].from != w.leadLog[i].base {
      m := i - 1;
    } else {
      m :| i < m < |w.leadLog| && w.leadLog[m].ByOthers?;
    }
  }

  /** Since step `c` the Lead was moved by the open round or by others, or it still stands at the base. */
  ghost predicate SinceCapture(w: World, number: int, base: Commit, length: nat) {
    && number < w.state.nextRound && length <= |w.leadLog|
    && (|w.leadLog| == length ==> w.lead.head == base)
    && (IsOpen(w, number) ==> forall i | length <= i < |w.leadLog| && w.leadLog[i].ByRound? ::
        w.leadLog[i].round == number)
  }

  lemma SinceCaptureStep(w: World, a: Action, number: int, base: Commit, length: nat)
    requires SinceCapture(w, number, base, length) && Enabled(w, a)
    ensures SinceCapture(After(w, a), number, base, length)
  {
    var v := After(w, a);
    if IsOpen(v, number) { assert IsOpen(w, number); }
  }

  lemma SinceCaptureStart(w: World, a: Action)
    requires Inv(w) && a.Capture? && Enabled(w, a) && w.lead.head == a.base
    ensures SinceCapture(After(w, a), Cur(w).number, a.base, |w.leadLog|)
  {
    CurrentHolds(w);
  }

  lemma {:induction false} SinceCaptureRun(worlds: seq<World>, actions: seq<Action>, c: nat, k: nat)
    requires FromStart(worlds, actions) && c < k < |worlds| && Captures(worlds, actions, c)
    ensures SinceCapture(worlds[k], Cur(worlds[c]).number, actions[c].base, |worlds[c].leadLog|)
    decreases k
  {
    hide MayHappen, After, Inv, SinceCapture;
    RunHolds(worlds, actions, k - 1);
    assert Steps(worlds[k - 1], actions[k - 1], worlds[k]);
    if k == c + 1 {
      SinceCaptureStart(worlds[c], actions[c]);
    } else {
      SinceCaptureRun(worlds, actions, c, k - 1);
      SinceCaptureStep(worlds[k - 1], actions[k - 1], Cur(worlds[c]).number, actions[c].base, |worlds[c].leadLog|);
    }
  }

  /**
   Whatever others do: if the Lead stands at the announced head, its last move went there, by this
   round or by others.
   */
  lemma AtHeadWasMoved(worlds: seq<World>, actions: seq<Action>, c: nat, k: nat)
    requires FromStart(worlds, actions) && c < k < |worlds| && Captures(worlds, actions, c)
    requires HasRound(worlds[k]) && Cur(worlds[k]).number == Cur(worlds[c]).number && PublishPending(Cur(worlds[k]))
    requires worlds[k].lead.head == Cur(worlds[k]).intent.value.expectedHead
    requires Cur(worlds[k]).baseCommit == Some(actions[c].base)
    ensures |worlds[k].leadLog| > |worlds[c].leadLog|
    ensures
      var last := worlds[k].leadLog[|worlds[k].leadLog| - 1];
      last.to == worlds[k].lead.head && (last.ByOthers? || last.round == Cur(worlds[k]).number)
  {
    RunHolds(worlds, actions, k);
    SinceCaptureRun(worlds, actions, c, k);
    PublishedHeadIsNew(worlds, actions, k);
    LastMoveWentThere(worlds[k], Cur(worlds[k]).number, actions[c].base, |worlds[c].leadLog|);
  }

  lemma LastMoveWentThere(w: World, number: int, base: Commit, length: nat)
    requires Holds(w) && SinceCapture(w, number, base, length) && w.lead.head != base
    requires HasRound(w) && Cur(w).number == number && Cur(w).intent.Some?
    ensures |w.leadLog| > length
    ensures
      var last := w.leadLog[|w.leadLog| - 1];
      last.to == w.lead.head && (last.ByOthers? || last.round == number)
  {
    assert !Resurrected(w) && LogLinks(w);
  }

  // ---------------------------------------------------------------------------
  // The file
  // ---------------------------------------------------------------------------

  predicate WritesFile(a: Action) {
    IsWrite(a) || a.Assign? || a.Archive? || a.ArchiveUnneeded? || a.Resurrect?
  }

  /** How many of the first `k` actions write the file. */
  function Writes(actions: seq<Action>, k: nat): nat
    requires k <= |actions|
  {
    if k == 0 then 0 else Writes(actions, k - 1) + if WritesFile(actions[k - 1]) then 1 else 0
  }

  /**
   A state that was written satisfies the strict parser, unless an archived round was written back
   as current; the revision counts the writes.
   */
  lemma StatesAreWellFormed(worlds: seq<World>, actions: seq<Action>, k: nat)
    requires FromStart(worlds, actions) && k < |worlds|
    ensures WellFormed(worlds[k].state) <==> forall j | 0 <= j < k :: !actions[j].Resurrect?
    ensures worlds[k].state.revision == 1 + Writes(actions, k)
  {
    RunHolds(worlds, actions, k);
    ReadableUnlessResurrected(worlds[k]);
    RevisionsCountWrites(worlds, actions, k);
  }

  lemma {:induction false} RevisionsCountWrites(worlds: seq<World>, actions: seq<Action>, k: nat)
    requires FromStart(worlds, actions) && k < |worlds|
    ensures worlds[k].state.revision == 1 + Writes(actions, k)
  {
    if k > 0 {
      assert Steps(worlds[k - 1], actions[k - 1], worlds[k]);
      RevisionsCountWrites(worlds, actions, k - 1);
      RevisionCounts(worlds[k - 1], actions[k - 1]);
    }
  }

  lemma RevisionCounts(w: World, a: Action)
    requires Enabled(w, a)
    ensures After(w, a).state.revision == w.state.revision + if WritesFile(a) then 1 else 0
    ensures !WritesFile(a) ==> After(w, a).state == w.state
  {
  }
}
