/**
 When a completed code task is recorded as accepted. The integration service completes a task after
 its merge and before the record, so a crash in between must leave enough behind to catch up. It
 does, except where there was nothing to merge.
 */
module IntegrationCompletion {
  import opened Wrappers
  import opened TeamModels
  import opened TeamTasks
  import opened GitGraph
  import opened IntegrationChain
  import opened IntegrationProtocol
  import opened IntegrationSafety

  /** The round that completed tasks are looked up in: the current one, or the one just published. */
  function Newest(w: World): Option<Round> {
    if HasRound(w) then w.state.current
    else if w.state.history != [] && LastRound(w).phase == Published then Some(LastRound(w))
    else None
  }

  /** The merge of this attempt is announced. */
  predicate IsAnnounced(w: World, key: TaskAttemptRef) {
    HasRound(w) && MergePending(Cur(w)) && Cur(w).intent.value.task == Some(key)
  }

  /** The merge announced for this attempt has nothing to merge: the branch contains its commit. */
  predicate AnnouncesContained(w: World, key: TaskAttemptRef) {
    && IsAnnounced(w, key) && FullIntent(Cur(w).intent.value)
    && Ancestor(w.commits, Cur(w).intent.value.sourceCommit.value, Cur(w).intent.value.expectedHead)
  }

  /** The action announces the attempt although the branch contains its commit. */
  predicate BeginsContained(w: World, a: Action, key: TaskAttemptRef) {
    && a.BeginMerge? && a.key == key && HasRound(w) && Captured(Cur(w))
    && Ancestor(w.commits, a.source, Cur(w).integrationHead.value)
  }

  /**
   A completed attempt of the newest round is accepted, or its merge waits to be recorded, or
   nothing had to be merged.
   */
  ghost predicate KeyOk(w: World, key: TaskAttemptRef, contained: bool) {
    && (AttemptDone(w.tasks, key) ==>
          && w.tasks[key.taskId].integrationRound < w.state.nextRound
          && (Newest(w).Some? && Newest(w).value.number == w.tasks[key.taskId].integrationRound ==>
                IsAccepted(Newest(w).value.accepted, key) || (HasLanded(w) && IsAnnounced(w, key)) || contained))
    && (AnnouncesContained(w, key) ==> contained)
  }

  // ---------------------------------------------------------------------------
  // Every action
  // ---------------------------------------------------------------------------

  lemma AcceptedGoesOn(accepted: seq<Record>, r: Record, key: TaskAttemptRef)
    requires IsAccepted(accepted, key) || r.task == key
    ensures IsAccepted(accepted + [r], key)
  {
    if IsAccepted(accepted, key) {
      var i :| 0 <= i < |accepted| && accepted[i].task == key;
      assert (accepted + [r])[i].task == key;
    } else {
      assert (accepted + [r])[|accepted|] == r;
    }
  }

  /** The round is written back as `r`: what waited to be recorded still waits, or is recorded now. */
  lemma PutKeepsKey(w: World, r: Round, key: TaskAttemptRef, before: bool, after: bool)
    requires HasRound(w) && KeyOk(w, key, before) && r.number == Cur(w).number && (before ==> after)
    requires IsAccepted(Cur(w).accepted, key) ==> IsAccepted(r.accepted, key)
    requires HasLanded(w) && IsAnnounced(w, key) ==>
      IsAccepted(r.accepted, key) || (HasLanded(Put(w, r)) && IsAnnounced(Put(w, r), key))
    requires AnnouncesContained(Put(w, r), key) ==> after
    ensures KeyOk(Put(w, r), key, after)
  {
  }

  lemma AcceptKeepsKey(w: World, a: Action, key: TaskAttemptRef, contained: bool)
    requires Inv(w) && Enabled(w, a) && a.Accept? && KeyOk(w, key, contained)
    ensures KeyOk(After(w, a), key, contained)
  {
    hide Inv;
    if IsAccepted(Cur(w).accepted, key) || a.record.task == key { AcceptedGoesOn(Cur(w).accepted, a.record, key); }
    PutKeepsKey(w, After(w, a).state.current.value, key, contained, contained);
  }

  lemma BeginKeepsKey(w: World, a: Action, key: TaskAttemptRef, contained: bool)
    requires Inv(w) && Enabled(w, a) && a.BeginMerge? && KeyOk(w, key, contained)
    ensures KeyOk(After(w, a), key, contained || BeginsContained(w, a, key))
  {
    hide Inv;
    CurrentHolds(w);
    PutKeepsKey(w, After(w, a).state.current.value, key, contained, contained || BeginsContained(w, a, key));
  }

  lemma BlockKeepsKey(w: World, a: Action, key: TaskAttemptRef, contained: bool)
    requires Inv(w) && Enabled(w, a) && (a.Capture? || a.Block?) && KeyOk(w, key, contained)
    ensures KeyOk(After(w, a), key, contained)
  {
    hide Inv;
    CurrentHolds(w);
    PutKeepsKey(w, After(w, a).state.current.value, key, contained, contained);
  }

  /** No merge has landed, and none is announced afterwards. */
  lemma ClearKeepsKey(w: World, a: Action, key: TaskAttemptRef, contained: bool)
    requires Inv(w) && Enabled(w, a) && KeyOk(w, key, contained)
    requires a.ClearIntent? || a.BeginPublish? || a.MarkPublished? || a.MarkReady?
    ensures KeyOk(After(w, a), key, contained)
  {
    hide Inv;
    CurrentHolds(w);
    var r := After(w, a).state.current.value;
    assert !HasLanded(w) && !MergePending(r);
    PutKeepsKey(w, r, key, contained, contained);
  }

  lemma RetireKeepsKey(w: World, r: Round, key: TaskAttemptRef, contained: bool)
    requires HasRound(w) && KeyOk(w, key, contained) && r.number == Cur(w).number && r.accepted == Cur(w).accepted
    requires r.phase == Published ==> Cur(w).intent.None?
    ensures KeyOk(Retire(w, r), key, contained)
  {
    hide Ancestor, IsAccepted;
    assert LastRound(Retire(w, r)) == r;
  }

  lemma ArchivingKeepsKey(w: World, a: Action, key: TaskAttemptRef, contained: bool)
    requires Enabled(w, a) && (a.Archive? || a.ArchiveUnneeded?) && KeyOk(w, key, contained)
    ensures KeyOk(After(w, a), key, contained)
  {
    hide KeyOk;
    RetireKeepsKey(w, After(w, a).state.history[|w.state.history|], key, contained);
  }

  /** The integration tree, the Lead and the members change, and perhaps commits are added. */
  lemma GitKeepsKey(w: World, v: World, key: TaskAttemptRef, contained: bool)
    requires Holds(w) && KeyOk(w, key, contained) && v.state == w.state && v.tasks == w.tasks && w.commits <= v.commits
    requires HasLanded(w) ==> HasLanded(v)
    ensures KeyOk(v, key, contained)
  {
    if AnnouncesContained(v, key) {
      CurrentHolds(w);
      ContainedBefore(w, v, key);
    }
  }

  lemma TreeKeepsKey(w: World, a: Action, key: TaskAttemptRef, contained: bool)
    requires Inv(w) && Enabled(w, a) && KeyOk(w, key, contained)
    requires a.CreateTree? || a.DropTree? || a.MergeCommit? || a.MergeStops? || a.MergeFails? || a.AbortMerge?
    ensures KeyOk(After(w, a), key, contained)
  {
    CurrentHolds(w);
    InvIsReadable(w);
    hide Inv, KeyOk, Holds, OkRound, RoundOk, TasksFit, IntentOk, Ancestor;
    GitKeepsKey(w, After(w, a), key, contained);
  }

  /** New commits do not put an existing one into an existing head. */
  lemma ContainedBefore(w: World, v: World, key: TaskAttemptRef)
    requires v.state == w.state && w.commits <= v.commits && HasRound(w) && AnnouncesContained(v, key)
    requires Exists(w.commits, Cur(w).intent.value.expectedHead)
    ensures AnnouncesContained(w, key)
  {
    AncestorAppend(w.commits, v.commits, Cur(w).intent.value.sourceCommit.value, Cur(w).intent.value.expectedHead);
  }

  /** A task is completed only when its merge is there. */
  lemma CompleteKeepsKey(w: World, a: Action, key: TaskAttemptRef, contained: bool)
    requires Holds(w) && Enabled(w, a) && a.Complete? && KeyOk(w, key, contained)
    ensures KeyOk(After(w, a), key, contained)
  {
    CurrentHolds(w);
    NotItsOwnParent(w.commits, w.inner[Cur(w).number].head, Cur(w).intent.value.sourceCommit.value);
    if AttemptDone(After(w, a).tasks, key) && !AttemptDone(w.tasks, key) {
      assert key == Cur(w).intent.value.task.value;
      assert AttemptOfRound(w.tasks, key, Cur(w).number);
    }
  }

  lemma OthersKeepKey(w: World, a: Action, key: TaskAttemptRef, contained: bool)
    requires Holds(w) && Enabled(w, a) && a.Outsiders? && KeyOk(w, key, contained)
    ensures KeyOk(After(w, a), key, contained)
  {
    var v := After(w, a);
    hide Inv, KeyOk, Ancestor;
    if AttemptDone(v.tasks, key) { assert key.taskId in w.tasks && Evolves(w.tasks[key.taskId], v.tasks[key.taskId]); }
    if AnnouncesContained(v, key) { OthersAddNoAncestor(w, v, key); }
    SameRecordKeepsKey(w, v, key, contained);
  }

  lemma OthersAddNoAncestor(w: World, v: World, key: TaskAttemptRef)
    requires Holds(w) && v.state == w.state && w.commits <= v.commits && AnnouncesContained(v, key)
    ensures AnnouncesContained(w, key)
  {
    assert !Resurrected(w);
    hide Inv;
    CurrentHolds(w);
    ContainedBefore(w, v, key);
  }

  lemma NewRoundKeepsKey(w: World, a: Action, key: TaskAttemptRef, contained: bool)
    requires Enabled(w, a) && (a.Assign? || a.Resurrect?) && KeyOk(w, key, contained)
    ensures KeyOk(After(w, a), key, contained)
  {
  }

  lemma RestKeepsKey(w: World, a: Action, key: TaskAttemptRef, contained: bool)
    requires Enabled(w, a) && (a.Claim? || a.ForwardLead? || a.ForwardMember?) && KeyOk(w, key, contained)
    ensures KeyOk(After(w, a), key, contained)
  {
    hide KeyOk, Ancestor;
    SameRecordKeepsKey(w, After(w, a), key, contained);
  }

  /** The record and the integration trees are the same, and no attempt is completed. */
  lemma SameRecordKeepsKey(w: World, v: World, key: TaskAttemptRef, contained: bool)
    requires v.state == w.state && v.inner == w.inner && KeyOk(w, key, contained)
    requires AnnouncesContained(v, key) ==> AnnouncesContained(w, key)
    requires AttemptDone(v.tasks, key) ==>
      AttemptDone(w.tasks, key) && v.tasks[key.taskId].integrationRound == w.tasks[key.taskId].integrationRound
    ensures KeyOk(v, key, contained)
  {
  }

  lemma KeyStep(w: World, a: Action, key: TaskAttemptRef, contained: bool)
    requires Holds(w) && Enabled(w, a) && KeyOk(w, key, contained)
    ensures KeyOk(After(w, a), key, contained || BeginsContained(w, a, key))
  {
    hide After, Inv, MayHappen, KeyOk;
    if a.Outsiders? { OthersKeepKey(w, a, key, contained); }
    else if a.Complete? { CompleteKeepsKey(w, a, key, contained); }
    else if a.Accept? { AcceptKeepsKey(w, a, key, contained); }
    else if a.BeginMerge? { BeginKeepsKey(w, a, key, contained); }
    else if a.Capture? || a.Block? { BlockKeepsKey(w, a, key, contained); }
    else if IsWrite(a) { ClearKeepsKey(w, a, key, contained); }
    else if a.Archive? || a.ArchiveUnneeded? { ArchivingKeepsKey(w, a, key, contained); }
    else if a.Assign? || a.Resurrect? { NewRoundKeepsKey(w, a, key, contained); }
    else if a.Claim? || a.ForwardLead? || a.ForwardMember? { RestKeepsKey(w, a, key, contained); }
    else { TreeKeepsKey(w, a, key, contained); }
  }

  // ---------------------------------------------------------------------------
  // Every run
  // ---------------------------------------------------------------------------

  ghost predicate BeganContained(worlds: seq<World>, actions: seq<Action>, k: nat, key: TaskAttemptRef)
    requires IsRun(worlds, actions) && k < |worlds|
  {
    exists j :: 0 <= j < k && BeginsContained(worlds[j], actions[j], key)
  }

  lemma {:induction false} KeyRun(worlds: seq<World>, actions: seq<Action>, k: nat, key: TaskAttemptRef)
    requires FromStart(worlds, actions) && k < |worlds|
    ensures KeyOk(worlds[k], key, BeganContained(worlds, actions, k, key))
  {
    hide MayHappen, After, Inv;
    if k > 0 {
      KeyRun(worlds, actions, k - 1, key);
      RunHolds(worlds, actions, k - 1);
      assert Steps(worlds[k - 1], actions[k - 1], worlds[k]);
      KeyStep(worlds[k - 1], actions[k - 1], key, BeganContained(worlds, actions, k - 1, key));
    }
  }

  /**
   Every completed code task of the current round is accepted, or its merge has landed and is still
   announced, or its merge was begun when the branch contained its commit already.
   */
  lemma CompletedCodeIsAccounted(worlds: seq<World>, actions: seq<Action>, k: nat, key: TaskAttemptRef)
    requires FromStart(worlds, actions) && k < |worlds| && AttemptDone(worlds[k].tasks, key)
    requires HasRound(worlds[k]) && worlds[k].tasks[key.taskId].integrationRound == Cur(worlds[k]).number
    ensures
      || IsAccepted(Cur(worlds[k]).accepted, key)
      || (HasLanded(worlds[k]) && IsAnnounced(worlds[k], key))
      || BeganContained(worlds, actions, k, key)
  {
    KeyRun(worlds, actions, k, key);
  }

  /** An accepted attempt that was not started over is completed, with the accepted commit. */
  lemma AcceptedIsCompleted(worlds: seq<World>, actions: seq<Action>, k: nat, i: nat)
    requires FromStart(worlds, actions) && k < |worlds| && HasRound(worlds[k]) && !Resurrected(worlds[k])
    requires i < |Cur(worlds[k]).accepted|
    ensures AttemptSettled(worlds[k].tasks, Cur(worlds[k]).accepted[i].task, Cur(worlds[k]).accepted[i].sourceCommit)
  {
    RunHolds(worlds, actions, k);
    assert RecordFits(worlds[k].tasks, Cur(worlds[k]).accepted[i], Cur(worlds[k]).number);
  }

  // ---------------------------------------------------------------------------
  // When a crash strands a task
  // ---------------------------------------------------------------------------

  /** The attempt is completed, and nothing is left from which it could be recorded. */
  ghost predicate Stranded(w: World, number: int, key: TaskAttemptRef) {
    && HasRound(w) && Cur(w).number == number && AttemptDone(w.tasks, key)
    && w.tasks[key.taskId].integrationRound == number
    && !IsAccepted(Cur(w).accepted, key) && !IsAnnounced(w, key)
  }

  /** After `b` has announced its attempt, for the last time, some run leaves the attempt stranded. */
  ghost predicate StrandingRun(w: World, b: Action, worlds: seq<World>, actions: seq<Action>)
    requires b.BeginMerge? && HasRound(w)
  {
    && IsRun(worlds, actions) && worlds[0] == w && |actions| > 0 && actions[0] == b
    && (forall m | 0 < m < |actions| :: !(actions[m].BeginMerge? && actions[m].key == b.key))
    && Stranded(worlds[|actions|], Cur(w).number, b.key)
  }

  ghost predicate CanStrand(w: World, b: Action)
    requires b.BeginMerge? && HasRound(w)
  {
    exists worlds, actions :: StrandingRun(w, b, worlds, actions)
  }

  lemma {:induction false} KeyStaysAccounted(worlds: seq<World>, actions: seq<Action>, k: nat, key: TaskAttemptRef)
    requires IsRun(worlds, actions) && 0 < k < |worlds| && Holds(worlds[0]) && KeyOk(worlds[1], key, false)
    requires forall m | 0 < m < |actions| :: !(actions[m].BeginMerge? && actions[m].key == key)
    ensures KeyOk(worlds[k], key, false)
  {
    hide MayHappen, After, Inv;
    if k > 1 {
      KeyStaysAccounted(worlds, actions, k - 1, key);
      RunKeepsInv(worlds, actions, k - 1);
      assert Steps(worlds[k - 1], actions[k - 1], worlds[k]);
      KeyStep(worlds[k - 1], actions[k - 1], key, false);
    }
  }

  /** Announced with work to merge: from here on the attempt can only be completed with its merge in place. */
  lemma FreshWorkStartsAccounted(w: World, b: Action)
    requires Inv(w) && b.BeginMerge? && Enabled(w, b) && !Ancestor(w.commits, b.source, Cur(w).integrationHead.value)
    ensures KeyOk(After(w, b), b.key, false)
  {
  }

  /** The task is being worked on in the announced attempt. */
  predicate WorksOn(w: World, b: Action)
    requires b.BeginMerge?
  {
    b.key.taskId in w.tasks && w.tasks[b.key.taskId].attempt == b.key.attempt
      && w.tasks[b.key.taskId].status == TaskInProgress
  }

  /** With nothing to merge, the task can be completed as soon as its merge is announced. */
  lemma ContainedWorkCompletes(w: World, b: Action)
    requires Inv(w) && b.BeginMerge? && Enabled(w, b) && WorksOn(w, b)
    requires Ancestor(w.commits, b.source, Cur(w).integrationHead.value)
    ensures Inv(After(w, b)) && Enabled(After(w, b), Complete)
  {
    hide Inv;
    ActionKeepsInv(w, b);
    InvIsReadable(After(w, b));
  }

  /** After that the announcement may be dropped, and the task is stranded. */
  lemma CompletedWorkStrands(w: World, b: Action, w1: World, w2: World)
    requires Inv(w) && b.BeginMerge? && Enabled(w, b) && w1 == After(w, b)
    requires Inv(w1) && Enabled(w1, Complete) && w2 == After(w1, Complete)
    ensures Enabled(w2, ClearIntent(Active, None, b.now))
    ensures Stranded(After(w2, ClearIntent(Active, None, b.now)), Cur(w).number, b.key)
  {
    hide Inv;
    ActionKeepsInv(w1, Complete);
    InvIsReadable(w2);
  }

  /** A stop between completing the task and recording it strands the task if there was nothing to merge. */
  lemma ContainedWorkStrands(w: World, b: Action) returns (w1: World, w2: World, w3: World)
    requires Inv(w) && b.BeginMerge? && Enabled(w, b) && WorksOn(w, b)
    requires Ancestor(w.commits, b.source, Cur(w).integrationHead.value)
    ensures Steps(w, b, w1) && Steps(w1, Complete, w2) && Steps(w2, ClearIntent(Active, None, b.now), w3)
    ensures Stranded(w3, Cur(w).number, b.key)
    ensures StrandingRun(w, b, [w, w1, w2, w3], [b, Complete, ClearIntent(Active, None, b.now)])
  {
    hide Inv, After, MayHappen, Stranded;
    ContainedWorkCompletes(w, b);
    w1 := After(w, b);
    w2 := After(w1, Complete);
    CompletedWorkStrands(w, b, w1, w2);
    w3 := After(w2, ClearIntent(Active, None, b.now));
  }

  /**
   An attempt that is being merged can end up completed and forgotten exactly when its commit is in
   the branch already, which the service finds out before it merges.
   */
  lemma StrandedIffContained(w: World, b: Action)
    requires Inv(w) && b.BeginMerge? && Enabled(w, b) && WorksOn(w, b)
    ensures CanStrand(w, b) <==> Ancestor(w.commits, b.source, Cur(w).integrationHead.value)
  {
    hide Inv, After;
    if Ancestor(w.commits, b.source, Cur(w).integrationHead.value) {
      var w1, w2, w3 := ContainedWorkStrands(w, b);
    } else {
      FreshWorkStartsAccounted(w, b);
      InvIsReadable(w);
      hide Holds, KeyOk, MayHappen, Stranded;
      forall worlds, actions ensures !StrandingRun(w, b, worlds, actions) {
        if StrandingRun(w, b, worlds, actions) {
          assert Steps(worlds[0], actions[0], worlds[1]);
          KeyStaysAccounted(worlds, actions, |actions|, b.key);
        }
      }
    }
  }

  // ---------------------------------------------------------------------------
  // A stranded task stays stranded
  // ---------------------------------------------------------------------------

  lemma StrandedStep(w: World, a: Action, number: int, key: TaskAttemptRef)
    requires Stranded(w, number, key) && Enabled(w, a) && AttemptDone(After(w, a).tasks, key)
    requires HasRound(After(w, a)) && Cur(After(w, a)).number == number
    ensures Stranded(After(w, a), number, key)
  {
    var v := After(w, a);
    if a.Outsiders? { assert Evolves(w.tasks[key.taskId], v.tasks[key.taskId]); }
  }

  /** From step `j` to step `k` the attempt is done, and round `number` is open. */
  ghost predicate StaysOpen(worlds: seq<World>, j: nat, k: nat, number: int, key: TaskAttemptRef)
    requires k < |worlds|
  {
    forall m | j <= m <= k :: AttemptDone(worlds[m].tasks, key) && IsOpen(worlds[m], number)
  }

  lemma {:induction false} StrandedRun(worlds: seq<World>, actions: seq<Action>, j: nat, k: nat, number: int,
                                       key: TaskAttemptRef)
    requires IsRun(worlds, actions) && j <= k < |worlds| && Stranded(worlds[j], number, key)
    requires StaysOpen(worlds, j, k, number, key)
    ensures Stranded(worlds[k], number, key)
    decreases k
  {
    if k > j {
      StrandedRun(worlds, actions, j, k - 1, number, key);
      assert Steps(worlds[k - 1], actions[k - 1], worlds[k]);
      StrandedStep(worlds[k - 1], actions[k - 1], number, key);
    }
  }

  /**
   As long as the task is not started over and its round is open, a stranded attempt is never
   recorded, and no snapshot that shows it lets the round be published.
   */
  lemma StrandedForGood(worlds: seq<World>, actions: seq<Action>, j: nat, k: nat, number: int, key: TaskAttemptRef)
    requires FromStart(worlds, actions) && j <= k < |worlds| && Stranded(worlds[j], number, key)
    requires StaysOpen(worlds, j, k, number, key)
    ensures Stranded(worlds[k], number, key)
    ensures forall snapshot, now | ShowsAttempt(snapshot, key, number) ::
        !Enabled(worlds[k], BeginPublish(snapshot, now))
  {
    StrandedRun(worlds, actions, j, k, number, key);
    forall snapshot, now | ShowsAttempt(snapshot, key, number)
      ensures !Enabled(worlds[k], BeginPublish(snapshot, now))
    {
      NotPublishable(worlds[k], snapshot, now, key);
    }
  }

  predicate ShowsAttempt(snapshot: seq<TeamTask>, key: TaskAttemptRef, number: int) {
    exists t :: 0 <= t < |snapshot| && snapshot[t].kind == CodeTask && snapshot[t].integrationRound == number
                && snapshot[t].id == key.taskId && snapshot[t].attempt == key.attempt
  }

  lemma NotPublishable(w: World, snapshot: seq<TeamTask>, now: string, key: TaskAttemptRef)
    requires HasRound(w) && ShowsAttempt(snapshot, key, Cur(w).number) && !IsAccepted(Cur(w).accepted, key)
    ensures !Enabled(w, BeginPublish(snapshot, now))
  {
    var t :| 0 <= t < |snapshot| && snapshot[t].kind == CodeTask && snapshot[t].integrationRound == Cur(w).number
             && snapshot[t].id == key.taskId && snapshot[t].attempt == key.attempt;
    assert TaskAttemptRef(snapshot[t].id, snapshot[t].attempt) == key;
  }
}
