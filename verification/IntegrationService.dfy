/**
 `TeamIntegrationService`: the operations as sequences of protocol actions. Others may act between
 any two Git calls, Git may refuse anything, and a crash is a new service on the last world.
 */
module IntegrationService {
  import opened Wrappers
  import opened TeamModels
  import opened TeamTasks
  import opened GitGraph
  import opened IntegrationChain
  import opened IntegrationProtocol
  import opened IntegrationSafety

  /** Why an operation is refused; the texts that are persisted are never blank. */
  datatype Problem =
    | GitError | NotInRound | NoBaseline | NotCode | OtherCommitAccepted | SourceInvalid | DetachedLead | LeadBusy
      | LeadDirty
    | LeadChanged | LeaseMismatch | BaseMismatch | RoundIsBlocked | MemberNotReady | ExtraCommits | HeadMismatch
      | MergeConflict
    | MergeFailed | TaskRefused | InnerDirty | UnknownMerge | UnexpectedOperation | LeadNotAsRecorded
    | SummaryUnavailable

  datatype MergeStatus = AlreadyIntegrated | Merged | Conflicted | Failed

  datatype FinalizeStatus = Waiting | PublishedNow | NotNeededNow | BlockedNow

  /** How the worktree of a round is called. */
  datatype Layout = Layout(ownerId: int -> string, root: int -> string, branch: int -> string)

  datatype MemberRecord = MemberRecord(name: string, branch: string)

  class TeamIntegrationService {
    const now: string
    const texts: Problem -> string
    const layout: Layout
    /** The world this process started on. */
    var world: World
    /** The number of the round whose worktree this process holds. */
    var lease: Option<int>
    /** What this process has done, and what others have done meanwhile. */
    ghost var actions: seq<Action>
    /** How often the Lead was fast-forwarded. */
    ghost var forwards: nat

    /** The integration file can be read, and some run from an empty repository has led here. */
    ghost predicate Valid()
      reads this
    {
      && NotBlank(now) && (forall p :: NotBlank(texts(p)))
      && Reachable(world) && !Resurrected(world) && LeaseOk(world, lease)
    }

    /** Wherever the run has led, the invariant holds. */
    lemma Sound()
      requires Valid()
      ensures Inv(world) && WellFormed(world.state)
    {
      ReachableIsSound(world);
    }

    /** A new process starts on whatever world a run has left, as long as its file can be read. */
    constructor (w: World, clock: string, texts: Problem -> string, layout: Layout)
      requires Reachable(w) && !Resurrected(w) && NotBlank(clock) && forall p :: NotBlank(texts(p))
      ensures Valid() && world == w && actions == [] && lease == None && forwards == 0
    {
      now, this.texts, this.layout, world, lease, actions, forwards := clock, texts, layout, w, None, [], 0;
    }

    /** One protocol action. */
    method Do(a: Action)
      requires Valid() && Enabled(world, a) && !a.Resurrect? && (a.DropTree? ==> lease != Some(a.number))
      modifies this`world, this`actions, this`forwards
      ensures Valid() && world == After(old(world), a) && actions == old(actions) + [a]
      ensures forwards == old(forwards) + if a == ForwardLead then 1 else 0
    {
      StepIsSound(world, a, lease);
      world := After(world, a);
      actions, forwards := actions + [a], forwards + if a == ForwardLead then 1 else 0;
    }

    /** Others change the Lead, the members' trees and the tasks, or write down a claim that was prepared for them. */
    method LetOthersAct()
      requires Valid()
      modifies this`world, this`actions, this`forwards
      ensures Valid() && OthersActed(old(world), world) && TasksKept(old(world.tasks), world.tasks)
      ensures NothingCompleted(old(world.tasks), world.tasks)
      ensures forwards == old(forwards)
    {
      var a: Action := *;
      if a.Outsiders? && OutsidersMay(world, a) {
        OutsidersOnly(world, a);
        Do(a);
      } else if a.Claim? && ClaimMay(world, a.taskId, a.start) {
        ClaimOnly(world, a);
        Do(a);
      }
    }

    // -------------------------------------------------------------------------
    // Worktrees
    // -------------------------------------------------------------------------

    /**
     `WorktreeManager.acquire`: an existing tree must have been made for the same base; it may fail
     for other reasons.
     */
    method Acquire(base: Commit) returns (acquired: bool)
      requires Valid() && HasRound(world) && Exists(world.commits, base)
      requires Cur(world).baseCommit.None? || Cur(world).baseCommit == Some(base)
      modifies this`world, this`actions, this`forwards
      ensures Valid() && OnlyInner(old(world), world)
      ensures acquired ==> Cur(world).number in world.inner && world.inner[Cur(world).number].base == base
      ensures Cur(world).number in old(world.inner) ==> world == old(world)
      ensures forwards == old(forwards)
    {
      var n := Cur(world).number;
      var fails: bool := *;
      if n in world.inner { return !fails && world.inner[n].base == base; }
      if fails { return false; }
      Do(CreateTree(n, base));
      return true;
    }

    /** `WorktreeManager.finish`: the tree of a failed capture is dropped, or retained when it is not clean. */
    method Finish()
      requires Valid() && HasRound(world) && Cur(world).number in world.inner && Cur(world).baseCommit.None?
          && lease != Some(Cur(world).number)
      modifies this`world, this`actions, this`forwards
      ensures Valid() && OnlyInner(old(world), world)
      ensures forwards == old(forwards)
    {
      var retained: bool := *;
      if !retained { Do(DropTree(Cur(world).number)); }
    }

    /** `_integration_lease` */
    method IntegrationLease() returns (r: Result<InnerTree, Problem>)
      requires Valid() && HasRound(world)
      modifies this`world, this`actions, this`forwards, this`lease
      ensures Valid() && OnlyInner(old(world), world)
      ensures r.Ok? ==>
          Captured(Cur(world)) && Cur(world).number in world.inner
          && r.value == world.inner[Cur(world).number]
      ensures r.Ok? ==> lease == Some(Cur(world).number)
      ensures Cur(world).number in old(world.inner) ==> world == old(world)
      ensures forwards == old(forwards)
    {
      var r0 := Cur(world);
      Sound();
      CurrentHolds(world);
      if lease.Some? {
        if lease.value != r0.number { return Err(LeaseMismatch); }
        return Ok(world.inner[r0.number]);
      }
      if r0.integrationOwnerId.None? || r0.baseCommit.None? { return Err(LeaseMismatch); }
      Sound();
      BaseExists(world);
      var acquired := Acquire(r0.baseCommit.value);
      if !acquired { return Err(GitError); }
      lease := Some(r0.number);
      return Ok(world.inner[r0.number]);
    }

    // -------------------------------------------------------------------------
    // Rounds
    // -------------------------------------------------------------------------

    /** `assign_round` */
    method AssignRound() returns (number: int)
      requires Valid()
      modifies this`world, this`actions, this`forwards
      ensures Valid() && HasRound(world) && number == Cur(world).number
      ensures HasRound(old(world)) ==> world == old(world)
      ensures !HasRound(old(world)) ==> world == After(old(world), Assign(now)) && number == old(world.state.nextRound)
    {
      if HasRound(world) { return Cur(world).number; }
      Do(Assign(now));
      return Cur(world).number;
    }

    /** The Lead as a round would record it: on a branch, idle and clean. */
    method ReadLead() returns (r: Result<Tree, Problem>)
      requires Valid()
      modifies this`world, this`actions, this`forwards
      ensures Valid() && OthersActed(old(world), world) && forwards == old(forwards)
      ensures r.Ok? ==>
          r.value == world.lead && r.value.branch.Some? && r.value.operation == NoOperation
          && r.value.clean
      ensures Exists(world.commits, world.lead.head)
    {
      LetOthersAct();
      Sound();
      if world.lead.branch.None? { return Err(DetachedLead); }
      if world.lead.operation != NoOperation { return Err(LeadBusy); }
      if !world.lead.clean { return Err(LeadDirty); }
      return Ok(world.lead);
    }

    /** `_capture_target`: the Lead must stand on a branch, idle and clean, and still be there when the tree is made. */
    method CaptureTarget() returns (r: Result<(), Problem>)
      requires Valid() && HasRound(world) && Cur(world).baseCommit.None?
      modifies this`world, this`actions, this`forwards, this`lease
      ensures Valid() && HasRound(world) && Cur(world).number == Cur(old(world)).number && forwards == old(forwards)
      ensures r.Err? ==> world.state == old(world.state)
      ensures r.Ok? ==>
          Captured(Cur(world)) && Cur(world).integrationHead == Cur(world).baseCommit ==
          Some(world.lead.head)
      ensures r.Ok? ==>
          Cur(world).targetBranch == world.lead.branch && Cur(world).accepted == []
          && lease == Some(Cur(world).number)
    {
      Sound();
      CurrentHolds(world);
      var lead :- ReadLead();
      var acquired := Acquire(lead.head);
      if !acquired { return Err(GitError); }
      LetOthersAct();
      if world.lead.branch != lead.branch || world.lead.head != lead.head || !world.lead.clean {
        Finish();
        return Err(LeadChanged);
      }
      var n := Cur(world).number;
      Sound();
      CurrentHolds(world);
      Do(Capture(lead.branch.value, lead.head, layout.ownerId(n), layout.root(n), layout.branch(n), now));
      lease := Some(n);
      return Ok(());
    }

    // -------------------------------------------------------------------------
    // Claiming a code task
    // -------------------------------------------------------------------------

    /** `_validate_member_worktree` */
    predicate MemberReady(member: MemberRecord)
      reads this
    {
      && member.name in world.members && world.members[member.name].branch == Some(member.branch)
      && world.members[member.name].operation == NoOperation && world.members[member.name].clean
    }

    /** Brings a member without commits of its own to the round's head; refuses any other member. */
    method SyncMember(member: MemberRecord, target: Commit) returns (r: Result<(), Problem>)
      requires Valid() && Exists(world.commits, target)
      modifies this`world, this`actions, this`forwards
      ensures Valid() && forwards == old(forwards) && OthersActed(old(world), world)
      ensures r.Ok? ==> member.name in world.members && world.members[member.name].head == target
    {
      LetOthersAct();
      if !MemberReady(member) { return Err(MemberNotReady); }
      var head := world.members[member.name].head;
      if !Ancestor(world.commits, head, target) { return Err(ExtraCommits); }
      if head != target {
        var fails: bool := *;
        if fails { return Err(GitError); }
        Do(ForwardMember(member.name, target));
      }
      return Ok(());
    }

    /** `prepare_code_claim`: the first claim of a round captures the Lead; every claim starts from the round's head. */
    method PrepareCodeClaim(member: MemberRecord, task: TeamTask) returns (r: Result<Commit, Problem>)
      requires Valid()
      modifies this`world, this`actions, this`forwards, this`lease
      ensures Valid() && forwards == old(forwards)
      ensures r.Ok? ==> HasRound(world) && Cur(world).number == task.integrationRound && Captured(Cur(world))
      ensures r.Ok? ==> Cur(world).integrationHead == Some(r.value)
      ensures r.Ok? ==> member.name in world.members && world.members[member.name].head == r.value
      ensures r.Ok? ==> !(Cur(world).phase == Blocked && Cur(world).failure.Some?)
      ensures HasRound(old(world)) && Captured(Cur(old(world))) ==> world.state == old(world.state)
    {
      if !HasRound(world) || Cur(world).number != task.integrationRound { return Err(NotInRound); }
      Sound();
      CurrentHolds(world);
      if Cur(world).targetBranch.None? {
        var _ :- CaptureTarget();
        Sound();
        CurrentHolds(world);
      }
      if Cur(world).failure.Some? && Cur(world).phase == Blocked { return Err(RoundIsBlocked); }
      Sound();
      BaseExists(world);
      var target := Cur(world).integrationHead.value;
      var _ :- SyncMember(member, target);
      return Ok(target);
    }

    /** `TaskService.claim` of a code task: prepared under the integration lock, written down afterwards. */
    method ClaimCode(member: MemberRecord, id: string, approval: bool) returns (r: Result<Commit, Problem>)
      requires Valid()
      modifies this`world, this`actions, this`forwards, this`lease
      ensures Valid() && forwards == old(forwards)
      ensures r.Ok? ==> HasRound(world) && Captured(Cur(world)) && Cur(world).integrationHead == Some(r.value)
      ensures r.Ok? ==>
          id in world.tasks && world.tasks[id].startCommit == Some(r.value)
          && world.tasks[id].assignee == Some(member.name)
      ensures r.Ok? ==> world.tasks[id].status == (if approval then TaskAwaitingApproval else TaskInProgress)
      ensures r.Ok? ==> world.tasks[id].integrationRound == Cur(world).number
    {
      if id !in world.tasks || world.tasks[id].kind != CodeTask { return Err(TaskRefused); }
      var task := world.tasks[id];
      var target :- PrepareCodeClaim(member, task);
      LetOthersAct();
      Sound();
      HeadHasBase(world);
      if !ClaimMay(world, id, target) { return Err(TaskRefused); }
      Do(Claim(id, member.name, target, approval));
      return Ok(target);
    }

    // -------------------------------------------------------------------------
    // Integrating a code task
    // -------------------------------------------------------------------------

    /** `_block`: the round is blocked with a reason; its intent stays. */
    method BlockRound(stage: FailureStage, problem: Problem, key: Option<TaskAttemptRef>)
      requires Valid() && HasRound(world) && Captured(Cur(world)) && (key.Some? ==> OkTask(key.value))
      modifies this`world, this`actions, this`forwards
      ensures Valid() && forwards == old(forwards)
      ensures world == Put(old(world),
                           Cur(old(world)).(phase := Blocked, failure := Some(Why(texts, now, stage, problem, key)),
                                            updatedAt := now))
    {
      Do(Block(Why(texts, now, stage, problem, key), now));
    }

    /**
     `_validate_task_source`: the result is the head of the assigned member's clean branch, past
     the commit the claim started from.
     */
    predicate SourceValid(member: MemberRecord, task: TeamTask, source: Commit)
      reads this
      requires HasRound(world)
    {
      && task.kind == CodeTask && task.assignee == Some(member.name)
      && task.integrationRound == Cur(world).number && task.status == TaskInProgress
      && MemberReady(member) && world.members[member.name].head == source
      && task.startCommit.Some? && source != task.startCommit.value
      && Ancestor(world.commits, task.startCommit.value, source)
    }

    /** `merge_no_ff`, as Git may end it. */
    method MergeNoFf() returns (r: Result<MergeStatus, Problem>)
      requires Valid() && HasRound(world) && Captured(Cur(world)) && MergePending(Cur(world))
          && FullIntent(Cur(world).intent.value)
      requires Cur(world).number in world.inner && world.inner[Cur(world).number].head ==
          Cur(world).intent.value.expectedHead
      modifies this`world, this`actions, this`forwards
      ensures Valid() && forwards == old(forwards)
          && world == old(world).(inner := world.inner, commits := world.commits)
      ensures Cur(world).number in world.inner
      ensures r.Err? ==> world == old(world)
      ensures MergeEnds(world, r)
    {
      var n := Cur(world).number;
      var source := Cur(world).intent.value.sourceCommit.value;
      var tree := world.inner[n];
      if tree.operation != NoOperation || !tree.clean { return Err(InnerDirty); }
      if Ancestor(world.commits, source, tree.head) { return Ok(AlreadyIntegrated); }
      var commits: bool, clean: bool, conflicts: bool := *, *, *;
      if commits {
        Do(MergeCommit(clean));
        return Ok(if clean then Merged else Failed);
      }
      if !conflicts {
        Do(MergeFails(clean));
        return Ok(Failed);
      }
      var aborted := StopMerge();
      return Ok(if aborted then Conflicted else Failed);
    }

    /** The merge stops at a conflict, and is aborted if that works. */
    method StopMerge() returns (aborted: bool)
      requires Valid() && MergeRuns(world)
      modifies this`world, this`actions, this`forwards
      ensures Valid() && forwards == old(forwards) && world == old(world).(inner := world.inner)
      ensures Cur(world).number in world.inner && world.inner[Cur(world).number].head ==
          old(world).inner[Cur(world).number].head
    {
      Do(MergeStops);
      aborted := *;
      if aborted { Do(AbortMerge); }
    }

    /**
     `complete_task`, once the merge is there: a task that is already completed with the same
     commit is accepted as it is.
     */
    method CompleteTask(key: TaskAttemptRef, source: Commit) returns (r: Result<(), Problem>)
      requires Valid() && MergeDone(world) && Cur(world).intent.value.task == Some(key)
          && Cur(world).intent.value.sourceCommit == Some(source)
      modifies this`world, this`actions, this`forwards
      ensures Valid() && forwards == old(forwards) && world == old(world).(tasks := world.tasks)
      ensures r.Ok? ==> CompletedAs(world.tasks, key.taskId, source) && AttemptSettled(world.tasks, key, source)
    {
      Sound();
      CurrentHolds(world);
      var fails: bool := *;
      if fails || key.taskId !in world.tasks { return Err(TaskRefused); }
      if world.tasks[key.taskId].status == TaskCompleted {
        if world.tasks[key.taskId].commit != Some(source) { return Err(TaskRefused); }
        return Ok(());
      }
      if Terminal(world.tasks[key.taskId].status) { return Err(TaskRefused); }
      // A member makes one call at a time, so it has not claimed its task anew meanwhile.
      if world.tasks[key.taskId].attempt != key.attempt { return Err(TaskRefused); }
      Do(Complete);
      var failsLater: bool := *;
      if failsLater { return Err(TaskRefused); }
      return Ok(());
    }

    /** `complete_task` of an attempt that is accepted: there is nothing left to complete. */
    method ConfirmCompleted(key: TaskAttemptRef, source: Commit) returns (r: Result<(), Problem>)
      ensures r.Ok? ==> CompletedAs(world.tasks, key.taskId, source)
    {
      var fails: bool := *;
      if fails || !CompletedAs(world.tasks, key.taskId, source) { return Err(TaskRefused); }
      return Ok(());
    }

    /** `TaskService.complete` of a code task: a completed task is left alone, any other one is integrated. */
    method CompleteCode(member: MemberRecord, id: string, commit: Option<Commit>, text: string)
        returns (r: Result<(), Problem>)
      requires Valid() && NotBlank(id) && NotBlank(member.name) && NotBlank(member.branch)
      modifies this`world, this`actions, this`forwards, this`lease
      ensures Valid() && forwards == old(forwards)
      ensures id in old(world.tasks) && old(world.tasks[id]).status == TaskCompleted ==> world == old(world)
      ensures id in old(world.tasks) && old(world.tasks[id]).kind == CodeTask ==>
          var key := TaskAttemptRef(id, old(world.tasks[id]).attempt);
          && (r.Ok? && old(world.tasks[id]).status != TaskCompleted ==>
                HasRound(world) && IsAccepted(Cur(world).accepted, key) && commit.Some?
                  && CompletedAs(world.tasks, id, commit.value))
          && (r.Err? ==> FailedCleanly(old(world), world, key))
    {
      if id !in world.tasks || world.tasks[id].kind != CodeTask { return Err(NotCode); }
      var task := world.tasks[id];
      if task.status == TaskCompleted {
        if commit.Some? && commit != task.commit { return Err(TaskRefused); }
        return Ok(());
      }
      var key := TaskAttemptRef(id, task.attempt);
      if task.attempt < 1 { return Err(TaskRefused); }
      ghost var before := world;
      Sound();
      ReadingIsSound(world, id);
      LetOthersAct();
      ReadEarlierStays(before, world, key, task);
      r := IntegrateCodeTask(member, key, task, commit, text);
    }

    /** `integrate_code_task`; the task was read before the integration lock was taken. */
    method IntegrateCodeTask(member: MemberRecord, key: TaskAttemptRef, task: TeamTask, commit: Option<Commit>,
                             text: string)
        returns (r: Result<(), Problem>)
      requires Valid() && OkTask(key) && key.attempt == task.attempt && NotBlank(member.name) && NotBlank(member.branch)
      requires ReadEarlier(world, key, task)
      modifies this`world, this`actions, this`forwards, this`lease
      ensures Valid() && forwards == old(forwards)
      ensures r.Ok? ==>
          HasRound(world) && HasRound(old(world))
          && Cur(world).number == Cur(old(world)).number == task.integrationRound
      ensures r.Ok? ==> commit.Some? && CompletedAs(world.tasks, key.taskId, commit.value)
      ensures r.Ok? ==> IsAccepted(Cur(world).accepted, key)
      ensures r.Ok? && IsAccepted(Cur(old(world)).accepted, key) ==> world.state == old(world.state)
      ensures r.Ok? && !IsAccepted(Cur(old(world)).accepted, key) ==> Integrated(old(world), world, key, commit.value)
      ensures r.Err? ==> FailedCleanly(old(world), world, key)
    {
      if commit.None? { return Err(NotCode); }
      if !HasRound(world) || Cur(world).number != task.integrationRound { return Err(NotInRound); }
      Sound();
      CurrentHolds(world);
      if !Captured(Cur(world)) { return Err(NoBaseline); }
      if IsAccepted(Cur(world).accepted, key) {
        var k :| 0 <= k < |Cur(world).accepted| && Cur(world).accepted[k].task == key;
        if Cur(world).accepted[k].sourceCommit != commit.value { return Err(OtherCommitAccepted); }
        r := ConfirmCompleted(key, commit.value);
        return;
      }
      r := IntegrateNew(member, task, key, commit.value, text);
      if r.Ok? { IntegratedIsAccepted(old(world), world, key, commit.value); }
    }

    /** The part of `integrate_code_task` that merges an attempt not accepted so far. */
    method IntegrateNew(member: MemberRecord, task: TeamTask, key: TaskAttemptRef, source: Commit, text: string)
        returns (r: Result<(), Problem>)
      requires Valid() && HasRound(world) && Captured(Cur(world)) && !IsAccepted(Cur(world).accepted, key)
      requires key.attempt == task.attempt && OkTask(key) && NotBlank(member.name) && NotBlank(member.branch)
          && ReadEarlier(world, key, task)
      modifies this`world, this`actions, this`forwards, this`lease
      ensures Valid() && forwards == old(forwards)
      ensures r.Ok? ==>
          HasRound(world) && CompletedAs(world.tasks, key.taskId, source)
          && Integrated(old(world), world, key, source)
      ensures r.Err? ==> FailedCleanly(old(world), world, key)
    {
      if !SourceValid(member, task, source) { return Err(SourceInvalid); }
      Sound();
      MembersExist(world, member.name);
      var tree :- IntegrationLease();
      if Some(tree.head) != Cur(world).integrationHead {
        BlockRound(RecoveryStage, HeadMismatch, None);
        return Err(HeadMismatch);
      }
      r := AnnounceAndMerge(key, member, task.startCommit.value, source, text);
    }

    /** The merge intent is written, and then the merge is made. */
    method AnnounceAndMerge(key: TaskAttemptRef, member: MemberRecord, start: Commit, source: Commit, text: string)
        returns (r: Result<(), Problem>)
      requires Valid() && Enabled(world, BeginMerge(key, member.name, member.branch, start, source, text, now))
      modifies this`world, this`actions, this`forwards
      ensures Valid() && forwards == old(forwards)
      ensures r.Ok? ==>
          HasRound(world) && CompletedAs(world.tasks, key.taskId, source)
          && Integrated(old(world), world, key, source)
      ensures r.Err? ==> FailedCleanly(old(world), world, key)
    {
      Do(BeginMerge(key, member.name, member.branch, start, source, text, now));
      r := MergeAnnounced(key, member, source);
    }

    /** The merge is announced; it is made, and what comes of it is written down. */
    method MergeAnnounced(key: TaskAttemptRef, member: MemberRecord, source: Commit) returns (r: Result<(), Problem>)
      requires Valid() && HasRound(world) && Captured(Cur(world)) && MergePending(Cur(world))
          && FullIntent(Cur(world).intent.value)
      requires Cur(world).number in world.inner && world.inner[Cur(world).number].head ==
          Cur(world).intent.value.expectedHead
      requires Cur(world).intent.value.task == Some(key) && Cur(world).intent.value.sourceCommit == Some(source)
          && !AttemptDone(world.tasks, key)
      requires Cur(world).intent.value.memberName == Some(member.name)
          && Cur(world).intent.value.sourceBranch == Some(member.branch)
      requires OkTask(key) && NotBlank(member.name) && NotBlank(member.branch)
      modifies this`world, this`actions, this`forwards
      ensures Valid() && forwards == old(forwards)
      ensures r.Ok? ==>
          HasRound(world) && CompletedAs(world.tasks, key.taskId, source)
          && Integrated(old(world), world, key, source)
      ensures r.Err? ==> FailedCleanly(old(world), world, key)
    {
      LetOthersAct();
      var outcome :- MergeNoFf();
      match outcome
      case Conflicted =>
        Do(ClearIntent(Blocked, Some(Why(texts, now, MergeStage, MergeConflict, Some(key))), now));
        return Err(MergeConflict);
      case Failed =>
        BlockRound(MergeStage, MergeFailed, Some(key));
        return Err(MergeFailed);
      case _ =>
        r := RecordMerge(key, member, source);
    }

    /** Completes the task and appends the record of the merge that the intent announced. */
    method RecordMerge(key: TaskAttemptRef, member: MemberRecord, source: Commit) returns (r: Result<(), Problem>)
      requires Valid() && HasRound(world) && Captured(Cur(world)) && MergePending(Cur(world))
          && FullIntent(Cur(world).intent.value)
      requires Cur(world).number in world.inner
      requires MergeEnds(world, Ok(AlreadyIntegrated)) || MergeEnds(world, Ok(Merged))
      requires Cur(world).intent.value.task == Some(key) && Cur(world).intent.value.sourceCommit == Some(source)
      requires Cur(world).intent.value.memberName == Some(member.name)
          && Cur(world).intent.value.sourceBranch == Some(member.branch)
      requires OkTask(key) && NotBlank(member.name) && NotBlank(member.branch)
      modifies this`world, this`actions, this`forwards
      ensures Valid() && forwards == old(forwards) && HasRound(world)
      ensures r.Ok? ==> CompletedAs(world.tasks, key.taskId, source) && Integrated(old(world), world, key, source)
      ensures r.Err? ==> world == old(world).(tasks := world.tasks) && MergeDone(world)
    {
      var completed := CompleteTask(key, source);
      if completed.Err? { return Err(TaskRefused); }
      var record := IntegratedTaskRecord(key, member.name, member.branch, source, Cur(world).intent.value.expectedHead,
                                         world.inner[Cur(world).number].head, now);
      Sound();
      MayAccept(world, record, now);
      Do(Accept(record, now));
      return Ok(());
    }

    // -------------------------------------------------------------------------
    // Recovery
    // -------------------------------------------------------------------------

    /** `complete_recovered` */
    method CompleteRecovered(key: TaskAttemptRef, source: Commit) returns (r: Result<(), Problem>)
      requires Valid() && MergeDone(world) && Cur(world).intent.value.task == Some(key)
          && Cur(world).intent.value.sourceCommit == Some(source)
      modifies this`world, this`actions, this`forwards
      ensures Valid() && forwards == old(forwards) && world == old(world).(tasks := world.tasks)
      ensures r.Ok? ==> CompletedAs(world.tasks, key.taskId, source) && AttemptSettled(world.tasks, key, source)
    {
      if key.taskId !in world.tasks || world.tasks[key.taskId].attempt != key.attempt { return Err(TaskRefused); }
      var task := world.tasks[key.taskId];
      if task.status != TaskCompleted && (task.status != TaskInProgress || task.assignee.None?) {
        return Err(TaskRefused);
      }
      r := CompleteTask(key, source);
    }

    /** The announced merge did not happen: a half-done one is aborted, and the intent is dropped. */
    method DropMergeIntent() returns (r: Result<(), Problem>)
      requires Valid() && HasRound(world) && Captured(Cur(world)) && MergePending(Cur(world))
          && Cur(world).number in world.inner
      requires world.inner[Cur(world).number].head == Cur(world).intent.value.expectedHead
      modifies this`world, this`actions, this`forwards
      ensures Valid() && forwards == old(forwards) && HasRound(world) && Captured(Cur(world))
      ensures r.Ok? ==> Cur(world).intent.None? && Cur(world).number == Cur(old(world)).number
      ensures r.Ok? ==>
          Cur(world).accepted == Cur(old(world)).accepted
          && Cur(world).integrationHead == Cur(old(world)).integrationHead
      ensures r.Err? ==> world.state == old(world.state)
    {
      match world.inner[Cur(world).number].operation
      case Merging =>
        var fails: bool := *;
        if fails { return Err(GitError); }
        var failure := Why(texts, now, MergeStage, MergeConflict, None);
        AbortedIsCleared(world, failure, now);
        Do(AbortMerge);
        Do(ClearIntent(Blocked, Some(failure), now));
        return Ok(());
      case NoOperation =>
        Do(ClearIntent(Active, None, now));
        return Ok(());
      case OtherOperation =>
        return Err(UnexpectedOperation);
    }

    /**
     `_recover_merge`: Git decides. At the expected head the merge did not happen and the intent is
     dropped; otherwise it did happen, and the task is completed and the record appended.
     */
    method RecoverMerge() returns (r: Result<(), Problem>)
      requires Valid() && HasRound(world) && Captured(Cur(world)) && MergePending(Cur(world))
          && Cur(world).number in world.inner
      modifies this`world, this`actions, this`forwards
      ensures Valid() && forwards == old(forwards) && HasRound(world) && Captured(Cur(world))
      ensures r.Ok? ==> MergeResolved(old(world), world)
      ensures r.Err? ==> world.state == old(world.state)
    {
      Sound();
      CurrentHolds(world);
      var intent, tree := Cur(world).intent.value, world.inner[Cur(world).number];
      var key, source := intent.task.value, intent.sourceCommit.value;
      if tree.head == intent.expectedHead {
        r := DropMergeIntent();
        return;
      }
      if world.commits[tree.head] != [intent.expectedHead, source] {
        // Nothing but the announced merge can have moved the branch.
        assert false;
      }
      var completed := CompleteRecovered(key, source);
      if completed.Err? { return Err(TaskRefused); }
      if IsAccepted(Cur(world).accepted, key) {
        // A pending attempt is never accepted already.
        assert false;
      }
      Sound();
      CurrentIsOk(world.state);
      Do(Accept(IntegratedTaskRecord(key, intent.memberName.value, intent.sourceBranch.value, source,
                                     intent.expectedHead, tree.head, now), now));
      return Ok(());
    }

    /** The Lead is where the round's record says: on its target branch, idle and clean, at `head`. */
    predicate LeadIsAt(head: Option<Commit>)
      reads this
      requires HasRound(world)
    {
      && world.lead.branch == Cur(world).targetBranch && Some(world.lead.head) == head
      && world.lead.clean && world.lead.operation == NoOperation
    }

    /** `_recover_publish`: the Lead decides. At the base nothing was published; at the expected head it was. */
    method RecoverPublish() returns (r: Result<(), Problem>, ghost seen: Commit)
      requires Valid() && HasRound(world) && Captured(Cur(world)) && PublishPending(Cur(world))
      modifies this`world, this`actions, this`forwards
      ensures Valid() && forwards == old(forwards) && HasRound(world) && Captured(Cur(world))
      ensures world.inner == old(world.inner) && seen == world.lead.head
          && OthersActed(old(world), world.(state := old(world.state)))
      ensures r.Ok? <==>
          && world.lead.branch == Cur(old(world)).targetBranch && world.lead.clean
          && (seen == Cur(old(world)).baseCommit.value || seen == Cur(old(world)).intent.value.expectedHead)
      ensures r.Ok? ==> PublishResolved(Cur(old(world)), Cur(world), seen)
      ensures world.state.history == old(world.state.history)
      ensures r.Err? ==> world.state == old(world.state)
    {
      LetOthersAct();
      Sound();
      CurrentHolds(world);
      var head := world.lead.head;
      seen := head;
      if world.lead.branch != Cur(world).targetBranch || !world.lead.clean { return Err(LeadNotAsRecorded), seen; }
      if Some(head) == Cur(world).baseCommit {
        Do(MarkReady(now));
      } else if head == Cur(world).intent.value.expectedHead {
        Do(MarkPublished(now));
      } else {
        return Err(LeadNotAsRecorded), seen;
      }
      return Ok(()), seen;
    }

    /** `_sync_members`: idle members that can be fast-forwarded are, the others are left alone. */
    method SyncMembers(idle: seq<MemberRecord>, target: Commit)
      requires Valid() && Exists(world.commits, target)
      modifies this`world, this`actions, this`forwards
      ensures Valid() && forwards == old(forwards) && OthersActed(old(world), world)
    {
      for k := 0 to |idle|
        invariant Valid() && forwards == old(forwards) && OthersActed(old(world), world)
      {
        var synced := SyncMember(idle[k], target);
      }
    }

    /** `delete_merged`: the published tree is removed, unless it is not clean or Git refuses. */
    method DeleteMerged() returns (cleaned: bool)
      requires Valid() && HasRound(world) && Captured(Cur(world)) && Cur(world).phase == Published
          && Cur(world).intent.None?
      requires Cur(world).number in world.inner
      modifies this`world, this`actions, this`forwards, this`lease
      ensures Valid() && forwards == old(forwards) && OnlyInner(old(world), world)
    {
      var n := Cur(world).number;
      var tree := world.inner[n];
      var fails: bool := *;
      lease := None;
      if fails || !tree.clean || tree.operation != NoOperation { return false; }
      if !Ancestor(world.commits, tree.head, Cur(world).integrationHead.value) { return false; }
      Do(DropTree(n));
      return true;
    }

    /** Cleans up behind a published round and moves it to the history. */
    method ArchivePublished(idle: seq<MemberRecord>)
      requires Valid() && HasRound(world) && Captured(Cur(world)) && Cur(world).phase == Published
          && Cur(world).intent.None?
      requires Cur(world).number in world.inner
      modifies this`world, this`actions, this`forwards, this`lease
      ensures Valid() && forwards == old(forwards) && Archived(old(world), world)
    {
      Sound();
      CurrentHolds(world);
      SyncMembers(idle, Cur(world).integrationHead.value);
      var cleaned := DeleteMerged();
      var failure := if cleaned then None else Some(Why(texts, now, CleanupStage, GitError, None));
      PublishedIsArchived(old(world), world, failure, now);
      Do(Archive(failure, now));
    }

    /** `_archive_recovered_publish` */
    method ArchiveRecoveredPublish(idle: seq<MemberRecord>) returns (r: Result<(), Problem>)
      requires Valid() && HasRound(world) && Captured(Cur(world)) && Cur(world).phase == Published
          && Cur(world).intent.None?
      requires Cur(world).number in world.inner
      modifies this`world, this`actions, this`forwards, this`lease
      ensures Valid() && forwards == old(forwards)
      ensures r.Ok? ==> Archived(old(world), world)
      ensures r.Err? ==> world.state == old(world.state)
    {
      LetOthersAct();
      if !LeadIsAt(Cur(world).integrationHead) { return Err(LeadNotAsRecorded); }
      ArchivePublished(idle);
      return Ok(());
    }

    /** Nothing is pending: Git must be as recorded, and a published round is archived. */
    method RecoverIdle(tree: InnerTree, idle: seq<MemberRecord>) returns (r: Result<(), Problem>)
      requires Valid() && HasRound(world) && Captured(Cur(world)) && Cur(world).intent.None?
      requires Cur(world).number in world.inner && tree == world.inner[Cur(world).number]
      modifies this`world, this`actions, this`forwards, this`lease
      ensures Valid() && forwards == old(forwards)
      ensures r.Ok? && Cur(old(world)).phase == Published ==> Archived(old(world), world)
      ensures r.Err? || Cur(old(world)).phase != Published ==> world.state == old(world.state)
    {
      if Some(tree.head) != Cur(world).integrationHead || tree.operation != NoOperation { return Err(HeadMismatch); }
      if Cur(world).phase != Published { return Ok(()); }
      r := ArchiveRecoveredPublish(idle);
    }

    /** A publication was announced: the Lead shows whether it happened, and a published round is archived. */
    method RecoverAnnounced(idle: seq<MemberRecord>) returns (r: Result<(), Problem>, ghost seen: Commit)
      requires Valid() && HasRound(world) && Captured(Cur(world)) && PublishPending(Cur(world))
          && Cur(world).number in world.inner
      modifies this`world, this`actions, this`forwards, this`lease
      ensures Valid() && forwards == old(forwards)
      ensures r.Ok? && seen == Cur(old(world)).baseCommit.value ==>
          HasRound(world) && Cur(world).phase == Ready && Cur(world).intent.None?
            && SameWork(Cur(old(world)), Cur(world))
      ensures r.Ok? && seen != Cur(old(world)).baseCommit.value ==>
          seen == Cur(old(world)).intent.value.expectedHead && Archived(old(world), world)
      ensures if HasRound(world) then Captured(Cur(world)) else ArchivedLast(world)
      ensures r.Err? ==> HasRound(world) && SameWork(Cur(old(world)), Cur(world))
    {
      Sound();
      CurrentHolds(world);
      r, seen := RecoverPublish();
      if r.Ok? && Cur(world).phase == Published { r := ArchiveRecoveredPublish(idle); }
      Sound();
      if HasRound(world) { CurrentHolds(world); }
    }

    /** The recovery of a captured round, up to the point where an error would be recorded. */
    method RecoverRound(idle: seq<MemberRecord>) returns (r: Result<(), Problem>, ghost seen: Commit)
      requires Valid() && HasRound(world) && Captured(Cur(world))
      modifies this`world, this`actions, this`forwards, this`lease
      ensures Valid() && forwards == old(forwards)
      ensures r.Ok? ==> Recovered(old(world), world, seen)
      ensures if HasRound(world) then Captured(Cur(world)) else ArchivedLast(world)
      ensures r.Err? ==> HasRound(world) && KeepsEvidence(Cur(old(world)), Cur(world))
    {
      seen := world.lead.head;
      Sound();
      CurrentHolds(world);
      var acquired := IntegrationLease();
      if acquired.Err? { return Err(acquired.error), seen; }
      var tree := acquired.value;
      if !tree.clean && tree.operation == NoOperation { return Err(InnerDirty), seen; }
      if Cur(world).intent.None? {
        r := RecoverIdle(tree, idle);
      } else if MergePending(Cur(world)) {
        r := RecoverMerge();
      } else {
        r, seen := RecoverAnnounced(idle);
      }
    }

    /** An archived round is written back as the current one, blocked; the file is unreadable from now on. */
    method WriteBack(problem: Problem)
      requires Valid() && !HasRound(world) && ArchivedLast(world)
      modifies this`world, this`actions, this`forwards
      ensures Reachable(world) && Resurrected(world) && forwards == old(forwards)
      ensures Intact(world) == old(world).(state := Written(old(world.state)))
    {
      var a := Resurrect(Why(texts, now, RecoveryStage, problem, None), now);
      CopyLeavesIntact(world, a, After(world, a));
      ghost var next := Next(world, a);
      world, actions := After(world, a), actions + [a];
    }

    /** The error path of `recover`: the round is blocked, whether or not it is still the current one. */
    method RecordFailure(problem: Problem)
      requires Valid() && (if HasRound(world) then Captured(Cur(world)) else ArchivedLast(world))
      modifies this`world, this`actions, this`forwards
      ensures Reachable(world) && forwards == old(forwards)
      ensures
        if HasRound(old(world)) then Valid() && BlockedAfter(old(world), world)
        else Resurrected(world) && Intact(world) == old(world).(state := Written(old(world.state)))
    {
      if HasRound(world) {
        if !(Cur(world).phase == Blocked && Cur(world).failure.Some?) { BlockRound(RecoveryStage, problem, None); }
      } else {
        WriteBack(problem);
      }
    }

    /**
     `recover`, as called when a team is opened. Either Git and the record agree and the pending
     step is resolved to the side that Git shows, or the round is blocked with its evidence kept.
     The Lead is never moved. `mid` is the world before the summary is made; if that fails, the round
     is blocked all the same, and written back if it was archived just now.
     */
    method Recover(idle: seq<MemberRecord>, summaryFails: bool)
        returns (r: Result<(), Problem>, ghost seen: Commit, ghost mid: World)
      requires Valid()
      modifies this`world, this`actions, this`forwards, this`lease
      ensures Reachable(world) && forwards == old(forwards) && Inv(mid)
      ensures !HasRound(old(world)) || !Captured(Cur(old(world))) ==>
          world == mid == old(world) && (r.Ok? <==> !summaryFails)
      ensures HasRound(old(world)) && Captured(Cur(old(world))) && r.Ok? ==>
          world == mid && Recovered(old(world), mid, seen)
      ensures HasRound(old(world)) && Captured(Cur(old(world))) && r.Err? ==>
          && (Recovered(old(world), mid, seen) || (HasRound(mid) && KeepsEvidence(Cur(old(world)), Cur(mid))))
          && (!summaryFails ==> HasRound(mid) && KeepsEvidence(Cur(old(world)), Cur(mid)))
          && (if HasRound(mid) then BlockedAfter(mid, world)
              else Resurrected(world) && Intact(world) == mid.(state := Written(mid.state)))
      ensures summaryFails ==> r.Err?
      ensures WellFormed(world.state) <==> !(summaryFails && HasRound(old(world)) && !HasRound(mid))
      ensures WellFormed(world.state) ==> Valid()
    {
      seen, mid := world.lead.head, world;
      Sound();
      if HasRound(world) { CurrentHolds(world); }
      if !HasRound(world) || Cur(world).targetBranch.None? {
        return if summaryFails then Err(SummaryUnavailable) else Ok(()), seen, mid;
      }
      r, seen := RecoverRound(idle);
      mid := world;
      Sound();
      if r.Ok? && summaryFails { r := Err(SummaryUnavailable); }
      if r.Ok? { return; }
      RecordFailure(r.error);
      if Resurrected(world) { CopyIsRefused(world); } else { Sound(); }
    }

    // -------------------------------------------------------------------------
    // Publishing
    // -------------------------------------------------------------------------

    /** `_publish_preflight`: the Lead is untouched since the round began, and the integration branch is as recorded. */
    method PublishPreflight() returns (r: Result<(), Problem>)
      requires Valid() && HasRound(world) && Captured(Cur(world))
      modifies this`world, this`actions, this`forwards, this`lease
      ensures Valid() && forwards == old(forwards) && world.state == old(world.state)
      ensures r.Ok? ==> LeadIsAt(Cur(world).baseCommit)
      ensures r.Ok? ==>
          Cur(world).number in world.inner
          && Some(world.inner[Cur(world).number].head) == Cur(world).integrationHead
    {
      LetOthersAct();
      if !LeadIsAt(Cur(world).baseCommit) { return Err(LeadNotAsRecorded); }
      var tree :- IntegrationLease();
      if tree.operation != NoOperation || !tree.clean { return Err(InnerDirty); }
      if Some(tree.head) != Cur(world).integrationHead { return Err(HeadMismatch); }
      return Ok(());
    }

    /** `fast_forward` of the Lead; it may report an error after it has moved. */
    method FastForwardLead() returns (r: Result<(), Problem>)
      requires Valid() && HasRound(world) && Captured(Cur(world)) && PublishPending(Cur(world))
      requires Some(world.lead.head) == Cur(world).baseCommit || LastByOthers(world.leadLog)
      modifies this`world, this`actions, this`forwards
      ensures Valid() && world == old(world).(lead := world.lead, leadLog := world.leadLog)
      ensures old(forwards) <= forwards <= old(forwards) + 1
      ensures r.Ok? ==> LeadVisited(world, Cur(world).intent.value.expectedHead) && forwards == old(forwards) + 1
    {
      var target := Cur(world).intent.value.expectedHead;
      var fails: bool, failsLater: bool := *, *;
      if fails || world.lead.branch.None? || world.lead.operation != NoOperation || !world.lead.clean {
        return Err(GitError);
      }
      if !Ancestor(world.commits, world.lead.head, target) { return Err(GitError); }
      Do(ForwardLead);
      if failsLater { return Err(GitError); }
      return Ok(());
    }

    /** The publish intent is written, and then the Lead is moved. */
    method AnnounceAndForward(tasks: seq<TeamTask>) returns (r: Result<(), Problem>)
      requires Valid() && HasRound(world) && Captured(Cur(world)) && Publishable(Cur(world), tasks)
      requires Some(world.lead.head) == Cur(world).baseCommit
      requires Cur(world).number in world.inner && Some(world.inner[Cur(world).number].head) ==
          Cur(world).integrationHead
      modifies this`world, this`actions, this`forwards
      ensures Valid() && old(forwards) <= forwards <= old(forwards) + 1
      ensures Announces(old(world), world)
      ensures r.Ok? ==> forwards == old(forwards) + 1 && LeadVisited(world, Cur(world).integrationHead.value)
    {
      LetOthersAct();
      Do(BeginPublish(tasks, now));
      LetOthersAct();
      r := FastForwardLead();
    }

    /** Announces the publication, moves the Lead, and records that it was moved. */
    method PublishRound(tasks: seq<TeamTask>) returns (r: Result<(), Problem>)
      requires Valid() && HasRound(world) && Captured(Cur(world)) && Publishable(Cur(world), tasks)
      requires Some(world.lead.head) == Cur(world).baseCommit
      requires Cur(world).number in world.inner && Some(world.inner[Cur(world).number].head) ==
          Cur(world).integrationHead
      modifies this`world, this`actions, this`forwards
      ensures Valid() && old(forwards) <= forwards <= old(forwards) + 1
      ensures HasRound(world) && Captured(Cur(world)) && SameWork(Cur(old(world)), Cur(world))
      ensures world.inner == old(world.inner) && world.state.history == old(world.state.history)
      ensures r.Ok? ==> Cur(world).phase == Published && Cur(world).intent.None? && forwards == old(forwards) + 1
      ensures r.Err? ==> PublishPending(Cur(world))
    {
      r := AnnounceAndForward(tasks);
      if r.Err? { return; }
      LetOthersAct();
      Do(MarkPublished(now));
    }

    /** `finalize` */
    method Finalize(tasks: seq<TeamTask>, idle: seq<MemberRecord>) returns (status: FinalizeStatus)
      requires Valid()
      modifies this`world, this`actions, this`forwards, this`lease
      ensures Valid() && old(forwards) <= forwards <= old(forwards) + 1
      ensures !HasRound(old(world)) ==> world == old(world)
      ensures forwards > old(forwards) ==> HasRound(old(world)) && Publishable(Cur(old(world)), tasks)
      ensures HasRound(old(world)) && status == PublishedNow ==>
          Publishable(Cur(old(world)), tasks) && forwards == old(forwards) + 1 && Archived(old(world), world)
      ensures HasRound(old(world)) && status == NotNeededNow ==>
          && AllCompleted(tasks, Cur(old(world)).number) && !SomeCode(tasks, Cur(old(world)).number)
          && !HasRound(world) && world.state.history != [] && LastRound(world).phase == NotNeeded
          && LastRound(world).number == Cur(old(world)).number && LastRound(world).accepted == Cur(old(world)).accepted
      ensures HasRound(old(world)) ==>
          (status == NotNeededNow <==>
           AllCompleted(tasks, Cur(old(world)).number) && !SomeCode(tasks, Cur(old(world)).number))
      ensures HasRound(old(world)) && status == NotNeededNow && Lists(old(world.tasks), tasks) ==>
          WorkGone(old(world.tasks), Cur(old(world)))
      ensures HasRound(old(world)) && status == Waiting ==>
          world == old(world) && !AllCompleted(tasks, Cur(old(world)).number)
      ensures HasRound(old(world)) && status == BlockedNow ==> HasRound(world) && SameWork(Cur(old(world)), Cur(world))
      ensures HasRound(old(world)) && !Publishable(Cur(old(world)), tasks) && status == BlockedNow ==>
          world == old(world)
    {
      if !HasRound(world) {
        var published := world.state.history != [] && world.state.history[|world.state.history| - 1].phase == Published;
        return if published then PublishedNow else NotNeededNow;
      }
      var current := Cur(world);
      Sound();
      CurrentHolds(world);
      if exists k ::
           0 <= k < |tasks| && tasks[k].integrationRound == current.number
           && tasks[k].status in {TaskFailed, TaskCancelled} {
        return BlockedNow;
      }
      if !AllCompleted(tasks, current.number) { return Waiting; }
      if !SomeCode(tasks, current.number) {
        ArchiveWithoutCode(tasks);
        return NotNeededNow;
      }
      if !AllCodeAccepted(tasks, current) { return BlockedNow; }
      if current.failure.Some? { return BlockedNow; }
      status := FinalizeCode(tasks, idle);
    }

    /**
     `review_completion`, with the list of all tasks that it has just read: nothing is finalized
     unless all of them are completed. By the time `finalize` runs, others may have changed them.
     */
    method ReviewCompletion(tasks: seq<TeamTask>, idle: seq<MemberRecord>) returns (status: Option<FinalizeStatus>)
      requires Valid() && Lists(world.tasks, tasks)
      modifies this`world, this`actions, this`forwards, this`lease
      ensures Valid() && old(forwards) <= forwards <= old(forwards) + 1
      ensures status.Some? <==> forall id | id in old(world.tasks) :: old(world.tasks)[id].status == TaskCompleted
      ensures status.None? ==> world == old(world)
      ensures HasRound(old(world)) ==>
          (status == Some(NotNeededNow) <==>
           status.Some? && NoCodeLeft(old(world.tasks), Cur(old(world)).number))
      ensures HasRound(old(world)) && status == Some(NotNeededNow) ==>
          && !HasRound(world) && world.state.history != [] && LastRound(world).phase == NotNeeded
          && LastRound(world).accepted == Cur(old(world)).accepted
          && WorkGone(old(world.tasks), Cur(old(world)))
    {
      ListShowsStatus(world.tasks, tasks);
      if exists k :: 0 <= k < |tasks| && tasks[k].status != TaskCompleted { return None; }
      if HasRound(world) {
        ListShowsRound(world.tasks, tasks, Cur(world).number);
        Sound();
        if NoCodeLeft(world.tasks, Cur(world).number) { NoCodeLeftMeansGone(world); }
      }
      LetOthersAct();
      var finalized := Finalize(tasks, idle);
      return Some(finalized);
    }

    /** The part of `finalize` that archives a round whose snapshot shows no code task. */
    method ArchiveWithoutCode(tasks: seq<TeamTask>)
      requires Valid() && HasRound(world) && AllCompleted(tasks, Cur(world).number)
          && !SomeCode(tasks, Cur(world).number)
      modifies this`world, this`actions, this`forwards
      ensures Valid() && forwards == old(forwards)
      ensures !HasRound(world) && world.state.history != [] && LastRound(world).phase == NotNeeded
      ensures LastRound(world).number == Cur(old(world)).number && LastRound(world).accepted == Cur(old(world)).accepted
      ensures Lists(old(world.tasks), tasks) ==> WorkGone(old(world.tasks), Cur(old(world)))
    {
      Sound();
      UnneededIsArchived(world, tasks, now);
      Do(ArchiveUnneeded(tasks, now));
    }

    /** The part of `finalize` that publishes a round whose code is all accepted. */
    method FinalizeCode(tasks: seq<TeamTask>, idle: seq<MemberRecord>) returns (status: FinalizeStatus)
      requires Valid() && HasRound(world) && Publishable(Cur(world), tasks)
      modifies this`world, this`actions, this`forwards, this`lease
      ensures Valid() && old(forwards) <= forwards <= old(forwards) + 1
      ensures status in {PublishedNow, BlockedNow}
      ensures status == PublishedNow ==> forwards == old(forwards) + 1 && Archived(old(world), world)
      ensures status == BlockedNow ==> HasRound(world) && SameWork(Cur(old(world)), Cur(world))
    {
      Sound();
      AcceptedMeansCaptured(world, tasks);
      var ready := PublishPreflight();
      if ready.Err? {
        BlockRound(PublishStage, ready.error, None);
        return BlockedNow;
      }
      var published := PublishRound(tasks);
      if published.Err? {
        BlockRound(PublishStage, published.error, None);
        return BlockedNow;
      }
      ArchivePublished(idle);
      return PublishedNow;
    }
  }

  lemma UnneededIsArchived(w: World, tasks: seq<TeamTask>, now: string)
    requires Inv(w) && HasRound(w) && NotBlank(now) && AllCompleted(tasks, Cur(w).number)
        && !SomeCode(tasks, Cur(w).number)
    ensures Enabled(w, ArchiveUnneeded(tasks, now))
    ensures
      var v := After(w, ArchiveUnneeded(tasks, now));
      && !HasRound(v) && v.state.history != [] && LastRound(v).phase == NotNeeded
      && LastRound(v).number == Cur(w).number && LastRound(v).accepted == Cur(w).accepted
    ensures Lists(w.tasks, tasks) ==> WorkGone(w.tasks, Cur(w))
  {
    InvIsReadable(w);
    if Lists(w.tasks, tasks) { UnneededLeavesWorkIff(w, tasks, now); }
  }

  lemma PublishedIsArchived(u: World, w: World, failure: Option<Failure>, now: string)
    requires HasRound(u) && w.state == u.state && Captured(Cur(w)) && !Resurrected(w) && NotBlank(now)
    requires Cur(w).phase == Published && Cur(w).intent.None? && (failure.Some? ==> OkFailure(failure.value))
    ensures Enabled(w, Archive(failure, now)) && Archived(u, After(w, Archive(failure, now)))
  {
  }

  lemma AbortedIsCleared(w: World, failure: Failure, now: string)
    requires HasRound(w) && MergePending(Cur(w)) && Cur(w).number in w.inner && !Resurrected(w)
    requires w.inner[Cur(w).number].head == Cur(w).intent.value.expectedHead
    requires w.inner[Cur(w).number].operation == Merging && OkFailure(failure) && NotBlank(now)
    ensures Enabled(w, AbortMerge)
    ensures
      var v := After(w, AbortMerge);
      && v == w.(inner := v.inner) && Enabled(v, ClearIntent(Blocked, Some(failure), now))
      && After(v, ClearIntent(Blocked, Some(failure), now)) ==
           Put(v, Cur(w).(phase := Blocked, intent := None, failure := Some(failure), updatedAt := now))
  {
  }

  lemma ListShowsStatus(tasks: Tasks, list: seq<TeamTask>)
    requires Lists(tasks, list)
    ensures (forall id | id in tasks :: tasks[id].status == TaskCompleted)
       <==> forall k | 0 <= k < |list| :: list[k].status == TaskCompleted
  {
    if forall k | 0 <= k < |list| :: list[k].status == TaskCompleted {
      forall id | id in tasks ensures tasks[id].status == TaskCompleted {
        var k :| 0 <= k < |list| && list[k] == tasks[id];
      }
    }
  }

  function Why(texts: Problem -> string, now: string, stage: FailureStage, problem: Problem,
               key: Option<TaskAttemptRef>): Failure {
    IntegrationFailure(stage, texts(problem), key, None, None, [], now)
  }

  lemma MayAccept(w: World, record: Record, now: string)
    requires Inv(w) && HasRound(w) && Captured(Cur(w)) && MergePending(Cur(w)) && FullIntent(Cur(w).intent.value)
    requires Cur(w).number in w.inner && record.integrationHead == w.inner[Cur(w).number].head
    requires MergeEnds(w, Ok(AlreadyIntegrated)) || MergeEnds(w, Ok(Merged))
    requires Announced(Cur(w).intent.value, record) && OkRecord(record) && NotBlank(now)
    requires AttemptSettled(w.tasks, record.task, record.sourceCommit) && !Resurrected(w)
    ensures Enabled(w, Accept(record, now))
    ensures Integrated(w, After(w, Accept(record, now)), record.task, record.sourceCommit)
  {
    CurrentHolds(w);
  }

  /** How the tree stands when the merge is over. */
  ghost predicate MergeEnds(w: World, r: Result<MergeStatus, Problem>)
    requires HasRound(w) && MergePending(Cur(w)) && FullIntent(Cur(w).intent.value) && Cur(w).number in w.inner
  {
    var head, i := w.inner[Cur(w).number].head, Cur(w).intent.value;
    match r
    case Err(_) => true
    case Ok(AlreadyIntegrated) => head == i.expectedHead && Ancestor(w.commits, i.sourceCommit.value, head)
    case Ok(Merged) => Landed(w.commits, head, i)
    case Ok(Conflicted) => head == i.expectedHead
    case Ok(Failed) => head == i.expectedHead || Landed(w.commits, head, i)
  }

  /** One record was appended, for this attempt and this commit, from the recorded head to the head of the tree. */
  ghost predicate Integrated(w: World, v: World, key: TaskAttemptRef, source: Commit)
    requires HasRound(w) && HasRound(v)
  {
    && Cur(v).number == Cur(w).number && Cur(v).intent.None? && Cur(v).phase == Active
    && Captured(Cur(w)) && Captured(Cur(v)) && Cur(v).baseCommit == Cur(w).baseCommit
    && |Cur(v).accepted| == |Cur(w).accepted| + 1 && Cur(v).accepted[..|Cur(w).accepted|] == Cur(w).accepted
    && var r := Cur(v).accepted[|Cur(w).accepted|];
       && r.task == key && r.sourceCommit == source && Link(v.commits, r)
       && Some(r.previousHead) == Cur(w).integrationHead && Some(r.integrationHead) == Cur(v).integrationHead
       && Cur(v).number in v.inner && v.inner[Cur(v).number].head == r.integrationHead
  }

  /** Recovery took one of the two sides: nothing had happened, or the merge is recorded. */
  ghost predicate MergeResolved(w: World, v: World)
    requires HasRound(w) && Captured(Cur(w)) && MergePending(Cur(w)) && Cur(w).number in w.inner && HasRound(v)
  {
    var i := Cur(w).intent.value;
    && FullIntent(i) && Cur(v).intent.None?
    && if w.inner[Cur(w).number].head == i.expectedHead then
         Cur(v).accepted == Cur(w).accepted && Cur(v).integrationHead == Cur(w).integrationHead
           && Cur(v).number == Cur(w).number
       else
         Integrated(w, v, i.task.value, i.sourceCommit.value)
           && CompletedAs(v.tasks, i.task.value.taskId, i.sourceCommit.value)
  }

  /** A recovered attempt is recorded exactly when its merge is in Git. */
  lemma RecoveryRecordsIffLanded(w: World, v: World)
    requires Inv(w) && HasRound(w) && Captured(Cur(w)) && MergePending(Cur(w)) && Cur(w).number in w.inner
    requires HasRound(v) && MergeResolved(w, v)
    ensures IsAccepted(Cur(v).accepted, Cur(w).intent.value.task.value) <==>
        Landed(w.commits, w.inner[Cur(w).number].head, Cur(w).intent.value)
  {
    CurrentHolds(w);
    var i, head := Cur(w).intent.value, w.inner[Cur(w).number].head;
    if head == i.expectedHead {
      NotItsOwnParent(w.commits, head, i.sourceCommit.value);
    } else {
      IntegratedIsAccepted(w, v, i.task.value, i.sourceCommit.value);
    }
  }

  /** The Lead was seen at the base and the round is ready again, or at the announced head and it is published. */
  ghost predicate PublishResolved(r: Round, r': Round, seen: Commit)
    requires Captured(r) && r.intent.Some? && Captured(r')
  {
    && r'.intent.None? && SameWork(r, r')
    && if seen == r.baseCommit.value then r'.phase == Ready
       else seen == r.intent.value.expectedHead && r'.phase == Published && r'.publishedAt.Some?
  }

  /** An error loses nothing: what was accepted stays, and a merge whose outcome is open stays announced. */
  ghost predicate KeepsEvidence(r: Round, r': Round) {
    SameWork(r, r') && (MergePending(r) ==> r'.intent == r.intent)
  }

  /** The same round, with a publish intent for its head. */
  ghost predicate Announces(w: World, v: World)
    requires HasRound(w)
  {
    && HasRound(v) && Captured(Cur(v)) && PublishPending(Cur(v)) && SameWork(Cur(w), Cur(v))
    && Some(Cur(v).intent.value.expectedHead) == Cur(v).integrationHead
    && v.inner == w.inner && v.state.history == w.state.history
  }

  predicate SameWork(r: Round, r': Round) {
    r'.number == r.number && r'.accepted == r.accepted && r'.integrationHead == r.integrationHead
      && r'.baseCommit == r.baseCommit
  }

  /** What a successful recovery has achieved, by what was pending. */
  ghost predicate Recovered(w: World, v: World, seen: Commit)
    requires HasRound(w) && Captured(Cur(w))
  {
    if MergePending(Cur(w)) then
      HasRound(v) && Cur(w).number in w.inner && MergeResolved(w, v)
    else if PublishPending(Cur(w)) && seen == Cur(w).baseCommit.value then
      HasRound(v) && Cur(v).phase == Ready && Cur(v).intent.None? && SameWork(Cur(w), Cur(v))
    else if PublishPending(Cur(w)) then
      seen == Cur(w).intent.value.expectedHead && Archived(w, v)
    else if Cur(w).phase == Published then Archived(w, v)
    else v.state == w.state
  }

  /** Every task of the round is completed, there is code, all of it is accepted, and nothing failed. */
  predicate Publishable(r: Round, tasks: seq<TeamTask>) {
    AllCompleted(tasks, r.number) && SomeCode(tasks, r.number) && AllCodeAccepted(tasks, r) && r.failure.None?
  }

  lemma AcceptedMeansCaptured(w: World, tasks: seq<TeamTask>)
    requires Inv(w) && HasRound(w) && SomeCode(tasks, Cur(w).number) && AllCodeAccepted(tasks, Cur(w))
    ensures Captured(Cur(w))
  {
    CurrentHolds(w);
    var k :| 0 <= k < |tasks| && tasks[k].integrationRound == Cur(w).number && tasks[k].kind == CodeTask;
    assert IsAccepted(Cur(w).accepted, TaskAttemptRef(tasks[k].id, tasks[k].attempt));
  }

  /**
   If others leave the Lead alone while the round is open, recovery calls an announced publication
   done exactly when the round has moved the Lead, and not done exactly when it has not.
   */
  lemma PublicationIsRecognised(worlds: seq<World>, actions: seq<Action>, c: nat, k: nat, r': Round)
    requires FromStart(worlds, actions) && c < k < |worlds| && Captures(worlds, actions, c)
        && LeftAlone(worlds, actions, c, k)
    requires HasRound(worlds[k]) && Cur(worlds[k]).number == Cur(worlds[c]).number && PublishPending(Cur(worlds[k]))
    requires Captured(Cur(worlds[k])) && Captured(r') && PublishResolved(Cur(worlds[k]), r', worlds[k].lead.head)
    ensures r'.phase == Published <==> MovedBy(worlds[k].leadLog, Cur(worlds[k]).number)
    ensures r'.phase == Ready <==> !MovedBy(worlds[k].leadLog, Cur(worlds[k]).number)
  {
    LeadTellsWhatHappened(worlds, actions, c, k);
  }

  /** The published round is the newest of the history. */
  ghost predicate Archived(w: World, v: World)
    requires HasRound(w)
  {
    && !HasRound(v) && |v.state.history| == |w.state.history| + 1
    && v.state.history[..|w.state.history|] == w.state.history
    && var r := v.state.history[|w.state.history|];
       && r.number == Cur(w).number && r.phase == Published && r.accepted == Cur(w).accepted
       && r.integrationHead == Cur(w).integrationHead && r.baseCommit == Cur(w).baseCommit && r.intent.None?
  }

  lemma IntegratedIsAccepted(w: World, v: World, key: TaskAttemptRef, source: Commit)
    requires HasRound(w) && HasRound(v) && Integrated(w, v, key, source)
    ensures IsAccepted(Cur(v).accepted, key)
  {
  }

  lemma MembersExist(w: World, name: string)
    requires Inv(w) && name in w.members
    ensures Exists(w.commits, w.members[name].head)
  {
  }

  /** What stays true of a code task that was read earlier, while its round is current. */
  predicate ReadEarlier(w: World, key: TaskAttemptRef, task: TeamTask) {
    HasRound(w) && task.integrationRound == Cur(w).number ==>
      && AttemptOfRound(w.tasks, key, Cur(w).number)
      && (task.status == TaskInProgress ==> !AttemptDone(w.tasks, key))
      && (task.startCommit.Some? ==>
            Captured(Cur(w)) && Exists(w.commits, task.startCommit.value)
            && Ancestor(w.commits, Cur(w).baseCommit.value, task.startCommit.value))
  }

  lemma ReadingIsSound(w: World, id: string)
    requires Inv(w) && id in w.tasks && w.tasks[id].kind == CodeTask
    ensures ReadEarlier(w, TaskAttemptRef(id, w.tasks[id].attempt), w.tasks[id])
  {
    if w.tasks[id].startCommit.Some? { assert StartOk(w, w.tasks[id]); }
  }

  lemma ReadEarlierStays(w: World, v: World, key: TaskAttemptRef, task: TeamTask)
    requires ReadEarlier(w, key, task) && OthersActed(w, v) && TasksKept(w.tasks, v.tasks) && key.taskId in w.tasks
    ensures ReadEarlier(v, key, task)
  {
    if HasRound(w) && task.startCommit.Some? && Captured(Cur(w)) && Exists(w.commits, task.startCommit.value) {
      AncestorAppend(w.commits, v.commits, Cur(w).baseCommit.value, task.startCommit.value);
    }
    if key.taskId in v.tasks { assert Kept(w.tasks[key.taskId], v.tasks[key.taskId]); }
  }

  /**
   A failed integration has recorded nothing, and if it has completed the task, its merge is still
   announced and done.
   */
  ghost predicate FailedCleanly(w: World, v: World, key: TaskAttemptRef) {
    && (HasRound(w) ==> HasRound(v) && SameWork(Cur(w), Cur(v)))
    && (AttemptDone(v.tasks, key) && !AttemptDone(w.tasks, key) ==>
        MergeDone(v) && Cur(v).intent.value.task == Some(key))
  }

  /** The newest archived round was published. */
  predicate ArchivedLast(w: World) {
    w.state.history != [] && LastRound(w).phase == Published && LastRound(w).intent.None?
  }

  /** The round is blocked with a reason, and otherwise as before. */
  ghost predicate BlockedAfter(w: World, v: World)
    requires HasRound(w)
  {
    && HasRound(v) && Cur(v).phase == Blocked && Cur(v).failure.Some? && v == w.(state := v.state)
    && Cur(v) == Cur(w).(phase := Blocked, failure := Cur(v).failure, updatedAt := Cur(v).updatedAt)
  }

  lemma HeadHasBase(w: World)
    requires Inv(w) && HasRound(w) && Captured(Cur(w))
    ensures Ancestor(w.commits, Cur(w).baseCommit.value, Cur(w).integrationHead.value)
    ensures Exists(w.commits, Cur(w).integrationHead.value)
  {
    CurrentHolds(w);
    ChainContains(w.commits, Cur(w).baseCommit.value, Cur(w).accepted, Cur(w).integrationHead.value);
  }

  ghost predicate NothingCompleted(before: Tasks, after: Tasks) {
    forall key | AttemptDone(after, key) :: AttemptDone(before, key)
  }

  /** The file and the integration trees are as before, and a Lead that moved was moved by others. */
  ghost predicate OthersActed(w: World, v: World) {
    && v.state == w.state && v.inner == w.inner && w.commits <= v.commits
    && (forall c | LeadVisited(w, c) :: LeadVisited(v, c))
    && (v.lead.head == w.lead.head || LastByOthers(v.leadLog))
    && (LastByOthers(w.leadLog) ==> LastByOthers(v.leadLog))
  }

  lemma ClaimOnly(w: World, a: Action)
    requires a.Claim? && Enabled(w, a)
    ensures OthersActed(w, After(w, a)) && TasksKept(w.tasks, After(w, a).tasks)
        && NothingCompleted(w.tasks, After(w, a).tasks)
  {
  }

  lemma OutsidersOnly(w: World, a: Action)
    requires a.Outsiders? && Enabled(w, a)
    ensures OthersActed(w, After(w, a)) && TasksKept(w.tasks, After(w, a).tasks)
        && NothingCompleted(w.tasks, After(w, a).tasks)
  {
    forall key | AttemptDone(a.newTasks, key) ensures AttemptDone(w.tasks, key) {
      assert key.taskId in w.tasks && Evolves(w.tasks[key.taskId], a.newTasks[key.taskId]);
    }
    forall id | id in w.tasks && id in a.newTasks ensures Kept(w.tasks[id], a.newTasks[id]) {
      assert Evolves(w.tasks[id], a.newTasks[id]);
    }
    if a.newLead.head != w.lead.head { LoggedVisits(w, After(w, a), ByOthers(w.lead.head, a.newLead.head)); }
  }

  /** A held lease on the current round's tree means that the round is captured and the tree is there. */
  ghost predicate LeaseOk(w: World, lease: Option<int>) {
    lease.Some? ==>
      && lease.value < w.state.nextRound
      && (HasRound(w) && Cur(w).number == lease.value ==> Captured(Cur(w)) && lease.value in w.inner)
  }

  lemma LeaseStays(w: World, a: Action, lease: Option<int>)
    requires Inv(w) && Enabled(w, a) && !a.Resurrect? && LeaseOk(w, lease) && (a.DropTree? ==> lease != Some(a.number))
    ensures LeaseOk(After(w, a), lease)
  {
    if HasRound(w) { CurrentHolds(w); }
    if IsWrite(a) { WriteKeepsLease(w, a, lease); }
  }

  /** A write keeps the round's number and, once captured, what was captured. */
  lemma WriteKeepsLease(w: World, a: Action, lease: Option<int>)
    requires Enabled(w, a) && LeaseOk(w, lease) && IsWrite(a)
    ensures LeaseOk(After(w, a), lease)
  {
    var v := After(w, a);
    assert HasRound(v) && Cur(v).number == Cur(w).number && v.state.nextRound == w.state.nextRound
      && v.inner == w.inner;
    assert Captured(Cur(w)) ==> Captured(Cur(v));
  }

  /** What an action makes of a sound world is as good. */
  lemma StepIsSound(w: World, a: Action, lease: Option<int>)
    requires Reachable(w) && !Resurrected(w) && LeaseOk(w, lease)
    requires Enabled(w, a) && !a.Resurrect? && (a.DropTree? ==> lease != Some(a.number))
    ensures Reachable(After(w, a)) && !Resurrected(After(w, a)) && LeaseOk(After(w, a), lease)
  {
    hide Inv, MayHappen, After, LeaseOk;
    ReachableIsSound(w);
    ActionKeepsInv(w, a);
    InvIsReadable(After(w, a));
    LeaseStays(w, a, lease);
    var v := Next(w, a);
  }

  /** Only the integration trees differ. */
  predicate OnlyInner(w: World, v: World) {
    v == w.(inner := v.inner)
  }

  lemma BaseExists(w: World)
    requires Inv(w) && HasRound(w) && Captured(Cur(w))
    ensures Exists(w.commits, Cur(w).baseCommit.value) && Exists(w.commits, Cur(w).integrationHead.value)
  {
    CurrentHolds(w);
    ChainContains(w.commits, Cur(w).baseCommit.value, Cur(w).accepted, Cur(w).integrationHead.value);
    AncestorIsOlder(w.commits, Cur(w).baseCommit.value, Cur(w).integrationHead.value);
  }
}
