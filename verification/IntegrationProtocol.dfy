/**
 The integration protocol as a state machine. A world is what survives a crash: the integration
 file, Git and the tasks. An action is one atomic change of it, a write of the file or one change
 in Git, so a crash between any two actions leaves one of the worlds of the run.
 */
module IntegrationProtocol {
  import opened Wrappers
  import opened TeamModels
  import opened TeamTasks
  import opened GitGraph
  import opened IntegrationChain

  type State = TeamIntegrationState<Commit>
  type Round = IntegrationRound<Commit>
  type Intent = IntegrationIntent<Commit>
  type Failure = IntegrationFailure<Commit>

  datatype Operation = NoOperation | Merging | OtherOperation

  datatype Tree = Tree(branch: Option<string>, head: Commit, operation: Operation, clean: bool)

  /** The worktree of an integration round, with the base its metadata names. */
  datatype InnerTree = InnerTree(base: Commit, head: Commit, operation: Operation, clean: bool)

  /** One entry of the Lead's reflog: moved by publishing round `round`, or by somebody else. */
  datatype LeadMove = ByRound(round: int, base: Commit, from: Commit, to: Commit) | ByOthers(from: Commit, to: Commit)

  datatype World = World(
    state: State, commits: Commits, lead: Tree, leadLog: seq<LeadMove>, inner: map<int, InnerTree>,
    members: map<string, Tree>, tasks: Tasks)

  datatype Action =
    | Assign(now: string)
    | CreateTree(number: int, base: Commit)
    | DropTree(number: int)
    | Capture(branch: string, base: Commit, ownerId: string, root: string, innerBranch: string, now: string)
    | Claim(taskId: string, memberName: string, start: Commit, approval: bool)
    | BeginMerge(
        key: TaskAttemptRef, memberName: string, sourceBranch: string, start: Commit, source: Commit, text: string,
        now: string)
    | MergeCommit(clean: bool)
    | MergeStops
    | MergeFails(clean: bool)
    | AbortMerge
    | Complete
    | Accept(record: Record, now: string)
    | ClearIntent(phase: Phase, reason: Option<Failure>, now: string)
    | Block(failure: Failure, now: string)
    | BeginPublish(snapshot: seq<TeamTask>, now: string)
    | ForwardLead
    | MarkPublished(now: string)
    | MarkReady(now: string)
    | Archive(cleanup: Option<Failure>, now: string)
    | ArchiveUnneeded(snapshot: seq<TeamTask>, now: string)
    | Resurrect(failure: Failure, now: string)
    | ForwardMember(name: string, target: Commit)
    | Outsiders(newLead: Tree, created: Commits, newMembers: map<string, Tree>, newTasks: Tasks)

  // ---------------------------------------------------------------------------
  // Reading a world
  // ---------------------------------------------------------------------------

  predicate HasRound(w: World) {
    w.state.current.Some?
  }

  function Cur(w: World): Round
    requires HasRound(w)
  {
    w.state.current.value
  }

  /** The round has a target branch and an integration branch. */
  predicate Captured(r: Round) {
    r.baseCommit.Some? && r.integrationHead.Some? && r.targetBranch.Some?
  }

  predicate MergePending(r: Round) {
    r.intent.Some? && r.intent.value.kind == MergeTask
  }

  predicate PublishPending(r: Round) {
    r.intent.Some? && r.intent.value.kind == Publish
  }

  /** What a merge intent must say for recovery to be able to use it. */
  predicate FullIntent(i: Intent) {
    i.task.Some? && i.sourceCommit.Some? && i.memberName.Some? && i.sourceBranch.Some? && i.resultText.Some?
  }

  /** The tasks of the round in the snapshot. */
  predicate AllCompleted(snapshot: seq<TeamTask>, number: int) {
    forall k | 0 <= k < |snapshot| && snapshot[k].integrationRound == number :: snapshot[k].status == TaskCompleted
  }

  predicate SomeCode(snapshot: seq<TeamTask>, number: int) {
    exists k :: 0 <= k < |snapshot| && snapshot[k].integrationRound == number && snapshot[k].kind == CodeTask
  }

  predicate AllCodeAccepted(snapshot: seq<TeamTask>, r: Round) {
    forall k | 0 <= k < |snapshot| && snapshot[k].integrationRound == r.number && snapshot[k].kind == CodeTask ::
      IsAccepted(r.accepted, TaskAttemptRef(snapshot[k].id, snapshot[k].attempt))
  }

  predicate LastByOthers(log: seq<LeadMove>) {
    log != [] && log[|log| - 1].ByOthers?
  }

  /** The Lead is, or has been, at `c`. */
  predicate LeadVisited(w: World, c: Commit) {
    w.lead.head == c || exists i :: 0 <= i < |w.leadLog| && w.leadLog[i].from == c
  }

  /** The merge that the intent announces has been made. */
  predicate Landed(g: Commits, head: Commit, i: Intent) {
    i.sourceCommit.Some? && IsMerge(g, head, i.expectedHead, i.sourceCommit.value)
  }

  /** The integration tree of the round is ready for the announced merge. */
  predicate MergeRuns(w: World) {
    && HasRound(w) && MergePending(Cur(w)) && FullIntent(Cur(w).intent.value) && Cur(w).number in w.inner
    && w.inner[Cur(w).number].operation == NoOperation
    && w.inner[Cur(w).number].head == Cur(w).intent.value.expectedHead
    && !Ancestor(w.commits, Cur(w).intent.value.sourceCommit.value, Cur(w).intent.value.expectedHead)
  }

  /** The announced merge has been made, or there was nothing left to merge. */
  predicate MergeDone(w: World) {
    && HasRound(w) && MergePending(Cur(w)) && FullIntent(Cur(w).intent.value) && Cur(w).number in w.inner
    && (Landed(w.commits, w.inner[Cur(w).number].head, Cur(w).intent.value)
        || Ancestor(w.commits, Cur(w).intent.value.sourceCommit.value, Cur(w).intent.value.expectedHead))
  }

  /** The pending merge is of a task that is still in the announced attempt and has not ended. */
  predicate AnnouncedTaskOpen(w: World)
    requires HasRound(w) && MergePending(Cur(w)) && FullIntent(Cur(w).intent.value)
  {
    var key := Cur(w).intent.value.task.value;
    && key.taskId in w.tasks && w.tasks[key.taskId].attempt == key.attempt && w.tasks[key.taskId].kind == CodeTask
    && !Terminal(w.tasks[key.taskId].status)
  }

  // ---------------------------------------------------------------------------
  // A round that is in the history and current at once
  // ---------------------------------------------------------------------------

  /** The strict parser refuses such a file, so nothing that reads it first can happen any more. */
  predicate Resurrected(w: World) {
    HasRound(w) && w.state.history != [] && LastRound(w).number == Cur(w).number
  }

  function LastRound(w: World): Round
    requires w.state.history != []
  {
    w.state.history[|w.state.history| - 1]
  }

  // ---------------------------------------------------------------------------
  // When an action may happen
  // ---------------------------------------------------------------------------

  /** The Lead is where the round found it, or others have just moved it. */
  predicate LeadUnpublished(w: World)
    requires HasRound(w)
  {
    Some(w.lead.head) == Cur(w).baseCommit || LastByOthers(w.leadLog)
  }

  /** The work starts at a head of the round and has a commit of its own. */
  predicate IsNewWork(w: World, start: Commit, source: Commit)
    requires HasRound(w) && Captured(Cur(w))
  {
    source != start && Ancestor(w.commits, start, source) && Ancestor(w.commits, Cur(w).baseCommit.value, start)
  }

  /** Everything but what others do begins by reading the file. */
  ghost predicate Enabled(w: World, a: Action) {
    (a.Outsiders? || !Resurrected(w)) && MayHappen(w, a)
  }

  ghost predicate MayHappen(w: World, a: Action) {
    if IsWrite(a) then MayWrite(w, a) else MayAct(w, a)
  }

  /** Writes that replace the current round. */
  predicate IsWrite(a: Action) {
    a.Capture? || a.BeginMerge? || a.Accept? || a.ClearIntent? || a.Block? || a.BeginPublish? || a.MarkPublished?
      || a.MarkReady?
  }

  ghost predicate MayWrite(w: World, a: Action)
    requires IsWrite(a)
  {
    match a
    case Capture(_, base, _, _, _, now) =>
      && HasRound(w) && Cur(w).baseCommit.None? && NotBlank(now)
      && Cur(w).number in w.inner && w.inner[Cur(w).number].base == base
    case BeginMerge(key, memberName, sourceBranch, start, source, _, now) =>
      && HasRound(w) && Captured(Cur(w)) && Cur(w).number in w.inner
      && Some(w.inner[Cur(w).number].head) == Cur(w).integrationHead
      && !IsAccepted(Cur(w).accepted, key) && Exists(w.commits, source) && IsNewWork(w, start, source)
      && !AttemptDone(w.tasks, key) && AttemptOfRound(w.tasks, key, Cur(w).number)
      && OkTask(key) && NotBlank(memberName) && NotBlank(sourceBranch) && NotBlank(now)
    case Accept(record, now) =>
      && HasRound(w) && Captured(Cur(w)) && MergePending(Cur(w)) && FullIntent(Cur(w).intent.value)
      && Cur(w).number in w.inner && Announced(Cur(w).intent.value, record)
      && record.integrationHead == w.inner[Cur(w).number].head && Link(w.commits, record)
      && AttemptSettled(w.tasks, record.task, record.sourceCommit)
      && !IsAccepted(Cur(w).accepted, record.task) && OkRecord(record) && NotBlank(now)
    case ClearIntent(phase, failure, now) =>
      && HasRound(w) && MergePending(Cur(w)) && Cur(w).number in w.inner
      && w.inner[Cur(w).number].head == Cur(w).intent.value.expectedHead
      && phase in {Active, Blocked} && (failure.Some? ==> OkFailure(failure.value)) && NotBlank(now)
    case Block(failure, now) => HasRound(w) && Captured(Cur(w)) && OkFailure(failure) && NotBlank(now)
    case BeginPublish(snapshot, now) =>
      && HasRound(w) && Captured(Cur(w)) && Cur(w).failure.None? && Cur(w).number in w.inner && NotBlank(now)
      && Some(w.inner[Cur(w).number].head) == Cur(w).integrationHead && LeadUnpublished(w)
      && AllCompleted(snapshot, Cur(w).number) && SomeCode(snapshot, Cur(w).number)
      && AllCodeAccepted(snapshot, Cur(w))
    case MarkPublished(now) =>
      && HasRound(w) && Captured(Cur(w)) && PublishPending(Cur(w)) && NotBlank(now)
      && LeadVisited(w, Cur(w).intent.value.expectedHead)
    case MarkReady(now) => HasRound(w) && Captured(Cur(w)) && PublishPending(Cur(w)) && NotBlank(now)
  }

  ghost predicate MayAct(w: World, a: Action)
    requires !IsWrite(a)
  {
    match a
    case Assign(now) => !HasRound(w) && NotBlank(now)
    case CreateTree(n, base) =>
      && HasRound(w) && n == Cur(w).number && n !in w.inner && Exists(w.commits, base)
      && (Cur(w).baseCommit.None? || Cur(w).baseCommit == Some(base))
    case DropTree(n) =>
      && HasRound(w) && n == Cur(w).number && n in w.inner
      && (Cur(w).baseCommit.None? || (Cur(w).phase == Published && Cur(w).intent.None?))
    case Claim(id, _, start, _) => ClaimMay(w, id, start)
    case MergeCommit(_) => MergeRuns(w)
    case MergeStops => MergeRuns(w)
    case MergeFails(_) => MergeRuns(w)
    case AbortMerge => HasRound(w) && Cur(w).number in w.inner && w.inner[Cur(w).number].operation == Merging
    case Complete => MergeDone(w) && AnnouncedTaskOpen(w)
    case ForwardLead =>
      && HasRound(w) && Captured(Cur(w)) && PublishPending(Cur(w))
      && w.lead.branch.Some? && w.lead.operation == NoOperation && w.lead.clean
      && Ancestor(w.commits, w.lead.head, Cur(w).intent.value.expectedHead) && LeadUnpublished(w)
    case Archive(cleanup, now) =>
      && HasRound(w) && Captured(Cur(w)) && Cur(w).phase == Published && Cur(w).intent.None? && NotBlank(now)
      && (cleanup.Some? ==> OkFailure(cleanup.value))
    case ArchiveUnneeded(snapshot, now) =>
      && HasRound(w) && NotBlank(now)
      && AllCompleted(snapshot, Cur(w).number) && !SomeCode(snapshot, Cur(w).number)
    case Resurrect(failure, now) =>
      && !HasRound(w) && w.state.history != [] && LastRound(w).phase == Published && LastRound(w).intent.None?
      && OkFailure(failure) && NotBlank(now)
    case ForwardMember(name, target) =>
      name in w.members && Exists(w.commits, target) && Ancestor(w.commits, w.members[name].head, target)
    case Outsiders(_, _, _, _) => OutsidersMay(w, a)
  }

  /** A claim that the service has prepared: the task is free, and starts at a head that its round has had. */
  predicate ClaimMay(w: World, id: string, start: Commit) {
    && HasRound(w) && Captured(Cur(w)) && Exists(w.commits, start)
    && Ancestor(w.commits, Cur(w).baseCommit.value, start)
    && id in w.tasks && w.tasks[id].kind == CodeTask && w.tasks[id].status == TaskPending
    && w.tasks[id].assignee.None? && w.tasks[id].integrationRound == Cur(w).number
  }

  predicate OutsidersMay(w: World, a: Action)
    requires a.Outsiders?
  {
    && ValidCommits(w.commits + a.created) && Exists(w.commits + a.created, a.newLead.head)
    && (forall name | name in a.newMembers :: Exists(w.commits + a.created, a.newMembers[name].head))
    && TasksEvolve(w.tasks, a.newTasks) && NewIds(w, a.newTasks)
  }

  /** The record says what the intent announced. */
  predicate Announced(i: Intent, r: Record) {
    && i.task == Some(r.task) && i.sourceCommit == Some(r.sourceCommit) && r.previousHead == i.expectedHead
    && i.memberName == Some(r.memberName) && i.sourceBranch == Some(r.sourceBranch)
  }

  /** Task ids are never used again. */
  predicate NewIds(w: World, tasks: Tasks) {
    HasRound(w) ==>
      && (forall k | 0 <= k < |Cur(w).accepted| ::
            Cur(w).accepted[k].task.taskId in tasks ==> Cur(w).accepted[k].task.taskId in w.tasks)
      && (MergePending(Cur(w)) && Cur(w).intent.value.task.Some? ==>
            (Cur(w).intent.value.task.value.taskId in tasks ==> Cur(w).intent.value.task.value.taskId in w.tasks))
  }

  // ---------------------------------------------------------------------------
  // What an action does
  // ---------------------------------------------------------------------------

  /** The current round is written back. */
  function Put(w: World, r: Round): World {
    w.(state := Written(w.state.(current := Some(r))))
  }

  /** The current round leaves for the history. */
  function Retire(w: World, r: Round): World {
    w.(state := Written(w.state.(current := None, history := w.state.history + [r])))
  }

  function NewRound(number: int, now: string): Round {
    IntegrationRound(number, Active, None, None, None, None, None, None, [], None, None, now, now, None)
  }

  function SetTree(w: World, t: InnerTree): World
    requires HasRound(w)
  {
    w.(inner := w.inner[Cur(w).number := t])
  }

  function MergeIntent(a: Action, expected: Commit): Intent
    requires a.BeginMerge?
  {
    IntegrationIntent(MergeTask, Some(a.key), Some(a.memberName), Some(a.sourceBranch), Some(a.source), expected,
                      Some(a.text), a.now)
  }

  function PublishIntent(expected: Commit, now: string): Intent {
    IntegrationIntent(Publish, None, None, None, None, expected, None, now)
  }

  /** What a write makes of the current round. */
  function Rewritten(w: World, a: Action): Round
    requires Enabled(w, a) && IsWrite(a)
  {
    match a
    case Capture(branch, base, ownerId, root, innerBranch, now) =>
      Cur(w).(targetBranch := Some(branch), baseCommit := Some(base), integrationOwnerId := Some(ownerId),
              integrationRoot := Some(root), integrationBranch := Some(innerBranch), integrationHead := Some(base),
              updatedAt := now)
    case BeginMerge(_, _, _, _, _, _, now) =>
      Cur(w).(phase := Integrating, intent := Some(MergeIntent(a, w.inner[Cur(w).number].head)), failure := None,
              updatedAt := now)
    case Accept(record, now) =>
      Cur(w).(phase := Active, integrationHead := Some(record.integrationHead), accepted := Cur(w).accepted + [record],
                     intent := None, failure := None, updatedAt := now)
    case ClearIntent(phase, failure, now) =>
      Cur(w).(phase := phase, intent := None, failure := failure, updatedAt := now)
    case Block(failure, now) => Cur(w).(phase := Blocked, failure := Some(failure), updatedAt := now)
    case BeginPublish(_, now) =>
      Cur(w).(phase := Publishing, intent := Some(PublishIntent(Cur(w).integrationHead.value, now)), updatedAt := now)
    case MarkPublished(now) =>
      Cur(w).(phase := Published, intent := None, failure := None,
              integrationHead := Some(Cur(w).intent.value.expectedHead), updatedAt := now, publishedAt := Some(now))
    case MarkReady(now) => Cur(w).(phase := Ready, intent := None, failure := None, updatedAt := now)
  }

  function After(w: World, a: Action): World
    requires Enabled(w, a)
  {
    if IsWrite(a) then Put(w, Rewritten(w, a)) else Acted(w, a)
  }

  function Acted(w: World, a: Action): World
    requires Enabled(w, a) && !IsWrite(a)
  {
    match a
    case Assign(now) =>
      w.(state := Written(w.state.(current := Some(NewRound(w.state.nextRound, now)),
                                   nextRound := w.state.nextRound + 1)))
    case CreateTree(n, base) => SetTree(w, InnerTree(base, base, NoOperation, true))
    case DropTree(n) => w.(inner := w.inner - {n})
    case Claim(id, name, start, approval) =>
      w.(tasks := w.tasks[id := w.tasks[id].(status := if approval then TaskAwaitingApproval else TaskInProgress,
                                             assignee := Some(name), startCommit := Some(start))])
    case MergeCommit(clean) =>
      var t := w.inner[Cur(w).number];
      SetTree(w.(commits := w.commits + [[t.head, Cur(w).intent.value.sourceCommit.value]]),
              t.(head := |w.commits|, clean := clean))
    case MergeStops => SetTree(w, w.inner[Cur(w).number].(operation := Merging, clean := false))
    case MergeFails(clean) => SetTree(w, w.inner[Cur(w).number].(clean := clean))
    case AbortMerge => SetTree(w, w.inner[Cur(w).number].(operation := NoOperation, clean := true))
    case Complete =>
      var id, source := Cur(w).intent.value.task.value.taskId, Cur(w).intent.value.sourceCommit;
      w.(tasks := w.tasks[id := w.tasks[id].(status := TaskCompleted, commit := source)])
    case ForwardLead =>
      var target := Cur(w).intent.value.expectedHead;
      if w.lead.head == target then w
      else w.(lead := w.lead.(head := target),
              leadLog := w.leadLog + [ByRound(Cur(w).number, Cur(w).baseCommit.value, w.lead.head, target)])
    case Archive(cleanup, now) =>
      Retire(w, if cleanup.Some? then Cur(w).(failure := cleanup, updatedAt := now) else Cur(w))
    case ArchiveUnneeded(_, now) => Retire(w, Cur(w).(phase := NotNeeded, updatedAt := now, publishedAt := Some(now)))
    case Resurrect(failure, now) =>
      w.(state := Written(w.state.(current := Some(
        LastRound(w).(phase := Blocked, failure := Some(failure), updatedAt := now)))))
    case ForwardMember(name, target) => w.(members := w.members[name := w.members[name].(head := target)])
    case Outsiders(lead, created, members, tasks) =>
      w.(commits := w.commits + created, lead := lead, members := members, tasks := tasks,
         leadLog := if lead.head == w.lead.head then w.leadLog else w.leadLog + [ByOthers(w.lead.head, lead.head)])
  }

  // ---------------------------------------------------------------------------
  // What every world of every run satisfies
  // ---------------------------------------------------------------------------

  ghost predicate GraphOk(w: World) {
    && ValidCommits(w.commits) && Exists(w.commits, w.lead.head)
    && (forall n | n in w.inner :: Exists(w.commits, w.inner[n].head) && Exists(w.commits, w.inner[n].base))
    && (forall name | name in w.members :: Exists(w.commits, w.members[name].head))
  }

  /** Nothing was integrated before the round was captured; afterwards the accepted records chain base to head. */
  ghost predicate RoundOk(g: Commits, r: Round) {
    if r.baseCommit.None? then r.accepted == [] && r.integrationHead.None? && r.targetBranch.None?
    else
      && Captured(r) && Exists(g, r.baseCommit.value) && Exists(g, r.integrationHead.value)
      && Chain(g, r.baseCommit.value, r.accepted, r.integrationHead.value)
      && BeyondBase(g, r.baseCommit.value, r.accepted)
  }

  /** No accepted commit was already in the base. */
  ghost predicate BeyondBase(g: Commits, base: Commit, accepted: seq<Record>) {
    forall i | 0 <= i < |accepted| :: !Ancestor(g, accepted[i].sourceCommit, base)
  }

  ghost predicate ChainsOk(w: World) {
    forall i | 0 <= i < |Rounds(w.state)| :: RoundOk(w.commits, Rounds(w.state)[i])
  }

  /** The heart of the protocol: how the integration branch may stand while the round's record is `r`. */
  ghost predicate Coupled(w: World, r: Round)
    requires Captured(r)
  {
    && r.number in w.inner && w.inner[r.number].base == r.baseCommit.value
    && (w.inner[r.number].head == r.integrationHead.value
        || (MergePending(r) && Landed(w.commits, w.inner[r.number].head, r.intent.value)
            && w.inner[r.number].operation == NoOperation))
  }

  /** Intents announce the next step from the recorded head, and never a task that is already accepted. */
  ghost predicate IntentOk(g: Commits, r: Round) {
    r.intent.Some? ==>
      && Captured(r) && r.intent.value.expectedHead == r.integrationHead.value
      && (r.intent.value.kind == MergeTask ==>
            && FullIntent(r.intent.value) && Exists(g, r.intent.value.sourceCommit.value)
            && !Ancestor(g, r.intent.value.sourceCommit.value, r.baseCommit.value)
            && !IsAccepted(r.accepted, r.intent.value.task.value)
            && NotBlank(r.intent.value.memberName.value) && NotBlank(r.intent.value.sourceBranch.value))
  }

  /** The tree of a published round may be gone, or be a new one that stands at the base. */
  ghost predicate TreeOk(w: World, r: Round) {
    if r.baseCommit.None? then
      r.number in w.inner ==> w.inner[r.number].head == w.inner[r.number].base
    else
      && Captured(r)
      && (MergePending(r) || r.publishedAt.None? ==> Coupled(w, r))
      && (r.number in w.inner ==>
          Coupled(w, r) || (w.inner[r.number].base == w.inner[r.number].head == r.baseCommit.value))
  }

  ghost predicate CurrentOk(w: World) {
    HasRound(w) ==> IntentOk(w.commits, Cur(w)) && TreeOk(w, Cur(w))
  }

  ghost predicate NumbersOk(w: World) {
    && (forall n | n in w.inner :: n < w.state.nextRound)
    && (forall i | 0 <= i < |w.leadLog| && w.leadLog[i].ByRound? :: w.leadLog[i].round < w.state.nextRound)
  }

  /** Accepted attempts and a pending one belong to the round, and the accepted ones are completed as accepted. */
  ghost predicate TasksOk(w: World) {
    HasRound(w) ==> TasksFit(w.tasks, Cur(w))
  }

  ghost predicate TasksFit(tasks: Tasks, r: Round) {
    && (forall k | 0 <= k < |r.accepted| :: RecordFits(tasks, r.accepted[k], r.number))
    && (MergePending(r) && r.intent.value.task.Some? ==> AttemptOfRound(tasks, r.intent.value.task.value, r.number))
  }

  predicate RecordFits(tasks: Tasks, r: Record, number: int) {
    AttemptSettled(tasks, r.task, r.sourceCommit) && AttemptOfRound(tasks, r.task, number)
  }

  /** Work on a task starts no earlier than the base of its round. */
  ghost predicate StartsOk(w: World) {
    forall id | id in w.tasks && w.tasks[id].startCommit.Some? :: StartOk(w, w.tasks[id])
  }

  ghost predicate StartOk(w: World, t: TeamTask)
    requires t.startCommit.Some?
  {
    && t.integrationRound < w.state.nextRound && Exists(w.commits, t.startCommit.value)
    && (HasRound(w) && Cur(w).number == t.integrationRound ==>
          Captured(Cur(w)) && Ancestor(w.commits, Cur(w).baseCommit.value, t.startCommit.value))
  }

  /** What the record says was published has been on the Lead. */
  ghost predicate PublishedOk(w: World) {
    forall i | 0 <= i < |Rounds(w.state)| && Rounds(w.state)[i].phase == Published ::
      PublishedOnLead(w, Rounds(w.state)[i])
  }

  ghost predicate PublishedOnLead(w: World, r: Round) {
    Captured(r) && r.publishedAt.Some? && LeadVisited(w, r.integrationHead.value)
  }

  // ---------------------------------------------------------------------------
  // The Lead branch
  // ---------------------------------------------------------------------------

  /** Publishing moves the Lead forward, from the round's base unless others have just moved it. */
  ghost predicate MoveOk(w: World, i: nat)
    requires i < |w.leadLog|
  {
    var m := w.leadLog[i];
    m.ByRound? ==>
      && m.from != m.to && Ancestor(w.commits, m.from, m.to) && Exists(w.commits, m.to)
      && (m.from == m.base || (i > 0 && w.leadLog[i - 1].ByOthers?))
      && (forall k | 0 <= k < |Rounds(w.state)| && Rounds(w.state)[k].number == m.round ::
          OnRound(w.commits, m, Rounds(w.state)[k]))
  }

  ghost predicate OnRound(g: Commits, m: LeadMove, r: Round)
    requires m.ByRound?
  {
    Captured(r) && r.baseCommit == Some(m.base) && Ancestor(g, m.to, r.integrationHead.value)
  }

  /** Others moved the Lead after entry `i`. */
  ghost predicate DisturbedAfter(log: seq<LeadMove>, i: nat) {
    exists k :: i < k < |log| && log[k].ByOthers?
  }

  /** A round that moved the Lead from its base finds the Lead somewhere else unless others move it. */
  ghost predicate MoveSpent(w: World, i: nat)
    requires i < |w.leadLog|
  {
    var m := w.leadLog[i];
    m.ByRound? && m.from == m.base && HasRound(w) && Cur(w).number == m.round && w.lead.head == m.base ==>
      DisturbedAfter(w.leadLog, i)
  }

  /** Two moves of a round from its base have a move by others between them. */
  ghost predicate MovedTwice(log: seq<LeadMove>, i: nat, j: nat)
    requires i < |log| && j < |log|
  {
    i < j && log[i].ByRound? && log[j].ByRound? && log[i].round == log[j].round && log[i].from == log[i].base
      && log[j].from == log[j].base
  }

  ghost predicate DisturbedBetween(log: seq<LeadMove>, i: nat, j: nat) {
    exists k :: i < k < j && k < |log| && log[k].ByOthers?
  }

  /** Every entry starts where the one before it ended, and the last ends at the Lead's head. */
  ghost predicate LogLinks(w: World) {
    && (forall i | 0 <= i < |w.leadLog| - 1 :: w.leadLog[i].to == w.leadLog[i + 1].from)
    && (w.leadLog != [] ==> w.leadLog[|w.leadLog| - 1].to == w.lead.head)
  }

  ghost predicate LeadOk(w: World) {
    && (forall i | 0 <= i < |w.leadLog| :: MoveOk(w, i))
    && (forall i | 0 <= i < |w.leadLog| :: MoveSpent(w, i))
    && (forall i, j | 0 <= i < |w.leadLog| && 0 <= j < |w.leadLog| && MovedTwice(w.leadLog, i, j) ::
        DisturbedBetween(w.leadLog, i, j))
  }

  ghost predicate Inv(w: World) {
    && WellFormed(w.state)
    && GraphOk(w)
    && ChainsOk(w)
    && CurrentOk(w)
    && NumbersOk(w)
    && TasksOk(w)
    && StartsOk(w)
    && PublishedOk(w)
    && LogLinks(w)
    && LeadOk(w)
  }

  // ---------------------------------------------------------------------------
  // Writing the round back
  // ---------------------------------------------------------------------------

  /** `r` is a later version of `before`: the base stays, and the head moves only forward. */
  ghost predicate Continues(g: Commits, before: Round, r: Round) {
    && r.number == before.number
    && (Captured(before) ==> Captured(r) && r.baseCommit == before.baseCommit
                             && Ancestor(g, before.integrationHead.value, r.integrationHead.value))
  }

  /** The rounds of `b` are those of `a`, but for the last, which is `r`. */
  ghost predicate LastRoundIs(a: State, b: State, r: Round) {
    && a.current.Some? && |Rounds(b)| == |Rounds(a)| && Rounds(b)[|a.history|] == r
    && forall i | 0 <= i < |a.history| :: Rounds(b)[i] == Rounds(a)[i]
  }

  lemma PutRounds(w: World, r: Round)
    requires HasRound(w)
    ensures LastRoundIs(w.state, Put(w, r).state, r) && Rounds(w.state)[|w.state.history|] == Cur(w)
  {
  }

  lemma RetireRounds(w: World, r: Round)
    requires HasRound(w)
    ensures LastRoundIs(w.state, Retire(w, r).state, r) && Rounds(w.state)[|w.state.history|] == Cur(w)
  {
  }

  lemma RewriteKeepsRounds(w: World, v: World, r: Round)
    requires HasRound(w) && ChainsOk(w) && PublishedOk(w)
    requires LastRoundIs(w.state, v.state, r) && v.commits == w.commits && v.lead == w.lead && v.leadLog == w.leadLog
    requires RoundOk(w.commits, r) && (r.phase == Published ==> PublishedOnLead(w, r))
    ensures ChainsOk(v) && PublishedOk(v)
  {
    forall i | 0 <= i < |Rounds(v.state)|
      ensures RoundOk(v.commits, Rounds(v.state)[i])
      ensures Rounds(v.state)[i].phase == Published ==> PublishedOnLead(v, Rounds(v.state)[i])
    {
      if i < |w.state.history| { assert Rounds(v.state)[i] == Rounds(w.state)[i]; }
      if Rounds(v.state)[i].phase == Published { assert PublishedOnLead(w, Rounds(v.state)[i]); }
    }
  }

  lemma RewriteKeepsMoves(w: World, v: World, r: Round)
    requires HasRound(w) && WellFormed(w.state) && LeadOk(w)
    requires LastRoundIs(w.state, v.state, r) && v.commits == w.commits && v.lead == w.lead && v.leadLog == w.leadLog
    requires Rounds(w.state)[|w.state.history|] == Cur(w) && Continues(w.commits, Cur(w), r)
    requires v.state.current == None || v.state.current == Some(r)
    ensures LeadOk(v)
  {
    forall i | 0 <= i < |v.leadLog| ensures MoveOk(v, i) && MoveSpent(v, i) {
      assert MoveOk(w, i) && MoveSpent(w, i);
      var m := v.leadLog[i];
      if m.ByRound? {
        forall k | 0 <= k < |Rounds(v.state)| && Rounds(v.state)[k].number == m.round
          ensures OnRound(v.commits, m, Rounds(v.state)[k])
        {
          assert OnRound(w.commits, m, Rounds(w.state)[k]);
          if k == |w.state.history| {
            AncestorTransitive(w.commits, m.to, Cur(w).integrationHead.value, r.integrationHead.value);
          }
        }
      }
    }
  }

  /** One write of the current round keeps everything, if the new version fits Git and the tasks. */
  lemma PutKeeps(w: World, r: Round)
    requires Inv(w) && HasRound(w) && Continues(w.commits, Cur(w), r)
    requires OkRound(r) && RoundOk(w.commits, r) && IntentOk(w.commits, r) && TreeOk(w, r)
    requires TasksFit(w.tasks, r)
    requires r.phase == Published ==> PublishedOnLead(w, r)
    ensures Inv(Put(w, r))
  {
    var v := Put(w, r);
    UpdateKeepsWellFormed(w.state, r);
    PutRounds(w, r);
    RewriteKeepsRounds(w, v, r);
    RewriteKeepsMoves(w, v, r);
    assert TreeOk(v, r);
    RewriteKeepsStarts(w, v);
  }

  lemma RewriteKeepsStarts(w: World, v: World)
    requires StartsOk(w) && HasRound(w) && v.tasks == w.tasks && v.commits == w.commits
    requires v.state.nextRound == w.state.nextRound && (HasRound(v) ==> Continues(w.commits, Cur(w), Cur(v)))
    ensures StartsOk(v)
  {
    forall id | id in v.tasks && v.tasks[id].startCommit.Some? ensures StartOk(v, v.tasks[id]) {
      assert StartOk(w, w.tasks[id]);
    }
  }

  lemma RetireKeeps(w: World, r: Round)
    requires Inv(w) && HasRound(w) && Continues(w.commits, Cur(w), r)
    requires OkRound(r) && RoundOk(w.commits, r)
    requires r.phase == Published ==> PublishedOnLead(w, r)
    ensures Inv(Retire(w, r))
  {
    var v := Retire(w, r);
    ArchiveKeepsWellFormed(w.state, r);
    RetireRounds(w, r);
    RewriteKeepsRounds(w, v, r);
    RewriteKeepsMoves(w, v, r);
    RewriteKeepsStarts(w, v);
  }

  // ---------------------------------------------------------------------------
  // Each write keeps the invariant
  // ---------------------------------------------------------------------------

  lemma CurrentHolds(w: World)
    requires Inv(w) && HasRound(w)
    ensures OkRound(Cur(w)) && 1 <= Cur(w).number < w.state.nextRound
    ensures RoundOk(w.commits, Cur(w)) && IntentOk(w.commits, Cur(w)) && TreeOk(w, Cur(w))
    ensures Cur(w).phase == Published ==> PublishedOnLead(w, Cur(w))
    ensures TasksFit(w.tasks, Cur(w))
    ensures Captured(Cur(w)) ==> Ancestor(w.commits, Cur(w).integrationHead.value, Cur(w).integrationHead.value)
  {
    CurrentIsOk(w.state);
    assert Rounds(w.state)[|w.state.history|] == Cur(w);
  }

  /** A new round has nothing yet, and no task of it was started. */
  lemma AssignKeepsRounds(w: World, v: World, r: Round)
    requires Inv(w) && !HasRound(w) && v == w.(state := v.state) && HasRound(v) && Cur(v) == r
    requires Rounds(v.state) == Rounds(w.state) + [r] && r.accepted == [] && r.phase == Active && r.intent.None?
    requires r.baseCommit.None? && r.integrationHead.None? && r.targetBranch.None? && r.number == w.state.nextRound
    requires v.state.nextRound == r.number + 1
    ensures ChainsOk(v) && PublishedOk(v) && TasksOk(v) && StartsOk(v)
  {
    forall id | id in v.tasks && v.tasks[id].startCommit.Some? ensures StartOk(v, v.tasks[id]) {
      assert StartOk(w, w.tasks[id]);
    }
    forall i | 0 <= i < |Rounds(v.state)|
      ensures RoundOk(v.commits, Rounds(v.state)[i])
      ensures Rounds(v.state)[i].phase == Published ==> PublishedOnLead(v, Rounds(v.state)[i])
    {
      if i < |Rounds(w.state)| {
        assert RoundOk(w.commits, Rounds(w.state)[i]);
        assert Rounds(w.state)[i].phase == Published ==> PublishedOnLead(w, Rounds(w.state)[i]);
      }
    }
  }

  lemma AssignKeepsMoves(w: World, v: World, r: Round)
    requires Inv(w) && !HasRound(w) && v == w.(state := v.state) && HasRound(v) && Cur(v) == r
    requires Rounds(v.state) == Rounds(w.state) + [r] && r.number == w.state.nextRound
    ensures LeadOk(v)
  {
    forall i | 0 <= i < |v.leadLog| ensures MoveOk(v, i) && MoveSpent(v, i) {
      assert MoveOk(w, i) && MoveSpent(w, i);
    }
  }

  lemma AssignKeeps(w: World, a: Action)
    requires a.Assign? && Inv(w) && Enabled(w, a)
    ensures Inv(After(w, a))
  {
    var v := After(w, a);
    var r := NewRound(w.state.nextRound, a.now);
    AssignKeepsWellFormed(w.state, r);
    assert Rounds(v.state) == Rounds(w.state) + [r];
    AssignKeepsRounds(w, v, r);
    AssignKeepsMoves(w, v, r);
  }

  lemma CaptureKeeps(w: World, a: Action)
    requires a.Capture? && Inv(w) && Enabled(w, a)
    ensures Inv(After(w, a))
  {
    assert GraphOk(w);
    hide Inv;
    CurrentHolds(w);
    PutKeeps(w, After(w, a).state.current.value);
  }

  /** What has commits of its own since the base is not in the base. */
  lemma NewWorkIsBeyond(g: Commits, base: Commit, start: Commit, source: Commit)
    requires Ancestor(g, base, start) && Ancestor(g, start, source) && source != start
    ensures !Ancestor(g, source, base)
  {
    if Ancestor(g, source, base) {
      AncestorTransitive(g, source, base, start);
      AncestorIsOlder(g, source, start);
      AncestorIsOlder(g, start, source);
    }
  }

  lemma BeginMergeKeeps(w: World, a: Action)
    requires a.BeginMerge? && Inv(w) && Enabled(w, a)
    ensures Inv(After(w, a))
  {
    hide Inv;
    CurrentHolds(w);
    NewWorkIsBeyond(w.commits, Cur(w).baseCommit.value, a.start, a.source);
    PutKeeps(w, After(w, a).state.current.value);
  }

  lemma AcceptedFits(tasks: Tasks, r: Round, record: Record)
    requires TasksFit(tasks, r) && OkRound(r) && OkRecord(record) && MergePending(r)
    requires r.intent.value.task == Some(record.task) && AttemptSettled(tasks, record.task, record.sourceCommit)
    ensures forall k | 0 <= k < |r.accepted + [record]| ::
        RecordFits(tasks, (r.accepted + [record])[k], r.number) && OkRecord((r.accepted + [record])[k])
  {
    assert forall k | 0 <= k < |r.accepted| :: RecordFits(tasks, r.accepted[k], r.number);
  }

  lemma AcceptedRoundIsOk(g: Commits, before: Round, r: Round, record: Record)
    requires ValidCommits(g) && RoundOk(g, before) && Captured(before) && Link(g, record)
    requires Some(record.previousHead) == before.integrationHead && Exists(g, record.integrationHead)
    requires !Ancestor(g, record.sourceCommit, before.baseCommit.value)
    requires r.number == before.number && r.baseCommit == before.baseCommit && r.targetBranch == before.targetBranch
    requires r.accepted == before.accepted + [record] && r.integrationHead == Some(record.integrationHead)
    ensures RoundOk(g, r) && Continues(g, before, r)
  {
    ChainNext(g, before.baseCommit.value, before.accepted, record);
    LinkReaches(g, record);
  }

  lemma AcceptKeeps(w: World, a: Action)
    requires a.Accept? && Inv(w) && Enabled(w, a)
    ensures Inv(After(w, a))
  {
    assert GraphOk(w);
    hide Inv;
    CurrentHolds(w);
    var r := After(w, a).state.current.value;
    AcceptedRoundIsOk(w.commits, Cur(w), r, a.record);
    hide RoundOk, Continues, Link;
    AcceptKeepsUnique(Cur(w).accepted, a.record);
    AcceptedFits(w.tasks, Cur(w), a.record);
    PutKeeps(w, r);
  }

  lemma ClearIntentKeeps(w: World, a: Action)
    requires a.ClearIntent? && Inv(w) && Enabled(w, a)
    ensures Inv(After(w, a))
  {
    hide Inv;
    CurrentHolds(w);
    PutKeeps(w, After(w, a).state.current.value);
  }

  lemma BlockKeeps(w: World, a: Action)
    requires a.Block? && Inv(w) && Enabled(w, a)
    ensures Inv(After(w, a))
  {
    hide Inv;
    CurrentHolds(w);
    PutKeeps(w, After(w, a).state.current.value);
  }

  lemma BeginPublishKeeps(w: World, a: Action)
    requires a.BeginPublish? && Inv(w) && Enabled(w, a)
    ensures Inv(After(w, a))
  {
    hide Inv;
    CurrentHolds(w);
    PutKeeps(w, After(w, a).state.current.value);
  }

  lemma EndPublishKeeps(w: World, a: Action)
    requires a.MarkPublished? || a.MarkReady?
    requires Inv(w) && Enabled(w, a)
    ensures Inv(After(w, a))
  {
    hide Inv;
    CurrentHolds(w);
    PutKeeps(w, After(w, a).state.current.value);
  }

  lemma ArchivingKeeps(w: World, a: Action)
    requires a.Archive? || a.ArchiveUnneeded?
    requires Inv(w) && Enabled(w, a)
    ensures Inv(After(w, a))
  {
    hide Inv;
    CurrentHolds(w);
    RetireKeeps(w, After(w, a).state.history[|w.state.history|]);
  }

  // ---------------------------------------------------------------------------
  // Git and the tasks
  // ---------------------------------------------------------------------------

  lemma GrowthKeepsRound(g: Commits, h: Commits, r: Round)
    requires ValidCommits(g) && g <= h && RoundOk(g, r) && r.baseCommit.Some?
    ensures RoundOk(h, r)
  {
    ChainPersists(g, h, r.baseCommit.value, r.accepted, r.integrationHead.value);
    forall i | 0 <= i < |r.accepted| ensures !Ancestor(h, r.accepted[i].sourceCommit, r.baseCommit.value) {
      AncestorAppend(g, h, r.accepted[i].sourceCommit, r.baseCommit.value);
    }
  }

  lemma GrowthKeepsRounds(w: World, v: World)
    requires GraphOk(w) && ChainsOk(w) && PublishedOk(w)
    requires v.state == w.state && w.commits <= v.commits
    requires forall c | LeadVisited(w, c) :: LeadVisited(v, c)
    ensures ChainsOk(v) && PublishedOk(v)
  {
    forall i | 0 <= i < |Rounds(v.state)|
      ensures RoundOk(v.commits, Rounds(v.state)[i])
      ensures Rounds(v.state)[i].phase == Published ==> PublishedOnLead(v, Rounds(v.state)[i])
    {
      var r := Rounds(w.state)[i];
      assert RoundOk(w.commits, r);
      if r.baseCommit.Some? { GrowthKeepsRound(w.commits, v.commits, r); }
      if r.phase == Published { assert PublishedOnLead(w, r); }
    }
  }

  lemma GrowthKeepsMove(w: World, v: World, i: nat)
    requires GraphOk(w) && ChainsOk(w) && i < |w.leadLog| && MoveOk(w, i)
    requires v.state == w.state && w.commits <= v.commits && |w.leadLog| <= |v.leadLog|
    requires v.leadLog[..|w.leadLog|] == w.leadLog
    ensures MoveOk(v, i)
  {
    var m := w.leadLog[i];
    assert v.leadLog[i] == m && (i > 0 ==> v.leadLog[i - 1] == w.leadLog[i - 1]);
    if m.ByRound? {
      AncestorAppend(w.commits, v.commits, m.from, m.to);
      forall k | 0 <= k < |Rounds(v.state)| && Rounds(v.state)[k].number == m.round
        ensures OnRound(v.commits, m, Rounds(v.state)[k])
      {
        var r := Rounds(w.state)[k];
        assert OnRound(w.commits, m, r) && RoundOk(w.commits, r);
        AncestorAppend(w.commits, v.commits, m.to, r.integrationHead.value);
      }
    }
  }

  /** The Lead and its log stay; commits may be added. */
  lemma GrowthKeepsLead(w: World, v: World)
    requires GraphOk(w) && ChainsOk(w) && LeadOk(w)
    requires v.state == w.state && w.commits <= v.commits && v.lead == w.lead && v.leadLog == w.leadLog
    ensures LeadOk(v)
  {
    assert v.leadLog[..|w.leadLog|] == w.leadLog;
    forall i | 0 <= i < |v.leadLog| ensures MoveOk(v, i) && MoveSpent(v, i) {
      assert MoveOk(w, i) && MoveSpent(w, i);
      GrowthKeepsMove(w, v, i);
    }
  }

  /** Only integration trees change. */
  lemma TreesKeep(w: World, v: World)
    requires Inv(w) && v == w.(inner := v.inner) && GraphOk(v) && NumbersOk(v)
    requires HasRound(v) ==> TreeOk(v, Cur(v))
    ensures Inv(v)
  {
    GrowthKeepsRounds(w, v);
    GrowthKeepsLead(w, v);
    TasksStay(w, v);
  }

  lemma TreeSetUpKeeps(w: World, a: Action)
    requires a.CreateTree? || a.DropTree?
    requires Inv(w) && Enabled(w, a)
    ensures Inv(After(w, a))
  {
    CurrentHolds(w);
    TreesKeep(w, After(w, a));
  }

  /** The head stays, and a merge that has landed leaves no operation behind. */
  lemma SameHeadKeeps(w: World, t: InnerTree)
    requires Inv(w) && HasRound(w) && Cur(w).number in w.inner
    requires t.head == w.inner[Cur(w).number].head && t.base == w.inner[Cur(w).number].base
    requires t.operation == NoOperation || Some(t.head) == Cur(w).integrationHead
    ensures Inv(SetTree(w, t))
  {
    CurrentHolds(w);
    TreesKeep(w, SetTree(w, t));
  }

  lemma MergeStateKeeps(w: World, a: Action)
    requires a.MergeStops? || a.MergeFails? || a.AbortMerge?
    requires Inv(w) && Enabled(w, a)
    ensures Inv(After(w, a))
  {
    CurrentHolds(w);
    hide Inv;
    SameHeadKeeps(w, After(w, a).inner[Cur(w).number]);
  }

  lemma TasksStay(w: World, v: World)
    requires TasksOk(w) && StartsOk(w) && ChainsOk(w) && v.state == w.state && v.tasks == w.tasks
        && w.commits <= v.commits
    ensures TasksOk(v) && StartsOk(v)
  {
    forall id | id in v.tasks && v.tasks[id].startCommit.Some? ensures StartOk(v, v.tasks[id]) {
      assert StartOk(w, w.tasks[id]);
      GrowthKeepsStart(w, v, w.tasks[id]);
    }
  }

  lemma GrowthKeepsStart(w: World, v: World, t: TeamTask)
    requires t.startCommit.Some? && StartOk(w, t) && v.state == w.state && w.commits <= v.commits
    ensures StartOk(v, t)
  {
    if HasRound(w) && Captured(Cur(w)) {
      AncestorAppend(w.commits, v.commits, Cur(w).baseCommit.value, t.startCommit.value);
    }
  }

  /** The pending intent still fits when commits are added. */
  lemma GrowthKeepsIntent(w: World, v: World)
    requires HasRound(w) && RoundOk(w.commits, Cur(w)) && IntentOk(w.commits, Cur(w)) && v.state == w.state
        && w.commits <= v.commits
    ensures IntentOk(v.commits, Cur(v))
  {
    if MergePending(Cur(w)) {
      AncestorAppend(w.commits, v.commits, Cur(w).intent.value.sourceCommit.value, Cur(w).baseCommit.value);
    }
  }

  lemma MergeCommitKeeps(w: World, a: Action)
    requires a.MergeCommit? && Inv(w) && Enabled(w, a)
    ensures Inv(After(w, a))
  {
    var v := After(w, a);
    CurrentHolds(w);
    NewCommitIsValid(w.commits, Cur(w).intent.value.expectedHead, Cur(w).intent.value.sourceCommit.value);
    GrowthKeepsRounds(w, v);
    GrowthKeepsLead(w, v);
    GrowthKeepsIntent(w, v);
    TasksStay(w, v);
  }

  lemma ForwardMemberKeeps(w: World, a: Action)
    requires a.ForwardMember? && Inv(w) && Enabled(w, a)
    ensures Inv(After(w, a))
  {
    GrowthKeepsRounds(w, After(w, a));
    GrowthKeepsLead(w, After(w, a));
    TasksStay(w, After(w, a));
  }

  /** Only tasks change. */
  lemma TaskChangeKeeps(w: World, v: World)
    requires Inv(w) && v == w.(tasks := v.tasks) && TasksOk(v) && StartsOk(v)
    ensures Inv(v)
  {
    GrowthKeepsRounds(w, v);
    GrowthKeepsLead(w, v);
  }

  /** The task stays in its attempt and of its kind and round, and is completed only by the announced merge. */
  predicate StaysFitting(w: World, before: TeamTask, after: TeamTask) {
    && after.attempt == before.attempt && after.kind == before.kind && after.integrationRound == before.integrationRound
    && (before.status == TaskCompleted ==> after.status == TaskCompleted && after.commit == before.commit)
  }

  lemma OneTaskStaysFitting(w: World, v: World, id: string)
    requires TasksOk(w) && id in w.tasks && id in v.tasks && v == w.(tasks := w.tasks[id := v.tasks[id]])
    requires StaysFitting(w, w.tasks[id], v.tasks[id])
    ensures TasksOk(v)
  {
    if HasRound(v) {
      forall k | 0 <= k < |Cur(v).accepted| ensures RecordFits(v.tasks, Cur(v).accepted[k], Cur(v).number) {
        assert RecordFits(w.tasks, Cur(w).accepted[k], Cur(w).number);
      }
    }
  }

  lemma CompleteKeeps(w: World, a: Action)
    requires a.Complete? && Inv(w) && Enabled(w, a)
    ensures Inv(After(w, a))
  {
    var v, id := After(w, a), Cur(w).intent.value.task.value.taskId;
    assert TasksOk(w) && StartsOk(w);
    hide Inv, TasksOk, StartOk;
    assert v == w.(tasks := w.tasks[id := v.tasks[id]]);
    OneTaskStaysFitting(w, v, id);
    StartsStay(w, v);
    TaskChangeKeeps(w, v);
  }

  lemma StartsStay(w: World, v: World)
    requires StartsOk(w) && v == w.(tasks := v.tasks)
    requires forall id | id in v.tasks && v.tasks[id].startCommit.Some? ::
      && id in w.tasks && w.tasks[id].startCommit == v.tasks[id].startCommit
      && w.tasks[id].integrationRound == v.tasks[id].integrationRound
    ensures StartsOk(v)
  {
    forall id | id in v.tasks && v.tasks[id].startCommit.Some? ensures StartOk(v, v.tasks[id]) {
      assert StartOk(w, w.tasks[id]);
    }
  }

  lemma ClaimKeeps(w: World, a: Action)
    requires a.Claim? && Inv(w) && Enabled(w, a)
    ensures Inv(After(w, a))
  {
    var v := After(w, a);
    CurrentHolds(w);
    assert TasksOk(w) && StartsOk(w);
    hide Inv, TasksOk;
    OneTaskStaysFitting(w, v, a.taskId);
    forall id | id in v.tasks && v.tasks[id].startCommit.Some? ensures StartOk(v, v.tasks[id]) {
      if id != a.taskId { assert StartOk(w, w.tasks[id]); }
    }
    TaskChangeKeeps(w, v);
  }

  // ---------------------------------------------------------------------------
  // Moving the Lead
  // ---------------------------------------------------------------------------

  /** One entry is added to the log of the Lead. */
  ghost predicate Logged(w: World, v: World, m: LeadMove) {
    v.leadLog == w.leadLog + [m] && m.from == w.lead.head && m.to == v.lead.head
  }

  lemma LoggedVisits(w: World, v: World, m: LeadMove)
    requires Logged(w, v, m)
    ensures forall c | LeadVisited(w, c) :: LeadVisited(v, c)
  {
    assert v.leadLog[|w.leadLog|] == m;
    forall c | LeadVisited(w, c) ensures LeadVisited(v, c) {
      if w.lead.head != c {
        var i :| 0 <= i < |w.leadLog| && w.leadLog[i].from == c;
        assert v.leadLog[i].from == c;
      }
    }
  }

  lemma DisturbedLater(log: seq<LeadMove>, m: LeadMove, i: nat)
    requires i < |log|
    ensures DisturbedAfter(log, i) || m.ByOthers? ==> DisturbedAfter(log + [m], i)
    ensures DisturbedAfter(log, i) ==> DisturbedBetween(log + [m], i, |log|)
  {
    assert (log + [m])[|log|] == m;
    if DisturbedAfter(log, i) {
      var k :| i < k < |log| && log[k].ByOthers?;
      assert (log + [m])[k].ByOthers?;
    }
  }

  lemma OldMovesStayApart(w: World, v: World, m: LeadMove)
    requires LeadOk(w) && Logged(w, v, m)
    ensures forall i, j | 0 <= i < |w.leadLog| && 0 <= j < |w.leadLog| && MovedTwice(v.leadLog, i, j) ::
        DisturbedBetween(v.leadLog, i, j)
  {
    forall i, j | 0 <= i < |w.leadLog| && 0 <= j < |w.leadLog| && MovedTwice(v.leadLog, i, j)
      ensures DisturbedBetween(v.leadLog, i, j)
    {
      assert MovedTwice(w.leadLog, i, j);
      var k :| i < k < j && k < |w.leadLog| && w.leadLog[k].ByOthers?;
      assert v.leadLog[k].ByOthers?;
    }
  }

  /** Others move the Lead: every earlier move counts as disturbed from now on. */
  lemma OthersKeepLeadOk(w: World, v: World)
    requires GraphOk(w) && ChainsOk(w) && LeadOk(w) && v.state == w.state && w.commits <= v.commits
    requires Logged(w, v, ByOthers(w.lead.head, v.lead.head))
    ensures LeadOk(v)
  {
    var m, n := ByOthers(w.lead.head, v.lead.head), |w.leadLog|;
    assert v.leadLog[..n] == w.leadLog && v.leadLog[n] == m;
    forall i | 0 <= i < |v.leadLog| ensures MoveOk(v, i) && MoveSpent(v, i) {
      if i < n {
        assert MoveOk(w, i);
        GrowthKeepsMove(w, v, i);
        DisturbedLater(w.leadLog, m, i);
      }
    }
    OldMovesStayApart(w, v, m);
  }

  /** What others do to tasks completes no code task and takes no completion back. */
  lemma EvolvedTasksFit(w: World, v: World)
    requires TasksOk(w) && StartsOk(w) && v.state == w.state && w.commits <= v.commits
    requires TasksEvolve(w.tasks, v.tasks) && NewIds(w, v.tasks)
    ensures TasksOk(v) && StartsOk(v)
  {
    forall id | id in v.tasks && v.tasks[id].startCommit.Some? ensures StartOk(v, v.tasks[id]) {
      assert id in w.tasks && Evolves(w.tasks[id], v.tasks[id]);
      assert StartOk(w, w.tasks[id]);
      GrowthKeepsStart(w, v, v.tasks[id]);
    }
    if HasRound(v) {
      forall k | 0 <= k < |Cur(v).accepted| ensures RecordFits(v.tasks, Cur(v).accepted[k], Cur(v).number) {
        var key := Cur(w).accepted[k].task;
        assert RecordFits(w.tasks, Cur(w).accepted[k], Cur(w).number);
        if key.taskId in v.tasks { assert Evolves(w.tasks[key.taskId], v.tasks[key.taskId]); }
      }
    }
  }

  lemma OutsidersKeep(w: World, a: Action)
    requires a.Outsiders? && Inv(w) && Enabled(w, a)
    ensures Inv(After(w, a))
  {
    var v := After(w, a);
    assert w.commits <= v.commits;
    if v.lead.head == w.lead.head {
      assert forall c | LeadVisited(w, c) :: LeadVisited(v, c);
      LeadUntouched(w, v);
    } else {
      LoggedVisits(w, v, ByOthers(w.lead.head, v.lead.head));
      OthersKeepLeadOk(w, v);
    }
    GrowthKeepsRounds(w, v);
    EvolvedTasksFit(w, v);
    if HasRound(w) {
      CurrentHolds(w);
      GrowthKeepsIntent(w, v);
    }
  }

  lemma LeadUntouched(w: World, v: World)
    requires GraphOk(w) && ChainsOk(w) && LeadOk(w) && v.state == w.state && w.commits <= v.commits
    requires v.lead.head == w.lead.head && v.leadLog == w.leadLog
    ensures LeadOk(v)
  {
    assert v.leadLog[..|w.leadLog|] == w.leadLog;
    forall i | 0 <= i < |v.leadLog| ensures MoveOk(v, i) && MoveSpent(v, i) {
      assert MoveOk(w, i) && MoveSpent(w, i);
      GrowthKeepsMove(w, v, i);
    }
  }

  /** A publish from the base finds no earlier one of the same round that nobody disturbed. */
  lemma PublishIsFirst(w: World, i: nat, m: LeadMove)
    requires LeadOk(w) && HasRound(w) && i < |w.leadLog|
    requires m.ByRound? && m.from == m.base == w.lead.head && m.round == Cur(w).number
        && Cur(w).baseCommit == Some(m.base)
    requires MovedTwice(w.leadLog + [m], i, |w.leadLog|)
    requires OnRoundNumber(w, i)
    ensures DisturbedBetween(w.leadLog + [m], i, |w.leadLog|)
  {
    assert MoveSpent(w, i);
    assert (w.leadLog + [m])[i] == w.leadLog[i] && (w.leadLog + [m])[|w.leadLog|] == m;
    DisturbedLater(w.leadLog, m, i);
  }

  /** The entry's base is the base of the current round. */
  ghost predicate OnRoundNumber(w: World, i: nat)
    requires i < |w.leadLog|
  {
    w.leadLog[i].ByRound? && HasRound(w) && w.leadLog[i].round == Cur(w).number ==>
      Cur(w).baseCommit == Some(w.leadLog[i].base)
  }

  lemma EntryHasRoundsBase(w: World, i: nat)
    requires LeadOk(w) && i < |w.leadLog|
    ensures OnRoundNumber(w, i)
  {
    assert MoveOk(w, i);
    if w.leadLog[i].ByRound? && HasRound(w) && w.leadLog[i].round == Cur(w).number {
      assert OnRound(w.commits, w.leadLog[i], Rounds(w.state)[|w.state.history|]);
    }
  }

  lemma NewMoveIsOk(w: World, v: World, m: LeadMove)
    requires Inv(w) && HasRound(w) && Captured(Cur(w)) && Logged(w, v, m) && v.state == w.state
        && v.commits == w.commits
    requires m.ByRound? && m.round == Cur(w).number && Cur(w).baseCommit == Some(m.base) && m.from != m.to
    requires Cur(w).integrationHead == Some(m.to) && Ancestor(w.commits, m.from, m.to) && Exists(w.commits, m.to)
    requires m.from == m.base || LastByOthers(w.leadLog)
    ensures MoveOk(v, |w.leadLog|)
  {
    assert v.leadLog[|w.leadLog|] == m
      && (w.leadLog != [] ==> v.leadLog[|w.leadLog| - 1] == w.leadLog[|w.leadLog| - 1]);
    CurrentIsOk(w.state);
    assert Rounds(w.state)[|w.state.history|] == Cur(w);
    assert forall k | 0 <= k < |w.state.history| ::
      Rounds(w.state)[k].number < Rounds(w.state)[|w.state.history|].number;
  }

  lemma NewMoveIsSpent(w: World, v: World, m: LeadMove, i: nat)
    requires Inv(w) && HasRound(w) && Logged(w, v, m) && v.state == w.state && i < |w.leadLog|
    requires m.ByRound? && m.round == Cur(w).number && Cur(w).baseCommit == Some(m.base)
    requires m.from == m.base || LastByOthers(w.leadLog)
    ensures MoveSpent(v, i)
  {
    assert v.leadLog[i] == w.leadLog[i] && MoveSpent(w, i);
    EntryHasRoundsBase(w, i);
    DisturbedLater(w.leadLog, m, i);
    var e := w.leadLog[i];
    if e.ByRound? && e.from == e.base && e.round == Cur(w).number && m.from != m.base {
      assert i != |w.leadLog| - 1;
      assert w.leadLog[|w.leadLog| - 1].ByOthers?;
    }
  }

  lemma ForwardLeadKeeps(w: World, a: Action)
    requires a.ForwardLead? && Inv(w) && Enabled(w, a)
    ensures Inv(After(w, a))
  {
    var v := After(w, a);
    var target := Cur(w).intent.value.expectedHead;
    CurrentHolds(w);
    if w.lead.head != target {
      var m := ByRound(Cur(w).number, Cur(w).baseCommit.value, w.lead.head, target);
      PublishMovesLead(w, v, m);
    }
  }

  lemma PublishMovesLead(w: World, v: World, m: LeadMove)
    requires Inv(w) && HasRound(w) && Captured(Cur(w)) && Logged(w, v, m)
    requires v == w.(lead := v.lead, leadLog := v.leadLog)
    requires m.ByRound? && m.round == Cur(w).number && Cur(w).baseCommit == Some(m.base) && m.from != m.to
    requires Cur(w).integrationHead == Some(m.to) && Ancestor(w.commits, m.from, m.to) && Exists(w.commits, m.to)
    requires m.from == m.base || LastByOthers(w.leadLog)
    ensures Inv(v)
  {
    var n := |w.leadLog|;
    assert v.leadLog[n] == m && v.leadLog[..n] == w.leadLog;
    CurrentIsOk(w.state);
    LoggedVisits(w, v, m);
    GrowthKeepsRounds(w, v);
    TasksStay(w, v);
    PublishKeepsLeadOk(w, v, m);
  }

  lemma PublishKeepsLeadOk(w: World, v: World, m: LeadMove)
    requires Inv(w) && HasRound(w) && Captured(Cur(w)) && Logged(w, v, m)
    requires v == w.(lead := v.lead, leadLog := v.leadLog)
    requires m.ByRound? && m.round == Cur(w).number && Cur(w).baseCommit == Some(m.base) && m.from != m.to
    requires Cur(w).integrationHead == Some(m.to) && Ancestor(w.commits, m.from, m.to) && Exists(w.commits, m.to)
    requires m.from == m.base || LastByOthers(w.leadLog)
    ensures LeadOk(v)
  {
    var n := |w.leadLog|;
    assert v.leadLog[n] == m && v.leadLog[..n] == w.leadLog;
    NewMoveIsOk(w, v, m);
    assert LeadOk(w) && GraphOk(w) && ChainsOk(w) && WellFormed(w.state);
    hide Inv, MoveOk, MoveSpent, MovedTwice, DisturbedBetween, ChainsOk, GraphOk, Logged, WellFormed;
    forall i | 0 <= i < |v.leadLog| ensures MoveOk(v, i) && MoveSpent(v, i) {
      if i < n {
        assert MoveOk(w, i);
        GrowthKeepsMove(w, v, i);
        NewMoveIsSpent(w, v, m, i);
      }
    }
    OldMovesStayApart(w, v, m);
    forall i, j | 0 <= i < |v.leadLog| && 0 <= j < |v.leadLog| && MovedTwice(v.leadLog, i, j)
      ensures DisturbedBetween(v.leadLog, i, j)
    {
      if j == n {
        EntryHasRoundsBase(w, i);
        PublishIsFirst(w, i, m);
      }
    }
  }

  // ---------------------------------------------------------------------------
  // Every run
  // ---------------------------------------------------------------------------

  /** Writes that replace the current round. */
  lemma WriteKeepsInv(w: World, a: Action)
    requires Inv(w) && Enabled(w, a) && IsWrite(a)
    ensures Inv(After(w, a))
  {
    hide Inv, MayHappen, After;
    if a.Capture? { CaptureKeeps(w, a); }
    else if a.BeginMerge? { BeginMergeKeeps(w, a); }
    else if a.Accept? { AcceptKeeps(w, a); }
    else if a.ClearIntent? { ClearIntentKeeps(w, a); }
    else if a.Block? { BlockKeeps(w, a); }
    else if a.BeginPublish? { BeginPublishKeeps(w, a); }
    else { EndPublishKeeps(w, a); }
  }

  lemma TreeKeepsInv(w: World, a: Action)
    requires Inv(w) && Enabled(w, a)
    requires a.CreateTree? || a.DropTree? || a.MergeCommit? || a.MergeStops? || a.MergeFails? || a.AbortMerge?
    ensures Inv(After(w, a))
  {
    hide Inv, MayHappen, After;
    if a.MergeCommit? { MergeCommitKeeps(w, a); }
    else if a.CreateTree? || a.DropTree? { TreeSetUpKeeps(w, a); }
    else { MergeStateKeeps(w, a); }
  }

  /** Whatever happens, in whatever order, and wherever a crash falls: the next world is again one of these. */
  lemma ActionKeepsInv(w: World, a: Action)
    requires Inv(w) && Enabled(w, a) && !a.Resurrect?
    ensures Inv(After(w, a))
  {
    hide Inv, MayHappen, After;
    if IsWrite(a) { WriteKeepsInv(w, a); }
    else if a.Assign? { AssignKeeps(w, a); }
    else if a.Archive? || a.ArchiveUnneeded? { ArchivingKeeps(w, a); }
    else if a.Complete? { CompleteKeeps(w, a); }
    else if a.Claim? { ClaimKeeps(w, a); }
    else if a.ForwardLead? { ForwardLeadKeeps(w, a); }
    else if a.ForwardMember? { ForwardMemberKeeps(w, a); }
    else if a.Outsiders? { OutsidersKeep(w, a); }
    else { TreeKeepsInv(w, a); }
  }

  /** A run: its worlds, one more than its actions. */
  ghost predicate IsRun(worlds: seq<World>, actions: seq<Action>) {
    && |worlds| == |actions| + 1
    && forall k | 0 <= k < |actions| :: Steps(worlds[k], actions[k], worlds[k + 1])
  }

  ghost predicate Steps(w: World, a: Action, v: World) {
    Enabled(w, a) && v == After(w, a)
  }

  /** Nothing integrated yet: a repository, a team that has completed no code task, and no integration record. */
  ghost predicate Initial(w: World) {
    && w.state == TeamIntegrationState(1, 1, None, []) && w.inner == map[] && w.leadLog == [] && GraphOk(w)
    && (forall id | id in w.tasks :: NewTask(w.tasks[id]))
  }

  lemma InitialIsOk(w: World)
    requires Initial(w)
    ensures Holds(w)
  {
  }

  /** The world without the copy of the archived round. */
  function Intact(w: World): World {
    if Resurrected(w) then w.(state := w.state.(current := None)) else w
  }

  /** The current round is the archived one, blocked. */
  ghost predicate IsCopy(w: World)
    requires Resurrected(w)
  {
    && LastRound(w).phase == Published && LastRound(w).intent.None? && Cur(w).failure.Some? && OkRound(Cur(w))
    && Cur(w) == LastRound(w).(phase := Blocked, failure := Cur(w).failure, updatedAt := Cur(w).updatedAt)
  }

  /** The invariant, of every world: apart from the copy of an archived round, all is well. */
  ghost predicate Holds(w: World) {
    Inv(Intact(w)) && (Resurrected(w) ==> IsCopy(w))
  }

  /** The strict parser wants round numbers to increase. */
  lemma CopyIsRefused(w: World)
    requires Resurrected(w)
    ensures !Increasing(Rounds(w.state)) && !WellFormed(w.state)
  {
    ResurrectedRoundIsRefused(w.state);
  }

  /** The file parses exactly as long as no archived round was written back. */
  lemma ReadableUnlessResurrected(w: World)
    requires Holds(w)
    ensures WellFormed(w.state) <==> !Resurrected(w)
  {
    if Resurrected(w) { CopyIsRefused(w); }
  }

  lemma InvIsReadable(w: World)
    requires Inv(w)
    ensures !Resurrected(w) && Intact(w) == w && Holds(w)
  {
    if Resurrected(w) { CopyIsRefused(w); }
  }

  lemma RevisionIsFree(w: World, v: World)
    requires Inv(w) && !HasRound(w) && v == w.(state := w.state.(revision := w.state.revision + 1))
    ensures Inv(v)
  {
    assert Rounds(v.state) == Rounds(w.state);
    forall i | 0 <= i < |v.leadLog| ensures MoveOk(v, i) && MoveSpent(v, i) { assert MoveOk(w, i) && MoveSpent(w, i); }
    forall id | id in v.tasks && v.tasks[id].startCommit.Some? ensures StartOk(v, v.tasks[id]) {
      assert StartOk(w, w.tasks[id]);
    }
    forall i | 0 <= i < |Rounds(v.state)| && Rounds(v.state)[i].phase == Published
      ensures PublishedOnLead(v, Rounds(v.state)[i])
    {
      assert PublishedOnLead(w, Rounds(w.state)[i]);
    }
  }

  /** In a world with an unreadable file only others act, as if the copy were not there. */
  lemma OthersKeepCopy(w: World, a: Action)
    requires Holds(w) && Resurrected(w) && Enabled(w, a)
    ensures Holds(After(w, a)) && Resurrected(After(w, a))
  {
    hide Inv;
    var u, v := Intact(w), After(w, a);
    assert v.state == w.state && a.Outsiders?;
    assert !HasRound(u) && Enabled(u, a);
    assert Intact(v) == After(u, a);
    OutsidersKeep(u, a);
  }

  lemma CopyKeeps(w: World, a: Action)
    requires a.Resurrect? && Holds(w) && Enabled(w, a)
    ensures Holds(After(w, a)) && Resurrected(After(w, a))
  {
    var v := After(w, a);
    assert Intact(w) == w;
    CopyIsCopy(w, a);
    assert Intact(v) == w.(state := w.state.(revision := w.state.revision + 1));
    hide Inv, IsCopy;
    RevisionIsFree(w, Intact(v));
  }

  lemma CopyLeavesIntact(w: World, a: Action, v: World)
    requires a.Resurrect? && Enabled(w, a) && v == After(w, a)
    ensures Resurrected(v) && Intact(v) == w.(state := Written(w.state))
  {
    assert v.state.current.Some? && w.state.(current := None) == w.state;
  }

  lemma CopyIsCopy(w: World, a: Action)
    requires WellFormed(w.state) && a.Resurrect? && Enabled(w, a)
    ensures Resurrected(After(w, a)) && IsCopy(After(w, a))
  {
    assert Rounds(w.state)[|w.state.history| - 1] == LastRound(w);
  }

  lemma ActionKeeps(w: World, a: Action)
    requires Holds(w) && Enabled(w, a)
    ensures Holds(After(w, a))
    ensures Resurrected(After(w, a)) <==> Resurrected(w) || a.Resurrect?
  {
    if Resurrected(w) { OthersKeepCopy(w, a); }
    else if a.Resurrect? { CopyKeeps(w, a); }
    else {
      ActionKeepsInv(w, a);
      InvIsReadable(After(w, a));
    }
  }

  /** In every world of every run all is well, and the file is readable unless an archived round was written back. */
  lemma {:induction false} RunKeepsInv(worlds: seq<World>, actions: seq<Action>, k: nat)
    requires IsRun(worlds, actions) && k < |worlds| && Holds(worlds[0])
    ensures Holds(worlds[k])
    ensures Resurrected(worlds[k]) <==> Resurrected(worlds[0]) || exists j :: 0 <= j < k && actions[j].Resurrect?
  {
    hide Holds, Resurrected;
    if k > 0 {
      RunKeepsInv(worlds, actions, k - 1);
      assert Steps(worlds[k - 1], actions[k - 1], worlds[k]);
      ActionKeeps(worlds[k - 1], actions[k - 1]);
    }
  }
}
