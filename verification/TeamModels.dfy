/**
 The persisted integration record of a team (`teams/models.py`). `C` is how commits are named:
 object ids in the file, positions in the commit graph in the protocol.
 */
module TeamModels {
  import opened Wrappers

  datatype TaskAttemptRef = TaskAttemptRef(taskId: string, attempt: int)

  datatype IntegratedTaskRecord<C> = IntegratedTaskRecord(
    task: TaskAttemptRef, memberName: string, sourceBranch: string, sourceCommit: C, previousHead: C,
    integrationHead: C, integratedAt: string)

  datatype IntentKind = MergeTask | Publish

  datatype IntegrationIntent<C> = IntegrationIntent(
    kind: IntentKind, task: Option<TaskAttemptRef>, memberName: Option<string>, sourceBranch: Option<string>,
    sourceCommit: Option<C>, expectedHead: C, resultText: Option<string>, startedAt: string)

  datatype FailureStage = PrepareStage | SyncStage | MergeStage | PublishStage | RecoveryStage | CleanupStage

  datatype IntegrationFailure<C> = IntegrationFailure(
    stage: FailureStage, message: string, task: Option<TaskAttemptRef>, memberName: Option<string>, commit: Option<C>,
    conflictPaths: seq<string>, occurredAt: string)

  datatype Phase = Active | Integrating | Blocked | Ready | Publishing | Published | NotNeeded

  datatype IntegrationRound<C> = IntegrationRound(
    number: int, phase: Phase, targetBranch: Option<string>, baseCommit: Option<C>, integrationOwnerId: Option<string>,
    integrationRoot: Option<string>, integrationBranch: Option<string>, integrationHead: Option<C>,
    accepted: seq<IntegratedTaskRecord<C>>, intent: Option<IntegrationIntent<C>>,
    failure: Option<IntegrationFailure<C>>, startedAt: string, updatedAt: string, publishedAt: Option<string>)

  datatype TeamIntegrationState<C> = TeamIntegrationState(
    revision: int, nextRound: int, current: Option<IntegrationRound<C>>, history: seq<IntegrationRound<C>>)

  /** What is left of a text after stripping is not empty. */
  predicate NotBlank(s: string) {
    exists k :: 0 <= k < |s| && !IsSpace(s[k])
  }

  predicate IsSpace(c: char) {
    c in {' ', '\t', '\n', '\r'}
  }

  predicate OkTask(t: TaskAttemptRef) {
    NotBlank(t.taskId) && t.attempt >= 1
  }

  predicate OkRecord<C>(r: IntegratedTaskRecord<C>) {
    OkTask(r.task) && NotBlank(r.memberName) && NotBlank(r.sourceBranch) && NotBlank(r.integratedAt)
  }

  /** Merge intents, and only they, name a task. */
  predicate OkIntent<C>(i: IntegrationIntent<C>) {
    && (i.kind == MergeTask <==> i.task.Some?)
    && (i.task.Some? ==> OkTask(i.task.value))
    && NotBlank(i.startedAt)
  }

  predicate OkFailure<C>(f: IntegrationFailure<C>) {
    NotBlank(f.message) && (f.task.Some? ==> OkTask(f.task.value))
  }

  predicate UniqueKeys<C>(accepted: seq<IntegratedTaskRecord<C>>) {
    forall i, j | 0 <= i < j < |accepted| :: accepted[i].task != accepted[j].task
  }

  ghost predicate OkRound<C(!new)>(r: IntegrationRound<C>) {
    && r.number >= 1
    && (forall i | 0 <= i < |r.accepted| :: OkRecord(r.accepted[i]))
    && UniqueKeys(r.accepted)
    && (r.intent.Some? ==> OkIntent(r.intent.value))
    && (r.failure.Some? ==> OkFailure(r.failure.value))
    && NotBlank(r.startedAt) && NotBlank(r.updatedAt)
  }

  function Rounds<C>(s: TeamIntegrationState<C>): seq<IntegrationRound<C>> {
    if s.current.Some? then s.history + [s.current.value] else s.history
  }

  ghost predicate Increasing<C(!new)>(rounds: seq<IntegrationRound<C>>) {
    forall i, j | 0 <= i < j < |rounds| :: rounds[i].number < rounds[j].number
  }

  /** What the strict parser demands of a state. */
  ghost predicate WellFormed<C(!new)>(s: TeamIntegrationState<C>) {
    && s.revision >= 0 && s.nextRound >= 1
    && Increasing(Rounds(s))
    && (forall i | 0 <= i < |Rounds(s)| :: OkRound(Rounds(s)[i]) && Rounds(s)[i].number < s.nextRound)
  }

  /** `_accepted`: whether the attempt is already recorded. */
  predicate IsAccepted<C>(accepted: seq<IntegratedTaskRecord<C>>, key: TaskAttemptRef) {
    exists i :: 0 <= i < |accepted| && accepted[i].task == key
  }

  // ---------------------------------------------------------------------------
  // Writes
  // ---------------------------------------------------------------------------

  /** `TeamIntegrationTransaction.replace`: every write counts the revision up by one. */
  function Written<C>(s: TeamIntegrationState<C>): TeamIntegrationState<C> {
    s.(revision := s.revision + 1)
  }

  /** The current round is replaced by a later version of itself. */
  lemma UpdateKeepsWellFormed<C(!new)>(s: TeamIntegrationState<C>, r: IntegrationRound<C>)
    requires WellFormed(s) && s.current.Some? && r.number == s.current.value.number && OkRound(r)
    ensures WellFormed(Written(s.(current := Some(r))))
  {
    var a, b := Rounds(s), Rounds(Written(s.(current := Some(r))));
    assert |a| == |b| && forall i | 0 <= i < |b| :: b[i].number == a[i].number && (b[i] == a[i] || b[i] == r);
  }

  /** A new round takes the next number. */
  lemma AssignKeepsWellFormed<C(!new)>(s: TeamIntegrationState<C>, r: IntegrationRound<C>)
    requires WellFormed(s) && s.current.None? && r.number == s.nextRound && OkRound(r)
    ensures WellFormed(Written(s.(current := Some(r), nextRound := r.number + 1)))
  {
    var a, b := Rounds(s), Rounds(Written(s.(current := Some(r), nextRound := r.number + 1)));
    assert b == a + [r];
  }

  /** The current round moves to the end of the history. */
  lemma ArchiveKeepsWellFormed<C(!new)>(s: TeamIntegrationState<C>, r: IntegrationRound<C>)
    requires WellFormed(s) && s.current.Some? && r.number == s.current.value.number && OkRound(r)
    ensures WellFormed(Written(s.(current := None, history := s.history + [r])))
  {
    var a, b := Rounds(s), Rounds(Written(s.(current := None, history := s.history + [r])));
    assert |a| == |b| && forall i | 0 <= i < |b| :: b[i].number == a[i].number && (b[i] == a[i] || b[i] == r);
  }

  lemma CurrentIsOk<C(!new)>(s: TeamIntegrationState<C>)
    requires WellFormed(s) && s.current.Some?
    ensures OkRound(s.current.value) && 1 <= s.current.value.number < s.nextRound
  {
    assert Rounds(s)[|s.history|] == s.current.value;
  }

  lemma AcceptKeepsUnique<C(!new)>(accepted: seq<IntegratedTaskRecord<C>>, r: IntegratedTaskRecord<C>)
    requires UniqueKeys(accepted) && !IsAccepted(accepted, r.task)
    ensures UniqueKeys(accepted + [r])
  {
  }

  /** The strict parser refuses a current round that carries the number of the last archived one. */
  lemma ResurrectedRoundIsRefused<C(!new)>(s: TeamIntegrationState<C>)
    requires s.current.Some? && s.history != [] && s.history[|s.history| - 1].number == s.current.value.number
    ensures !Increasing(Rounds(s)) && !WellFormed(s)
  {
    var h := |s.history|;
    assert Rounds(s)[h - 1] == s.history[h - 1] && Rounds(s)[h] == s.current.value;
  }
}
