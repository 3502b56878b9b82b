/**
 The shared task list (`teams/tasks.py`), as far as integration and ordering depend on it.
 */
module TeamTasks {
  import opened Wrappers
  import opened TeamModels
  import opened GitGraph

  datatype TaskStatus =
    TaskPending | TaskBlocked | TaskInProgress | TaskAwaitingApproval | TaskCompleted | TaskFailed | TaskCancelled

  datatype TaskKind = CodeTask | ResearchTask

  datatype TeamTask = TeamTask(
    id: string, kind: TaskKind, status: TaskStatus, dependencies: seq<string>, assignee: Option<string>,
    createdAt: string, attempt: int, integrationRound: int, startCommit: Option<Commit>, commit: Option<Commit>)

  type Tasks = map<string, TeamTask>

  predicate Terminal(s: TaskStatus) {
    s in {TaskCompleted, TaskFailed, TaskCancelled}
  }

  predicate CompletedAs(tasks: Tasks, id: string, commit: Commit) {
    id in tasks && tasks[id].status == TaskCompleted && tasks[id].commit == Some(commit)
  }

  predicate IsCompletedCode(t: TeamTask) {
    t.kind == CodeTask && t.status == TaskCompleted
  }

  /** The task is in this very attempt, and completed. */
  predicate AttemptDone(tasks: Tasks, key: TaskAttemptRef) {
    key.taskId in tasks && tasks[key.taskId].attempt == key.attempt && IsCompletedCode(tasks[key.taskId])
  }

  /** The task was deleted, or started over since, or is completed with `commit`. */
  predicate AttemptSettled(tasks: Tasks, key: TaskAttemptRef, commit: Commit) {
    key.taskId in tasks ==>
      && key.attempt <= tasks[key.taskId].attempt
      && (tasks[key.taskId].attempt == key.attempt ==> CompletedAs(tasks, key.taskId, commit))
  }

  /** The task was deleted, or started over since. */
  predicate AttemptGone(tasks: Tasks, key: TaskAttemptRef) {
    key.taskId in tasks ==> tasks[key.taskId].attempt > key.attempt
  }

  /** The list shows all tasks, and nothing else. */
  ghost predicate Lists(tasks: Tasks, list: seq<TeamTask>) {
    && (forall id | id in tasks :: tasks[id] in list)
    && (forall k | 0 <= k < |list| :: exists id :: id in tasks && tasks[id] == list[k])
  }

  /** Of round `number`, nothing is left among the tasks but completed research. */
  predicate NoCodeLeft(tasks: Tasks, number: int) {
    forall id | id in tasks && tasks[id].integrationRound == number ::
      tasks[id].kind != CodeTask && tasks[id].status == TaskCompleted
  }

  /** The task was deleted, or started over since, or is a code task of round `number`. */
  predicate AttemptOfRound(tasks: Tasks, key: TaskAttemptRef, number: int) {
    key.taskId in tasks ==>
      && key.attempt <= tasks[key.taskId].attempt
      && (tasks[key.taskId].attempt == key.attempt ==>
            tasks[key.taskId].kind == CodeTask && tasks[key.taskId].integrationRound == number)
  }

  // ---------------------------------------------------------------------------
  // What happens to tasks without the integration service
  // ---------------------------------------------------------------------------

  /**
   A task may be edited, cancelled, failed, taken away from its member, or started over, which
   begins a new attempt if it had ended. Only the integration service completes code tasks, and a
   start commit comes only from a claim that the service has prepared.
   */
  predicate Evolves(before: TeamTask, after: TeamTask) {
    && Kept(before, after)
    && (after.startCommit.Some? ==> after.startCommit == before.startCommit && after.attempt == before.attempt)
  }

  /** No completion of a code task is made up, and none is taken back within an attempt. */
  predicate Kept(before: TeamTask, after: TeamTask) {
    && after.kind == before.kind && after.attempt >= before.attempt
    && (after.attempt == before.attempt ==> after.integrationRound == before.integrationRound)
    && (after.attempt == before.attempt && before.status == TaskCompleted ==>
          after.status == TaskCompleted && after.commit == before.commit)
    && (IsCompletedCode(after) ==> after.attempt == before.attempt && before.status == TaskCompleted)
  }

  predicate TasksKept(before: Tasks, after: Tasks) {
    forall id | id in before && id in after :: Kept(before[id], after[id])
  }

  predicate NewTask(t: TeamTask) {
    !IsCompletedCode(t) && t.startCommit.None?
  }

  predicate TasksEvolve(before: Tasks, after: Tasks) {
    forall id | id in after :: if id in before then Evolves(before[id], after[id]) else NewTask(after[id])
  }
}
