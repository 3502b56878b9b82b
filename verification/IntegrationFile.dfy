/**
 The integration file: its dictionary form and its strict parser (`integration_state_from_dict`).
 The parser accepts exactly the well-formed states with full object ids, and inverts the form.
 */
module IntegrationFile {
  import opened Wrappers
  import opened Json
  import opened TeamModels

  type State = TeamIntegrationState<string>
  type Round = IntegrationRound<string>

  /** The member that was refused. */
  type Refusal = string

  type Fields = map<string, Json>

  // ---------------------------------------------------------------------------
  // Reading fields
  // ---------------------------------------------------------------------------

  /** `raw.get(key)` */
  function Get(raw: Fields, key: string): Json {
    if key in raw then raw[key] else Null
  }

  function GetOr(raw: Fields, key: string, default: Json): Json {
    if key in raw then raw[key] else default
  }

  function Text(raw: Fields, key: string): Result<string, Refusal> {
    match Get(raw, key)
    case Str(s) => if NotBlank(s) then Ok(s) else Err(key)
    case _ => Err(key)
  }

  function TextOrEmpty(raw: Fields, key: string): Result<string, Refusal> {
    match Get(raw, key)
    case Str(s) => Ok(s)
    case _ => Err(key)
  }

  function OptionalText(raw: Fields, key: string): Result<Option<string>, Refusal> {
    match Get(raw, key)
    case Null => Ok(None)
    case Str(s) => Ok(Some(s))
    case _ => Err(key)
  }

  function IntAtLeast(least: int, value: Json, key: string): Result<int, Refusal> {
    match value
    case Num(n) => if n >= least then Ok(n) else Err(key)
    case _ => Err(key)
  }

  predicate IsHex(c: char) {
    '0' <= c <= '9' || 'a' <= c <= 'f'
  }

  /** A full Git object id, of either hash length. */
  predicate IsObjectId(s: string) {
    (|s| == 40 || |s| == 64) && forall k | 0 <= k < |s| :: IsHex(s[k])
  }

  function ObjectId(raw: Fields, key: string): Result<string, Refusal> {
    match Get(raw, key)
    case Str(s) => if IsObjectId(s) then Ok(s) else Err(key)
    case _ => Err(key)
  }

  function OptionalObjectId(raw: Fields, key: string): Result<Option<string>, Refusal> {
    match Get(raw, key)
    case Null => Ok(None)
    case Str(s) => if IsObjectId(s) then Ok(Some(s)) else Err(key)
    case _ => Err(key)
  }

  function Mapping(value: Json, key: string): Result<Fields, Refusal> {
    match value
    case Obj(fields) => Ok(fields)
    case _ => Err(key)
  }

  function Items(value: Json, key: string): Result<seq<Json>, Refusal> {
    match value
    case Arr(items) => Ok(items)
    case _ => Err(key)
  }

  /** Every item is parsed, or the first refusal is returned. */
  function ParseAll<T>(items: seq<Json>, parse: Json -> Result<T, Refusal>): Result<seq<T>, Refusal> {
    if items == [] then Ok([])
    else
      var rest :- ParseAll(items[..|items| - 1], parse);
      var last :- parse(items[|items| - 1]);
      Ok(rest + [last])
  }

  lemma {:induction false} AllParsed<T>(items: seq<Json>, parse: Json -> Result<T, Refusal>, values: seq<T>)
    ensures ParseAll(items, parse) == Ok(values) <==> |items| == |values| && forall k | 0 <= k < |items| ::
        parse(items[k]) == Ok(values[k])
  {
    if items != [] && values != [] {
      AllParsed(items[..|items| - 1], parse, values[..|values| - 1]);
      assert values == values[..|values| - 1] + [values[|values| - 1]];
    }
    if items != [] && ParseAll(items, parse) == Ok(values) {
      AllParsed(items[..|items| - 1], parse, values[..|values| - 1]);
    }
  }

  function ParsePath(value: Json): Result<string, Refusal> {
    match value
    case Str(s) => Ok(s)
    case _ => Err("conflict_paths")
  }

  // ---------------------------------------------------------------------------
  // Names
  // ---------------------------------------------------------------------------

  function PhaseName(p: Phase): string {
    match p
    case Active => "active"
    case Integrating => "integrating"
    case Blocked => "blocked"
    case Ready => "ready"
    case Publishing => "publishing"
    case Published => "published"
    case NotNeeded => "not_needed"
  }

  function ParsePhase(value: Json): Result<Phase, Refusal> {
    match value
    case Str(s) =>
      if s == "active" then Ok(Active)
      else if s == "integrating" then Ok(Integrating)
      else if s == "blocked" then Ok(Blocked)
      else if s == "ready" then Ok(Ready)
      else if s == "publishing" then Ok(Publishing)
      else if s == "published" then Ok(Published)
      else if s == "not_needed" then Ok(NotNeeded)
      else Err("phase")
    case _ => Err("phase")
  }

  function KindName(k: IntentKind): string {
    match k
    case MergeTask => "merge_task"
    case Publish => "publish"
  }

  function ParseKind(value: Json): Result<IntentKind, Refusal> {
    match value
    case Str(s) => if s == "merge_task" then Ok(MergeTask) else if s == "publish" then Ok(Publish) else Err("kind")
    case _ => Err("kind")
  }

  function StageName(s: FailureStage): string {
    match s
    case PrepareStage => "prepare"
    case SyncStage => "sync"
    case MergeStage => "merge"
    case PublishStage => "publish"
    case RecoveryStage => "recovery"
    case CleanupStage => "cleanup"
  }

  function ParseStage(value: Json): Result<FailureStage, Refusal> {
    match value
    case Str(s) =>
      if s == "prepare" then Ok(PrepareStage)
      else if s == "sync" then Ok(SyncStage)
      else if s == "merge" then Ok(MergeStage)
      else if s == "publish" then Ok(PublishStage)
      else if s == "recovery" then Ok(RecoveryStage)
      else if s == "cleanup" then Ok(CleanupStage)
      else Err("stage")
    case _ => Err("stage")
  }

  // ---------------------------------------------------------------------------
  // The dictionary form
  // ---------------------------------------------------------------------------

  function AllToJson<T>(xs: seq<T>, form: T -> Json): seq<Json> {
    if xs == [] then [] else AllToJson(xs[..|xs| - 1], form) + [form(xs[|xs| - 1])]
  }

  lemma {:induction false} AllToJsonAt<T>(xs: seq<T>, form: T -> Json)
    ensures |AllToJson(xs, form)| == |xs| && forall k | 0 <= k < |xs| :: AllToJson(xs, form)[k] == form(xs[k])
  {
    if xs != [] { AllToJsonAt(xs[..|xs| - 1], form); }
  }

  function TextToJson(s: string): Json {
    Str(s)
  }

  function OptionToJson(o: Option<string>): Json {
    match o
    case None => Null
    case Some(s) => Str(s)
  }

  function TaskObject(taskId: Json, attempt: Json): Fields {
    map["task_id" := taskId, "attempt" := attempt]
  }

  function RecordObject(task: Json, memberName: Json, sourceBranch: Json, sourceCommit: Json, previousHead: Json,
                        integrationHead: Json, integratedAt: Json): Fields {
    map["task" := task, "member_name" := memberName, "source_branch" := sourceBranch, "source_commit" := sourceCommit,
        "previous_head" := previousHead, "integration_head" := integrationHead, "integrated_at" := integratedAt]
  }

  function IntentObject(kind: Json, task: Json, memberName: Json, sourceBranch: Json, sourceCommit: Json,
                        expectedHead: Json, resultText: Json, startedAt: Json): Fields {
    map["kind" := kind, "task" := task, "member_name" := memberName, "source_branch" := sourceBranch,
        "source_commit" := sourceCommit, "expected_head" := expectedHead, "result_text" := resultText,
        "started_at" := startedAt]
  }

  function FailureObject(stage: Json, message: Json, task: Json, memberName: Json, commit: Json, conflictPaths: Json,
                         occurredAt: Json): Fields {
    map["stage" := stage, "message" := message, "task" := task, "member_name" := memberName, "commit" := commit,
        "conflict_paths" := conflictPaths, "occurred_at" := occurredAt]
  }

  function RoundObject(number: Json, phase: Json, targetBranch: Json, baseCommit: Json, integrationOwnerId: Json,
                       integrationRoot: Json, integrationBranch: Json, integrationHead: Json, accepted: Json,
                       intent: Json, failure: Json, startedAt: Json, updatedAt: Json, publishedAt: Json): Fields {
    map["number" := number, "phase" := phase, "target_branch" := targetBranch, "base_commit" := baseCommit,
        "integration_owner_id" := integrationOwnerId, "integration_root" := integrationRoot,
        "integration_branch" := integrationBranch, "integration_head" := integrationHead, "accepted" := accepted,
        "intent" := intent,
        "failure" := failure, "started_at" := startedAt, "updated_at" := updatedAt, "published_at" := publishedAt]
  }

  function StateObject(schemaVersion: Json, revision: Json, nextRound: Json, current: Json, history: Json): Fields {
    map["schema_version" := schemaVersion, "revision" := revision, "next_round" := nextRound, "current" := current,
        "history" := history]
  }

  function TaskToJson(t: TaskAttemptRef): Json {
    Obj(TaskObject(Str(t.taskId), Num(t.attempt)))
  }

  function OptionTaskToJson(o: Option<TaskAttemptRef>): Json {
    match o
    case None => Null
    case Some(t) => TaskToJson(t)
  }

  function RecordToJson(r: IntegratedTaskRecord<string>): Json {
    Obj(RecordObject(TaskToJson(r.task), Str(r.memberName), Str(r.sourceBranch), Str(r.sourceCommit),
                     Str(r.previousHead), Str(r.integrationHead), Str(r.integratedAt)))
  }

  function IntentToJson(i: IntegrationIntent<string>): Json {
    Obj(IntentObject(Str(KindName(i.kind)), OptionTaskToJson(i.task), OptionToJson(i.memberName),
                     OptionToJson(i.sourceBranch),
        OptionToJson(i.sourceCommit), Str(i.expectedHead), OptionToJson(i.resultText), Str(i.startedAt)))
  }

  function FailureToJson(f: IntegrationFailure<string>): Json {
    Obj(FailureObject(Str(StageName(f.stage)), Str(f.message), OptionTaskToJson(f.task), OptionToJson(f.memberName),
        OptionToJson(f.commit), Arr(AllToJson(f.conflictPaths, TextToJson)), Str(f.occurredAt)))
  }

  function RoundToJson(r: Round): Json {
    Obj(RoundObject(Num(r.number), Str(PhaseName(r.phase)), OptionToJson(r.targetBranch), OptionToJson(r.baseCommit),
        OptionToJson(r.integrationOwnerId), OptionToJson(r.integrationRoot), OptionToJson(r.integrationBranch),
        OptionToJson(r.integrationHead), Arr(AllToJson(r.accepted, RecordToJson)),
        if r.intent.Some? then IntentToJson(r.intent.value) else Null,
        if r.failure.Some? then FailureToJson(r.failure.value) else Null,
        Str(r.startedAt), Str(r.updatedAt), OptionToJson(r.publishedAt)))
  }

  function StateToJson(s: State): Fields {
    StateObject(Num(1), Num(s.revision), Num(s.nextRound),
                if s.current.Some? then RoundToJson(s.current.value) else Null, Arr(AllToJson(s.history, RoundToJson)))
  }

  // ---------------------------------------------------------------------------
  // The parser
  // ---------------------------------------------------------------------------

  function ParseTask(value: Json, key: string): Result<TaskAttemptRef, Refusal> {
    var raw :- Mapping(value, key);
    var taskId :- Text(raw, "task_id");
    var attempt :- IntAtLeast(1, Get(raw, "attempt"), "attempt");
    Ok(TaskAttemptRef(taskId, attempt))
  }

  function ParseOptionalTask(value: Json): Result<Option<TaskAttemptRef>, Refusal> {
    if value.Null? then Ok(None)
    else
      var task :- ParseTask(value, "task");
      Ok(Some(task))
  }

  function ParseRecord(value: Json): Result<IntegratedTaskRecord<string>, Refusal> {
    var raw :- Mapping(value, "accepted");
    var task :- ParseTask(Get(raw, "task"), "task");
    var memberName :- Text(raw, "member_name");
    var sourceBranch :- Text(raw, "source_branch");
    var sourceCommit :- ObjectId(raw, "source_commit");
    var previousHead :- ObjectId(raw, "previous_head");
    var integrationHead :- ObjectId(raw, "integration_head");
    var integratedAt :- Text(raw, "integrated_at");
    Ok(IntegratedTaskRecord(task, memberName, sourceBranch, sourceCommit, previousHead, integrationHead, integratedAt))
  }

  function ParseIntent(value: Json): Result<IntegrationIntent<string>, Refusal> {
    var raw :- Mapping(value, "intent");
    var kind :- ParseKind(GetOr(raw, "kind", Str("")));
    var task :- ParseOptionalTask(Get(raw, "task"));
    if (kind == MergeTask) != task.Some? then Err("task")
    else
      var memberName :- OptionalText(raw, "member_name");
      var sourceBranch :- OptionalText(raw, "source_branch");
      var sourceCommit :- OptionalObjectId(raw, "source_commit");
      var expectedHead :- ObjectId(raw, "expected_head");
      var resultText :- OptionalText(raw, "result_text");
      var startedAt :- Text(raw, "started_at");
      Ok(IntegrationIntent(kind, task, memberName, sourceBranch, sourceCommit, expectedHead, resultText, startedAt))
  }

  function ParseFailure(value: Json): Result<IntegrationFailure<string>, Refusal> {
    var raw :- Mapping(value, "failure");
    var stage :- ParseStage(GetOr(raw, "stage", Str("")));
    var message :- Text(raw, "message");
    var task :- ParseOptionalTask(Get(raw, "task"));
    var memberName :- OptionalText(raw, "member_name");
    var commit :- OptionalObjectId(raw, "commit");
    var paths :- Items(GetOr(raw, "conflict_paths", Arr([])), "conflict_paths");
    var conflictPaths :- ParseAll(paths, ParsePath);
    var occurredAt :- TextOrEmpty(raw, "occurred_at");
    Ok(IntegrationFailure(stage, message, task, memberName, commit, conflictPaths, occurredAt))
  }

  function ParseOptionalIntent(value: Json): Result<Option<IntegrationIntent<string>>, Refusal> {
    if value.Null? then Ok(None)
    else
      var intent :- ParseIntent(value);
      Ok(Some(intent))
  }

  function ParseOptionalFailure(value: Json): Result<Option<IntegrationFailure<string>>, Refusal> {
    if value.Null? then Ok(None)
    else
      var failure :- ParseFailure(value);
      Ok(Some(failure))
  }

  /** Where the round started and stands: the fields that are set when it is captured. */
  datatype Target = Target(
    branch: Option<string>, base: Option<string>, ownerId: Option<string>, root: Option<string>,
    innerBranch: Option<string>, head: Option<string>)

  function ParseTarget(raw: Fields): Result<Target, Refusal> {
    var branch :- OptionalText(raw, "target_branch");
    var base :- OptionalObjectId(raw, "base_commit");
    var ownerId :- OptionalText(raw, "integration_owner_id");
    var root :- OptionalText(raw, "integration_root");
    var innerBranch :- OptionalText(raw, "integration_branch");
    var head :- OptionalObjectId(raw, "integration_head");
    Ok(Target(branch, base, ownerId, root, innerBranch, head))
  }

  datatype Times = Times(startedAt: string, updatedAt: string, publishedAt: Option<string>)

  function ParseTimes(raw: Fields): Result<Times, Refusal> {
    var startedAt :- Text(raw, "started_at");
    var updatedAt :- Text(raw, "updated_at");
    var publishedAt :- OptionalText(raw, "published_at");
    Ok(Times(startedAt, updatedAt, publishedAt))
  }

  function ParseRound(value: Json, key: string): Result<Round, Refusal> {
    var raw :- Mapping(value, key);
    var phase :- ParsePhase(GetOr(raw, "phase", Str("")));
    var items :- Items(GetOr(raw, "accepted", Arr([])), "accepted");
    var accepted :- ParseAll(items, ParseRecord);
    if !UniqueKeys(accepted) then Err("accepted")
    else
      var number :- IntAtLeast(1, Get(raw, "number"), "number");
      var target :- ParseTarget(raw);
      var intent :- ParseOptionalIntent(Get(raw, "intent"));
      var failure :- ParseOptionalFailure(Get(raw, "failure"));
      var times :- ParseTimes(raw);
      Ok(IntegrationRound(number, phase, target.branch, target.base, target.ownerId, target.root, target.innerBranch,
                          target.head, accepted, intent, failure, times.startedAt, times.updatedAt, times.publishedAt))
  }

  function ParseHistoryItem(value: Json): Result<Round, Refusal> {
    ParseRound(value, "history")
  }

  function ParseCurrent(value: Json): Result<Option<Round>, Refusal> {
    if value.Null? then Ok(None)
    else
      var r :- ParseRound(value, "current");
      Ok(Some(r))
  }

  /** Sorted and without repetition, and below the next number. */
  predicate NumbersFit(rounds: seq<Round>, nextRound: int) {
    && (forall i, j | 0 <= i < j < |rounds| :: rounds[i].number < rounds[j].number)
    && (rounds != [] ==> rounds[|rounds| - 1].number < nextRound)
  }

  /** `True == 1` in Python, so a literal `true` passes for the schema version. */
  predicate IsVersionOne(value: Json) {
    value == Num(1) || value == Bool(true)
  }

  function Parse(raw: Fields): Result<State, Refusal> {
    if !IsVersionOne(Get(raw, "schema_version")) then Err("schema_version")
    else
      var revision :- IntAtLeast(0, GetOr(raw, "revision", Num(0)), "revision");
      var nextRound :- IntAtLeast(1, GetOr(raw, "next_round", Num(1)), "next_round");
      var current :- ParseCurrent(Get(raw, "current"));
      var items :- Items(GetOr(raw, "history", Arr([])), "history");
      var history :- ParseAll(items, ParseHistoryItem);
      var s := TeamIntegrationState(revision, nextRound, current, history);
      if NumbersFit(Rounds(s), nextRound) then Ok(s) else Err("next_round")
  }

  // ---------------------------------------------------------------------------
  // What can be stored
  // ---------------------------------------------------------------------------

  ghost predicate RecordIds(r: IntegratedTaskRecord<string>) {
    IsObjectId(r.sourceCommit) && IsObjectId(r.previousHead) && IsObjectId(r.integrationHead)
  }

  ghost predicate OptionalId(o: Option<string>) {
    o.Some? ==> IsObjectId(o.value)
  }

  ghost predicate RoundIds(r: Round) {
    && OptionalId(r.baseCommit) && OptionalId(r.integrationHead)
    && (forall k | 0 <= k < |r.accepted| :: RecordIds(r.accepted[k]))
    && (r.intent.Some? ==> IsObjectId(r.intent.value.expectedHead) && OptionalId(r.intent.value.sourceCommit))
    && (r.failure.Some? ==> OptionalId(r.failure.value.commit))
  }

  /** A round that the parser can give back. */
  ghost predicate StorableRound(r: Round) {
    OkRound(r) && RoundIds(r)
  }

  ghost predicate Storable(s: State) {
    WellFormed(s) && forall i | 0 <= i < |Rounds(s)| :: RoundIds(Rounds(s)[i])
  }

  // ---------------------------------------------------------------------------
  // The parser inverts the dictionary form
  // ---------------------------------------------------------------------------

  predicate Holds(raw: Fields, key: string, value: Json) {
    key in raw && raw[key] == value
  }

  lemma TaskReadsBack(t: TaskAttemptRef, key: string)
    requires OkTask(t)
    ensures ParseTask(TaskToJson(t), key) == Ok(t)
  {
  }

  lemma RecordMembers(task: Json, memberName: Json, sourceBranch: Json, sourceCommit: Json, previousHead: Json,
                      integrationHead: Json, integratedAt: Json)
    ensures
      var raw := RecordObject(task, memberName, sourceBranch, sourceCommit, previousHead, integrationHead,
                              integratedAt);
      && Holds(raw, "task", task) && Holds(raw, "member_name", memberName)
      && Holds(raw, "source_branch", sourceBranch) && Holds(raw, "source_commit", sourceCommit)
      && Holds(raw, "previous_head", previousHead) && Holds(raw, "integration_head", integrationHead)
      && Holds(raw, "integrated_at", integratedAt)
  {
  }

  lemma IntentMembers(kind: Json, task: Json, memberName: Json, sourceBranch: Json, sourceCommit: Json,
                      expectedHead: Json, resultText: Json, startedAt: Json)
    ensures
      var raw := IntentObject(kind, task, memberName, sourceBranch, sourceCommit, expectedHead, resultText, startedAt);
      && Holds(raw, "kind", kind) && Holds(raw, "task", task) && Holds(raw, "member_name", memberName)
      && Holds(raw, "source_branch", sourceBranch) && Holds(raw, "source_commit", sourceCommit)
      && Holds(raw, "expected_head", expectedHead) && Holds(raw, "result_text", resultText)
      && Holds(raw, "started_at", startedAt)
  {
  }

  lemma FailureMembers(stage: Json, message: Json, task: Json, memberName: Json, commit: Json, conflictPaths: Json,
                       occurredAt: Json)
    ensures
      var raw := FailureObject(stage, message, task, memberName, commit, conflictPaths, occurredAt);
      && Holds(raw, "stage", stage) && Holds(raw, "message", message) && Holds(raw, "task", task)
      && Holds(raw, "member_name", memberName) && Holds(raw, "commit", commit)
      && Holds(raw, "conflict_paths", conflictPaths) && Holds(raw, "occurred_at", occurredAt)
  {
  }

  lemma RoundMembersBefore(number: Json, phase: Json, targetBranch: Json, baseCommit: Json, integrationOwnerId: Json,
                           integrationRoot: Json, integrationBranch: Json, integrationHead: Json, accepted: Json,
                           intent: Json, failure: Json, startedAt: Json, updatedAt: Json, publishedAt: Json)
    ensures
      var raw := RoundObject(number, phase, targetBranch, baseCommit, integrationOwnerId, integrationRoot,
                             integrationBranch, integrationHead, accepted, intent, failure, startedAt, updatedAt,
                             publishedAt);
      && Holds(raw, "number", number) && Holds(raw, "phase", phase)
      && Holds(raw, "target_branch", targetBranch) && Holds(raw, "base_commit", baseCommit)
  {
  }

  lemma RoundMembersBetween(number: Json, phase: Json, targetBranch: Json, baseCommit: Json, integrationOwnerId: Json,
                            integrationRoot: Json, integrationBranch: Json, integrationHead: Json, accepted: Json,
                            intent: Json, failure: Json, startedAt: Json, updatedAt: Json, publishedAt: Json)
    ensures
      var raw := RoundObject(number, phase, targetBranch, baseCommit, integrationOwnerId, integrationRoot,
                             integrationBranch, integrationHead, accepted, intent, failure, startedAt, updatedAt,
                             publishedAt);
      && Holds(raw, "integration_owner_id", integrationOwnerId) && Holds(raw, "integration_root", integrationRoot)
      && Holds(raw, "integration_branch", integrationBranch)
  {
  }

  lemma RoundMembersAfter(number: Json, phase: Json, targetBranch: Json, baseCommit: Json, integrationOwnerId: Json,
                          integrationRoot: Json, integrationBranch: Json, integrationHead: Json, accepted: Json,
                          intent: Json, failure: Json, startedAt: Json, updatedAt: Json, publishedAt: Json)
    ensures
      var raw := RoundObject(number, phase, targetBranch, baseCommit, integrationOwnerId, integrationRoot,
                             integrationBranch, integrationHead, accepted, intent, failure, startedAt, updatedAt,
                             publishedAt);
      && Holds(raw, "integration_head", integrationHead) && Holds(raw, "accepted", accepted)
      && Holds(raw, "intent", intent)
      && Holds(raw, "failure", failure) && Holds(raw, "started_at", startedAt) && Holds(raw, "updated_at", updatedAt)
      && Holds(raw, "published_at", publishedAt)
  {
  }

  lemma RecordReadsBack(r: IntegratedTaskRecord<string>)
    requires OkRecord(r) && RecordIds(r)
    ensures ParseRecord(RecordToJson(r)) == Ok(r)
  {
    TaskReadsBack(r.task, "task");
    RecordMembers(TaskToJson(r.task), Str(r.memberName), Str(r.sourceBranch), Str(r.sourceCommit), Str(r.previousHead),
                  Str(r.integrationHead), Str(r.integratedAt));
    RecordFromMembers(RecordToJson(r).fields, r, TaskToJson(r.task));
  }

  lemma RecordFromMembers(raw: Fields, r: IntegratedTaskRecord<string>, task: Json)
    requires ParseTask(task, "task") == Ok(r.task) && OkRecord(r) && RecordIds(r)
    requires Holds(raw, "task", task) && Holds(raw, "member_name", Str(r.memberName))
        && Holds(raw, "source_branch", Str(r.sourceBranch))
    requires Holds(raw, "source_commit", Str(r.sourceCommit)) && Holds(raw, "previous_head", Str(r.previousHead))
    requires Holds(raw, "integration_head", Str(r.integrationHead)) && Holds(raw, "integrated_at", Str(r.integratedAt))
    ensures ParseRecord(Obj(raw)) == Ok(r)
  {
  }

  lemma RecordsReadBack(rs: seq<IntegratedTaskRecord<string>>)
    requires forall k | 0 <= k < |rs| :: OkRecord(rs[k]) && RecordIds(rs[k])
    ensures ParseAll(AllToJson(rs, RecordToJson), ParseRecord) == Ok(rs)
  {
    AllToJsonAt(rs, RecordToJson);
    forall k | 0 <= k < |rs| ensures ParseRecord(AllToJson(rs, RecordToJson)[k]) == Ok(rs[k]) {
      RecordReadsBack(rs[k]);
    }
    AllParsed(AllToJson(rs, RecordToJson), ParseRecord, rs);
  }

  lemma OptionalTaskReadsBack(o: Option<TaskAttemptRef>)
    requires o.Some? ==> OkTask(o.value)
    ensures ParseOptionalTask(OptionTaskToJson(o)) == Ok(o)
  {
    if o.Some? { TaskReadsBack(o.value, "task"); }
  }

  lemma KindReadsBack(k: IntentKind)
    ensures ParseKind(Str(KindName(k))) == Ok(k)
  {
  }

  lemma IntentReadsBack(i: IntegrationIntent<string>)
    requires OkIntent(i) && IsObjectId(i.expectedHead) && OptionalId(i.sourceCommit)
    ensures ParseOptionalIntent(IntentToJson(i)) == Ok(Some(i))
  {
    OptionalTaskReadsBack(i.task);
    KindReadsBack(i.kind);
    IntentMembers(Str(KindName(i.kind)), OptionTaskToJson(i.task), OptionToJson(i.memberName),
                  OptionToJson(i.sourceBranch),
                  OptionToJson(i.sourceCommit), Str(i.expectedHead), OptionToJson(i.resultText), Str(i.startedAt));
    IntentFromMembers(IntentToJson(i).fields, i, Str(KindName(i.kind)), OptionTaskToJson(i.task));
  }

  lemma IntentFromMembers(raw: Fields, i: IntegrationIntent<string>, kind: Json, task: Json)
    requires OkIntent(i) && IsObjectId(i.expectedHead) && OptionalId(i.sourceCommit)
    requires ParseKind(kind) == Ok(i.kind) && ParseOptionalTask(task) == Ok(i.task)
    requires Holds(raw, "kind", kind) && Holds(raw, "task", task)
        && Holds(raw, "member_name", OptionToJson(i.memberName))
    requires Holds(raw, "source_branch", OptionToJson(i.sourceBranch))
        && Holds(raw, "source_commit", OptionToJson(i.sourceCommit))
    requires Holds(raw, "expected_head", Str(i.expectedHead)) && Holds(raw, "result_text", OptionToJson(i.resultText))
    requires Holds(raw, "started_at", Str(i.startedAt))
    ensures ParseOptionalIntent(Obj(raw)) == Ok(Some(i))
  {
  }

  lemma StageReadsBack(stage: FailureStage)
    ensures ParseStage(Str(StageName(stage))) == Ok(stage)
  {
  }

  lemma FailureReadsBack(f: IntegrationFailure<string>)
    requires OkFailure(f) && OptionalId(f.commit)
    ensures ParseOptionalFailure(FailureToJson(f)) == Ok(Some(f))
  {
    var paths := AllToJson(f.conflictPaths, TextToJson);
    OptionalTaskReadsBack(f.task);
    AllToJsonAt(f.conflictPaths, TextToJson);
    AllParsed(paths, ParsePath, f.conflictPaths);
    StageReadsBack(f.stage);
    FailureMembers(Str(StageName(f.stage)), Str(f.message), OptionTaskToJson(f.task), OptionToJson(f.memberName),
                   OptionToJson(f.commit), Arr(paths), Str(f.occurredAt));
    FailureFromMembers(FailureToJson(f).fields, f, Str(StageName(f.stage)), OptionTaskToJson(f.task), paths);
  }

  lemma FailureFromMembers(raw: Fields, f: IntegrationFailure<string>, stage: Json, task: Json, paths: seq<Json>)
    requires OkFailure(f) && OptionalId(f.commit)
    requires ParseStage(stage) == Ok(f.stage) && ParseOptionalTask(task) == Ok(f.task)
        && ParseAll(paths, ParsePath) == Ok(f.conflictPaths)
    requires Holds(raw, "stage", stage) && Holds(raw, "message", Str(f.message)) && Holds(raw, "task", task)
    requires Holds(raw, "member_name", OptionToJson(f.memberName)) && Holds(raw, "commit", OptionToJson(f.commit))
    requires Holds(raw, "conflict_paths", Arr(paths)) && Holds(raw, "occurred_at", Str(f.occurredAt))
    ensures ParseOptionalFailure(Obj(raw)) == Ok(Some(f))
  {
  }

  lemma PhaseReadsBack(p: Phase)
    ensures ParsePhase(Str(PhaseName(p))) == Ok(p)
  {
  }

  function IntentMember(r: Round): Json {
    if r.intent.Some? then IntentToJson(r.intent.value) else Null
  }

  function FailureMember(r: Round): Json {
    if r.failure.Some? then FailureToJson(r.failure.value) else Null
  }

  lemma RoundReadsBack(r: Round, key: string)
    requires StorableRound(r)
    ensures ParseRound(RoundToJson(r), key) == Ok(r)
  {
    var accepted := AllToJson(r.accepted, RecordToJson);
    RecordsReadBack(r.accepted);
    PhaseReadsBack(r.phase);
    if r.intent.Some? { IntentReadsBack(r.intent.value); }
    if r.failure.Some? { FailureReadsBack(r.failure.value); }
    RoundMembersBefore(Num(r.number), Str(PhaseName(r.phase)), OptionToJson(r.targetBranch), OptionToJson(r.baseCommit),
                       OptionToJson(r.integrationOwnerId), OptionToJson(r.integrationRoot),
                       OptionToJson(r.integrationBranch),
                       OptionToJson(r.integrationHead), Arr(accepted), IntentMember(r), FailureMember(r),
                       Str(r.startedAt), Str(r.updatedAt), OptionToJson(r.publishedAt));
    RoundMembersBetween(Num(r.number), Str(PhaseName(r.phase)), OptionToJson(r.targetBranch),
                        OptionToJson(r.baseCommit), OptionToJson(r.integrationOwnerId), OptionToJson(r.integrationRoot),
                       OptionToJson(r.integrationBranch),
                       OptionToJson(r.integrationHead), Arr(accepted), IntentMember(r), FailureMember(r),
                       Str(r.startedAt), Str(r.updatedAt), OptionToJson(r.publishedAt));
    RoundMembersAfter(Num(r.number), Str(PhaseName(r.phase)), OptionToJson(r.targetBranch), OptionToJson(r.baseCommit),
                      OptionToJson(r.integrationOwnerId), OptionToJson(r.integrationRoot),
                      OptionToJson(r.integrationBranch),
                      OptionToJson(r.integrationHead), Arr(accepted), IntentMember(r), FailureMember(r),
                      Str(r.startedAt), Str(r.updatedAt), OptionToJson(r.publishedAt));
    TargetFromMembers(RoundToJson(r).fields, r);
    TimesFromMembers(RoundToJson(r).fields, r);
    RoundFromMembers(RoundToJson(r).fields, r, key, Str(PhaseName(r.phase)), accepted, IntentMember(r),
                     FailureMember(r));
  }

  lemma TargetFromMembers(raw: Fields, r: Round)
    requires RoundIds(r)
    requires Holds(raw, "target_branch", OptionToJson(r.targetBranch))
        && Holds(raw, "base_commit", OptionToJson(r.baseCommit))
    requires Holds(raw, "integration_owner_id", OptionToJson(r.integrationOwnerId))
        && Holds(raw, "integration_root", OptionToJson(r.integrationRoot))
    requires Holds(raw, "integration_branch", OptionToJson(r.integrationBranch))
        && Holds(raw, "integration_head", OptionToJson(r.integrationHead))
    ensures ParseTarget(raw) ==
            Ok(Target(r.targetBranch, r.baseCommit, r.integrationOwnerId, r.integrationRoot, r.integrationBranch,
                      r.integrationHead))
  {
  }

  lemma TimesFromMembers(raw: Fields, r: Round)
    requires NotBlank(r.startedAt) && NotBlank(r.updatedAt)
    requires Holds(raw, "started_at", Str(r.startedAt)) && Holds(raw, "updated_at", Str(r.updatedAt))
    requires Holds(raw, "published_at", OptionToJson(r.publishedAt))
    ensures ParseTimes(raw) == Ok(Times(r.startedAt, r.updatedAt, r.publishedAt))
  {
  }

  lemma RoundFromMembers(raw: Fields, r: Round, key: string, phase: Json, accepted: seq<Json>, intent: Json,
                         failure: Json)
    requires OkRound(r)
    requires ParseTarget(raw) ==
             Ok(Target(r.targetBranch, r.baseCommit, r.integrationOwnerId, r.integrationRoot, r.integrationBranch,
                       r.integrationHead))
    requires ParsePhase(phase) == Ok(r.phase) && ParseAll(accepted, ParseRecord) == Ok(r.accepted)
    requires ParseOptionalIntent(intent) == Ok(r.intent) && ParseOptionalFailure(failure) == Ok(r.failure)
    requires Holds(raw, "number", Num(r.number)) && Holds(raw, "phase", phase) && Holds(raw, "accepted", Arr(accepted))
    requires Holds(raw, "intent", intent) && Holds(raw, "failure", failure)
    requires ParseTimes(raw) == Ok(Times(r.startedAt, r.updatedAt, r.publishedAt))
    ensures ParseRound(Obj(raw), key) == Ok(r)
  {
  }

  lemma RoundsReadBack(rs: seq<Round>)
    requires forall k | 0 <= k < |rs| :: StorableRound(rs[k])
    ensures ParseAll(AllToJson(rs, RoundToJson), ParseHistoryItem) == Ok(rs)
  {
    AllToJsonAt(rs, RoundToJson);
    forall k | 0 <= k < |rs| ensures ParseHistoryItem(AllToJson(rs, RoundToJson)[k]) == Ok(rs[k]) {
      RoundReadsBack(rs[k], "history");
    }
    AllParsed(AllToJson(rs, RoundToJson), ParseHistoryItem, rs);
  }

  function CurrentMember(s: State): Json {
    if s.current.Some? then RoundToJson(s.current.value) else Null
  }

  lemma StateFromMembers(raw: Fields, s: State, current: Json, history: seq<Json>)
    requires WellFormed(s) && ParseCurrent(current) == Ok(s.current)
        && ParseAll(history, ParseHistoryItem) == Ok(s.history)
    requires Holds(raw, "schema_version", Num(1)) && Holds(raw, "revision", Num(s.revision))
        && Holds(raw, "next_round", Num(s.nextRound))
    requires Holds(raw, "current", current) && Holds(raw, "history", Arr(history))
    ensures Parse(raw) == Ok(s)
  {
  }

  lemma StateMembers(schemaVersion: Json, revision: Json, nextRound: Json, current: Json, history: Json)
    ensures
      var raw := StateObject(schemaVersion, revision, nextRound, current, history);
      && Holds(raw, "schema_version", schemaVersion) && Holds(raw, "revision", revision)
      && Holds(raw, "next_round", nextRound) && Holds(raw, "current", current) && Holds(raw, "history", history)
  {
  }

  lemma StateReadsBack(s: State)
    requires Storable(s)
    ensures Parse(StateToJson(s)) == Ok(s)
  {
    var history := AllToJson(s.history, RoundToJson);
    forall k | 0 <= k < |s.history| ensures StorableRound(s.history[k]) {
      assert Rounds(s)[k] == s.history[k];
    }
    RoundsReadBack(s.history);
    if s.current.Some? {
      assert Rounds(s)[|s.history|] == s.current.value;
      RoundReadsBack(s.current.value, "current");
    }
    StateMembers(Num(1), Num(s.revision), Num(s.nextRound), CurrentMember(s), Arr(history));
    StateFromMembers(StateToJson(s), s, CurrentMember(s), history);
  }

  // ---------------------------------------------------------------------------
  // The parser accepts nothing else
  // ---------------------------------------------------------------------------

  lemma ParsedRecordIsOk(value: Json)
    requires ParseRecord(value).Ok?
    ensures OkRecord(ParseRecord(value).value) && RecordIds(ParseRecord(value).value)
  {
  }

  lemma ParsedRecordsAreOk(items: seq<Json>, rs: seq<IntegratedTaskRecord<string>>)
    requires ParseAll(items, ParseRecord) == Ok(rs)
    ensures forall k | 0 <= k < |rs| :: OkRecord(rs[k]) && RecordIds(rs[k])
  {
    AllParsed(items, ParseRecord, rs);
    forall k | 0 <= k < |rs| ensures OkRecord(rs[k]) && RecordIds(rs[k]) { ParsedRecordIsOk(items[k]); }
  }

  lemma ParsedIntentIsOk(value: Json)
    requires ParseOptionalIntent(value).Ok? && ParseOptionalIntent(value).value.Some?
    ensures OkIntent(ParseOptionalIntent(value).value.value)
    ensures IsObjectId(ParseOptionalIntent(value).value.value.expectedHead)
        && OptionalId(ParseOptionalIntent(value).value.value.sourceCommit)
  {
  }

  lemma ParsedFailureIsOk(value: Json)
    requires ParseOptionalFailure(value).Ok? && ParseOptionalFailure(value).value.Some?
    ensures OkFailure(ParseOptionalFailure(value).value.value)
        && OptionalId(ParseOptionalFailure(value).value.value.commit)
  {
  }

  lemma ParsedTargetIsOk(raw: Fields)
    requires ParseTarget(raw).Ok?
    ensures OptionalId(ParseTarget(raw).value.base) && OptionalId(ParseTarget(raw).value.head)
  {
  }

  lemma RoundParts(value: Json, key: string)
    requires ParseRound(value, key).Ok?
    ensures
      var r := ParseRound(value, key).value;
      && value.Obj? && r.number >= 1 && UniqueKeys(r.accepted)
      && GetOr(value.fields, "accepted", Arr([])).Arr?
      && ParseAll(GetOr(value.fields, "accepted", Arr([])).items, ParseRecord) == Ok(r.accepted)
      && ParseOptionalIntent(Get(value.fields, "intent")) == Ok(r.intent)
      && ParseOptionalFailure(Get(value.fields, "failure")) == Ok(r.failure)
      && ParseTarget(value.fields).Ok? && r.baseCommit == ParseTarget(value.fields).value.base
      && r.integrationHead == ParseTarget(value.fields).value.head
      && NotBlank(r.startedAt) && NotBlank(r.updatedAt)
  {
  }

  lemma ParsedRoundIsStorable(value: Json, key: string)
    requires ParseRound(value, key).Ok?
    ensures StorableRound(ParseRound(value, key).value)
  {
    var r := ParseRound(value, key).value;
    RoundParts(value, key);
    ParsedRecordsAreOk(GetOr(value.fields, "accepted", Arr([])).items, r.accepted);
    ParsedTargetIsOk(value.fields);
    if r.intent.Some? { ParsedIntentIsOk(Get(value.fields, "intent")); }
    if r.failure.Some? { ParsedFailureIsOk(Get(value.fields, "failure")); }
  }

  lemma ParsedRoundsAreStorable(items: seq<Json>, rs: seq<Round>)
    requires ParseAll(items, ParseHistoryItem) == Ok(rs)
    ensures forall k | 0 <= k < |rs| :: StorableRound(rs[k])
  {
    AllParsed(items, ParseHistoryItem, rs);
    forall k | 0 <= k < |rs| ensures StorableRound(rs[k]) { ParsedRoundIsStorable(items[k], "history"); }
  }

  lemma NumbersFitAll(rounds: seq<Round>, nextRound: int)
    requires NumbersFit(rounds, nextRound)
    ensures Increasing(rounds) && forall i | 0 <= i < |rounds| :: rounds[i].number < nextRound
  {
    forall i | 0 <= i < |rounds| ensures rounds[i].number < nextRound {
      if i < |rounds| - 1 { assert rounds[i].number < rounds[|rounds| - 1].number; }
    }
  }

  lemma ParsedParts(raw: Fields)
    requires Parse(raw).Ok?
    ensures
      var s := Parse(raw).value;
      && s.revision >= 0 && s.nextRound >= 1 && NumbersFit(Rounds(s), s.nextRound)
      && ParseCurrent(Get(raw, "current")) == Ok(s.current)
      && GetOr(raw, "history", Arr([])).Arr? && ParseAll(GetOr(raw, "history", Arr([])).items, ParseHistoryItem) ==
           Ok(s.history)
  {
  }

  lemma PartsAreStorable(s: State)
    requires s.revision >= 0 && s.nextRound >= 1 && NumbersFit(Rounds(s), s.nextRound)
    requires s.current.Some? ==> StorableRound(s.current.value)
    requires forall k | 0 <= k < |s.history| :: StorableRound(s.history[k])
    ensures Storable(s)
  {
    NumbersFitAll(Rounds(s), s.nextRound);
    forall i | 0 <= i < |Rounds(s)| ensures StorableRound(Rounds(s)[i]) {
      if i < |s.history| { assert Rounds(s)[i] == s.history[i]; }
    }
  }

  /** Whatever the parser lets through is well formed: damaged files are never silently repaired. */
  lemma ParsedIsStorable(raw: Fields)
    requires Parse(raw).Ok?
    ensures Storable(Parse(raw).value)
  {
    ParsedParts(raw);
    ParsedRoundsAreStorable(GetOr(raw, "history", Arr([])).items, Parse(raw).value.history);
    if Parse(raw).value.current.Some? { ParsedRoundIsStorable(Get(raw, "current"), "current"); }
    PartsAreStorable(Parse(raw).value);
  }

  /** A state survives being written and read exactly when it is storable. */
  lemma ReadsBackIffStorable(s: State)
    ensures Parse(StateToJson(s)) == Ok(s) <==> Storable(s)
  {
    if Storable(s) { StateReadsBack(s); }
    if Parse(StateToJson(s)).Ok? { ParsedIsStorable(StateToJson(s)); }
  }
}
