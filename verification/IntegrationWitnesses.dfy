/**
 Runs from an empty repository in which the integration service does what one would not expect of
 it: a completed task is never accepted, accepted work is left behind, and a file becomes unreadable.
 */
module IntegrationWitnesses {
  import opened Wrappers
  import opened TeamModels
  import opened TeamTasks
  import opened GitGraph
  import opened IntegrationChain
  import opened IntegrationProtocol
  import opened IntegrationSafety
  import opened IntegrationCompletion

  // ---------------------------------------------------------------------------
  // One task merged and accepted
  // ---------------------------------------------------------------------------

  const T: string := "t"
  const KEY_A: TaskAttemptRef := TaskAttemptRef("a", 1)
  const KEY_B: TaskAttemptRef := TaskAttemptRef("b", 1)

  function Lead(): Tree {
    Tree(Some("main"), 0, NoOperation, true)
  }

  function Task(id: string): TeamTask {
    TeamTask(id, CodeTask, TaskPending, [], None, T, 1, 1, None, None)
  }

  function Tasks(): Tasks {
    map["a" := Task("a"), "b" := Task("b")]
  }

  function Record(): Record {
    IntegratedTaskRecord(KEY_A, "m", "team/m", 1, 0, 2, T)
  }

  lemma NotBlankT()
    ensures NotBlank(T) && NotBlank("m") && NotBlank("team/m") && NotBlank("a") && NotBlank("b")
  {
    assert !IsSpace(T[0]) && !IsSpace("m"[0]) && !IsSpace("team/m"[0]) && !IsSpace("a"[0]) && !IsSpace("b"[0]);
  }

  /** A task of the first round, in its first attempt. */
  predicate IsFirstAttempt(tasks: Tasks, id: string) {
    id in tasks && tasks[id].attempt == 1 && tasks[id].kind == CodeTask && tasks[id].integrationRound == 1
  }

  lemma Assigned() returns (w: World)
    ensures Reachable(w)
    ensures w == World(TeamIntegrationState(2, 2, Some(NewRound(1, T)), []), [[]], Lead(), [], map[], map[], map[])
  {
    NotBlankT();
    var start := World(TeamIntegrationState(1, 1, None, []), [[]], Lead(), [], map[], map[], map[]);
    StartIsReachable(start);
    w := Next(start, Assign(T));
  }

  lemma Posted() returns (w: World)
    ensures Reachable(w)
    ensures w == World(TeamIntegrationState(2, 2, Some(NewRound(1, T)), []), [[], [0]], Lead(), [], map[], map[],
                       Tasks())
  {
    var w0 := Assigned();
    var post := Outsiders(Lead(), [[0]], map[], Tasks());
    assert w0.commits + post.created == [[], [0]];
    w := Next(w0, post);
  }

  function Captured0(): Round {
    NewRound(1, T).(targetBranch := Some("main"), baseCommit := Some(0), integrationOwnerId := Some("o"),
                    integrationRoot := Some("r"), integrationBranch := Some("i"), integrationHead := Some(0))
  }

  lemma WithTree() returns (w: World)
    ensures Reachable(w) && w.state.current == Some(NewRound(1, T)) && w.state.history == []
    ensures w.commits == [[], [0]] && w.lead == Lead() && w.leadLog == [] && w.tasks == Tasks()
    ensures w.inner == map[1 := InnerTree(0, 0, NoOperation, true)]
  {
    var w0 := Posted();
    w := Next(w0, CreateTree(1, 0));
  }

  lemma CapturedRound() returns (w: World)
    ensures Reachable(w) && w.state.current == Some(Captured0()) && w.state.history == []
    ensures w.commits == [[], [0]] && w.lead == Lead() && w.leadLog == [] && w.tasks == Tasks()
    ensures w.inner == map[1 := InnerTree(0, 0, NoOperation, true)]
  {
    NotBlankT();
    var w0 := WithTree();
    w := Next(w0, Capture("main", 0, "o", "r", "i", T));
  }

  lemma ClaimedA() returns (w: World)
    ensures Reachable(w) && w.state.current == Some(Captured0()) && w.state.history == []
    ensures w.commits == [[], [0]] && w.lead == Lead() && w.leadLog == []
    ensures w.inner == map[1 := InnerTree(0, 0, NoOperation, true)]
    ensures IsFirstAttempt(w.tasks, "a") && w.tasks["a"].status == TaskInProgress && w.tasks["a"].id == "a"
    ensures "b" in w.tasks && w.tasks["b"] == Task("b")
  {
    var w0 := CapturedRound();
    w := Next(w0, Claim("a", "m", 0, false));
  }

  lemma ClaimedBoth() returns (w: World)
    ensures Reachable(w) && w.state.current == Some(Captured0()) && w.state.history == []
    ensures w.commits == [[], [0]] && w.lead == Lead() && w.leadLog == []
    ensures w.inner == map[1 := InnerTree(0, 0, NoOperation, true)]
    ensures IsFirstAttempt(w.tasks, "a") && w.tasks["a"].status == TaskInProgress && w.tasks["a"].id == "a"
    ensures IsFirstAttempt(w.tasks, "b") && w.tasks["b"].status == TaskInProgress
  {
    var w0 := ClaimedA();
    w := Next(w0, Claim("b", "n", 0, false));
  }

  function Merging0(): Round {
    Captured0().(phase := Integrating,
                 intent := Some(IntegrationIntent(MergeTask, Some(KEY_A), Some("m"), Some("team/m"), Some(1), 0,
                                                  Some("done"), T)))
  }

  lemma FirstCommitIsNew(g: Commits)
    requires g == [[], [0]]
    ensures Ancestor(g, 0, 1) && !Ancestor(g, 1, 0)
  {
    assert Ancestor(g, 0, g[1][0]);
  }

  lemma AnnouncedA() returns (w: World)
    ensures Reachable(w) && w.state.current == Some(Merging0()) && w.state.history == []
    ensures w.commits == [[], [0]] && w.lead == Lead() && w.leadLog == []
    ensures w.inner == map[1 := InnerTree(0, 0, NoOperation, true)]
    ensures IsFirstAttempt(w.tasks, "a") && w.tasks["a"].status == TaskInProgress && w.tasks["a"].id == "a"
    ensures IsFirstAttempt(w.tasks, "b") && w.tasks["b"].status == TaskInProgress
  {
    NotBlankT();
    var w0 := ClaimedBoth();
    FirstCommitIsNew(w0.commits);
    w := Next(w0, BeginMerge(KEY_A, "m", "team/m", 0, 1, "done", T));
  }

  lemma MergedA() returns (w: World)
    ensures Reachable(w) && w.state.current == Some(Merging0()) && w.state.history == []
    ensures w.commits == [[], [0], [0, 1]] && w.lead == Lead() && w.leadLog == []
    ensures w.inner == map[1 := InnerTree(0, 2, NoOperation, true)]
    ensures IsFirstAttempt(w.tasks, "a") && w.tasks["a"].status == TaskInProgress && w.tasks["a"].id == "a"
    ensures IsFirstAttempt(w.tasks, "b") && w.tasks["b"].status == TaskInProgress
  {
    var w0 := AnnouncedA();
    FirstCommitIsNew(w0.commits);
    w := Next(w0, MergeCommit(true));
  }

  lemma CompletedA() returns (w: World)
    ensures Reachable(w) && w.state.current == Some(Merging0()) && w.state.history == []
    ensures w.commits == [[], [0], [0, 1]] && w.lead == Lead() && w.leadLog == []
    ensures w.inner == map[1 := InnerTree(0, 2, NoOperation, true)]
    ensures IsFirstAttempt(w.tasks, "a") && CompletedAs(w.tasks, "a", 1) && w.tasks["a"].id == "a"
    ensures IsFirstAttempt(w.tasks, "b") && w.tasks["b"].status == TaskInProgress
  {
    var w0 := MergedA();
    w := Next(w0, Complete);
  }

  function Accepted0(): Round {
    Captured0().(phase := Active, integrationHead := Some(2), accepted := [Record()])
  }

  lemma MayAcceptA(w: World)
    requires w.state.current == Some(Merging0()) && w.commits == [[], [0], [0, 1]]
        && w.inner == map[1 := InnerTree(0, 2, NoOperation, true)]
    requires IsFirstAttempt(w.tasks, "a") && CompletedAs(w.tasks, "a", 1)
    ensures MayHappen(w, Accept(Record(), T))
  {
    NotBlankT();
    assert IsMerge(w.commits, 2, 0, 1);
    assert OkRecord(Record()) && AttemptSettled(w.tasks, KEY_A, 1);
  }

  /** The first task is accepted. */
  lemma AcceptedA() returns (w: World)
    ensures Reachable(w) && w.state.current == Some(Accepted0()) && w.state.history == []
    ensures w.commits == [[], [0], [0, 1]] && w.lead == Lead() && w.leadLog == []
    ensures w.inner == map[1 := InnerTree(0, 2, NoOperation, true)]
    ensures IsFirstAttempt(w.tasks, "a") && CompletedAs(w.tasks, "a", 1) && w.tasks["a"].id == "a"
    ensures IsFirstAttempt(w.tasks, "b") && w.tasks["b"].status == TaskInProgress
  {
    var w0 := CompletedA();
    MayAcceptA(w0);
    w := Next(w0, Accept(Record(), T));
    assert Merging0().accepted + [Record()] == [Record()];
  }

  // ---------------------------------------------------------------------------
  // A completed task that is never accepted
  // ---------------------------------------------------------------------------

  lemma SecondIsContained(g: Commits)
    requires g == [[], [0], [0, 1]]
    ensures Ancestor(g, 1, 2) && Ancestor(g, 0, 1) && Ancestor(g, 0, 2)
  {
    assert Ancestor(g, 1, g[2][1]) && Ancestor(g, 0, g[1][0]) && Ancestor(g, 0, g[2][0]);
  }

  /** The second member hands in the commit that the first has handed in already. */
  lemma BeginsB() returns (w: World, b: Action)
    ensures Reachable(w) && Inv(w) && b.BeginMerge? && b.key == KEY_B && Enabled(w, b) && WorksOn(w, b)
    ensures Cur(w).number == 1 && Cur(w).accepted == [Record()]
        && Ancestor(w.commits, b.source, Cur(w).integrationHead.value)
  {
    w := AcceptedA();
    b := BeginMerge(KEY_B, "n", "team/n", 0, 1, "done", T);
    SecondIsContained(w.commits);
    MayBeginB(w);
    hide Reachable, MayHappen;
    ReachableIsSound(w);
  }

  lemma MayBeginB(w: World)
    requires w.state.current == Some(Accepted0()) && w.state.history == [] && w.commits == [[], [0], [0, 1]]
    requires w.inner == map[1 := InnerTree(0, 2, NoOperation, true)]
    requires IsFirstAttempt(w.tasks, "b") && w.tasks["b"].status == TaskInProgress
    ensures Enabled(w, BeginMerge(KEY_B, "n", "team/n", 0, 1, "done", T))
  {
    NotBlankT();
    assert !IsSpace("n"[0]) && !IsSpace("team/n"[0]);
    SecondIsContained(w.commits);
    hide Ancestor, NotBlank;
  }

  /** There is nothing to merge for it, and a stop between completing the task and recording it strands the task. */
  lemma CompletedButNotAccepted() returns (w: World)
    ensures Reachable(w) && Stranded(w, 1, KEY_B)
  {
    hide Inv, After, MayHappen;
    var w0, b := BeginsB();
    var w1, w2, w3 := ContainedWorkStrands(w0, b);
    w1 := Next(w0, b);
    w2 := Next(w1, Complete);
    w := Next(w2, ClearIntent(Active, None, b.now));
  }

  // ---------------------------------------------------------------------------
  // Accepted work that is left behind
  // ---------------------------------------------------------------------------

  /** Others change the tasks, and nothing else. */
  lemma ChangeTasks(w: World, tasks: Tasks) returns (v: World)
    requires Reachable(w) && TasksEvolve(w.tasks, tasks) && NewIds(w, tasks)
    requires ValidCommits(w.commits) && Exists(w.commits, w.lead.head)
    ensures Reachable(v) && v == w.(tasks := tasks, members := map[])
  {
    var a := Outsiders(w.lead, [], map[], tasks);
    assert w.commits + a.created == w.commits;
    v := Next(w, a);
  }

  lemma StartedOver() returns (w: World)
    ensures Reachable(w) && w.state.current == Some(Accepted0()) && w.state.history == []
    ensures w.commits == [[], [0], [0, 1]] && w.lead == Lead() && w.tasks.Keys == {"a"} && w.tasks["a"].attempt == 2
  {
    var w0 := AcceptedA();
    var again := w0.tasks["a"].(status := TaskPending, attempt := 2, assignee := None, startCommit := None,
                                commit := None);
    w := ChangeTasks(w0, map["a" := again]);
  }

  /** The accepted task is started over, which begins an attempt that is not accepted, and is then deleted. */
  lemma AcceptedWorkLeftBehind() returns (w: World, v: World)
    ensures Reachable(w) && w.tasks == map[] && Lists(w.tasks, []) && HasRound(w) && Cur(w).accepted == [Record()]
    ensures Enabled(w, ArchiveUnneeded([], T)) && v == After(w, ArchiveUnneeded([], T))
    ensures !HasRound(v) && LastRound(v).phase == NotNeeded && LastRound(v).accepted == [Record()]
  {
    NotBlankT();
    var w0 := StartedOver();
    w := ChangeTasks(w0, map[]);
    MayArchiveEmpty(w);
    hide Reachable, MayHappen, NotBlank;
    v := Next(w, ArchiveUnneeded([], T));
  }

  lemma MayArchiveEmpty(w: World)
    requires HasRound(w) && !Resurrected(w) && NotBlank(T)
    ensures Enabled(w, ArchiveUnneeded([], T))
  {
  }

  // ---------------------------------------------------------------------------
  // A file that its own parser refuses
  // ---------------------------------------------------------------------------

  lemma OnlyA() returns (w: World)
    ensures Reachable(w) && w.state.current == Some(Accepted0()) && w.state.history == []
    ensures w.commits == [[], [0], [0, 1]] && w.lead == Lead() && w.leadLog == []
    ensures w.inner == map[1 := InnerTree(0, 2, NoOperation, true)]
    ensures IsFirstAttempt(w.tasks, "a") && CompletedAs(w.tasks, "a", 1) && w.tasks["a"].id == "a"
        && w.tasks.Keys == {"a"}
  {
    var w0 := AcceptedA();
    w := ChangeTasks(w0, map["a" := w0.tasks["a"]]);
  }

  lemma SnapshotIsComplete(w: World, snapshot: seq<TeamTask>)
    requires HasRound(w) && Cur(w) == Accepted0() && |snapshot| == 1
    requires snapshot[0].id == "a" && snapshot[0].attempt == 1 && snapshot[0].kind == CodeTask
    requires snapshot[0].integrationRound == 1 && snapshot[0].status == TaskCompleted
    ensures AllCompleted(snapshot, 1) && SomeCode(snapshot, 1) && AllCodeAccepted(snapshot, Cur(w))
  {
    assert Cur(w).accepted[0].task == TaskAttemptRef(snapshot[0].id, snapshot[0].attempt);
  }

  function Publishing0(): Round {
    Accepted0().(phase := Publishing, intent := Some(PublishIntent(2, T)))
  }

  lemma AnnouncedPublish() returns (w: World)
    ensures Reachable(w) && w.state.current == Some(Publishing0()) && w.state.history == []
    ensures w.commits == [[], [0], [0, 1]] && w.lead == Lead() && w.leadLog == []
  {
    NotBlankT();
    var w0 := OnlyA();
    var snapshot := [w0.tasks["a"]];
    SnapshotIsComplete(w0, snapshot);
    w := Next(w0, BeginPublish(snapshot, T));
  }

  lemma Forwarded() returns (w: World)
    ensures Reachable(w) && w.state.current == Some(Publishing0()) && w.state.history == [] && w.lead.head == 2
  {
    var w0 := AnnouncedPublish();
    SecondIsContained(w0.commits);
    w := Next(w0, ForwardLead);
  }

  lemma PublishedA() returns (w: World)
    ensures Reachable(w) && HasRound(w) && Captured(Cur(w)) && w.state.history == []
    ensures Cur(w).phase == Published && Cur(w).intent.None? && Cur(w).number == 1
  {
    NotBlankT();
    var w0 := Forwarded();
    w := Next(w0, MarkPublished(T));
  }

  lemma ArchivedA() returns (w: World)
    ensures Reachable(w) && !HasRound(w) && w.state.history != [] && LastRound(w).phase == Published
        && LastRound(w).intent.None?
  {
    NotBlankT();
    var w0 := PublishedA();
    w := Next(w0, Archive(None, T));
  }

  /** Recovery archives a published round, and the summary that it then makes fails: the round is written back. */
  lemma UnreadableFile() returns (w: World, v: World)
    ensures Reachable(w) && WellFormed(w.state) && !HasRound(w)
    ensures Reachable(v) && !WellFormed(v.state) && HasRound(v)
  {
    NotBlankT();
    w := ArchivedA();
    ReachableIsSound(w);
    var failure := IntegrationFailure(RecoveryStage, T, None, None, None, [], T);
    v := Next(w, Resurrect(failure, T));
    CopyLeavesIntact(w, Resurrect(failure, T), v);
    CopyIsRefused(v);
  }
}
