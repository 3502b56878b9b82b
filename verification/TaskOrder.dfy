/**
 Dependency order of tasks (`_topological_tasks`): whole waves of ready tasks, each wave sorted
 by creation time and id, or an error when the dependencies among the given tasks form a cycle.
 */
module TaskOrder {
  import opened Wrappers
  import opened TeamTasks

  datatype OrderError = DependencyCycle

  // ---------------------------------------------------------------------------
  // The sort key
  // ---------------------------------------------------------------------------

  predicate TextLess(a: string, b: string) {
    if a == [] || b == [] then a == [] && b != []
    else a[0] < b[0] || (a[0] == b[0] && TextLess(a[1..], b[1..]))
  }

  /** Earlier creation first, ties broken by id. */
  predicate KeyLess(a: TeamTask, b: TeamTask) {
    TextLess(a.createdAt, b.createdAt) || (a.createdAt == b.createdAt && TextLess(a.id, b.id))
  }

  lemma {:induction false} TextLessTotal(a: string, b: string)
    ensures TextLess(a, b) || TextLess(b, a) || a == b
    ensures !(TextLess(a, b) && TextLess(b, a)) && !TextLess(a, a)
  {
    if a != [] {
      TextLessIrreflexive(a);
      if b != [] {
        TextLessTotal(a[1..], b[1..]);
        assert a == [a[0]] + a[1..] && b == [b[0]] + b[1..];
      }
    }
  }

  lemma {:induction false} TextLessIrreflexive(a: string)
    ensures !TextLess(a, a)
  {
    if a != [] { TextLessIrreflexive(a[1..]); }
  }

  lemma {:induction false} TextLessTransitive(a: string, b: string, c: string)
    requires TextLess(a, b) && TextLess(b, c)
    ensures TextLess(a, c)
  {
    if a != [] && a[0] == b[0] && b[0] == c[0] {
      TextLessTransitive(a[1..], b[1..], c[1..]);
    }
  }

  lemma KeyLessOrders(a: TeamTask, b: TeamTask)
    ensures a.id != b.id ==> KeyLess(a, b) || KeyLess(b, a)
    ensures !(KeyLess(a, b) && KeyLess(b, a))
  {
    TextLessTotal(a.createdAt, b.createdAt);
    TextLessTotal(a.id, b.id);
  }

  lemma KeyLessTransitive(a: TeamTask, b: TeamTask, c: TeamTask)
    requires KeyLess(a, b) && KeyLess(b, c)
    ensures KeyLess(a, c)
  {
    if TextLess(a.createdAt, b.createdAt) && TextLess(b.createdAt, c.createdAt) {
      TextLessTransitive(a.createdAt, b.createdAt, c.createdAt);
    } else if a.createdAt == b.createdAt == c.createdAt {
      TextLessTransitive(a.id, b.id, c.id);
    }
  }

  ghost predicate Sorted(tasks: seq<TeamTask>) {
    forall i, j | 0 <= i < j < |tasks| :: KeyLess(tasks[i], tasks[j])
  }

  function Insert(tasks: seq<TeamTask>, task: TeamTask): seq<TeamTask> {
    if tasks == [] || KeyLess(task, tasks[0]) then [task] + tasks
    else [tasks[0]] + Insert(tasks[1..], task)
  }

  lemma {:induction false} InsertSorts(tasks: seq<TeamTask>, task: TeamTask)
    requires Sorted(tasks) && forall t | t in tasks :: t.id != task.id
    ensures Sorted(Insert(tasks, task))
    ensures multiset(Insert(tasks, task)) == multiset(tasks) + multiset{task}
  {
    if tasks == [] {
    } else if KeyLess(task, tasks[0]) {
      forall j | 0 <= j < |tasks| ensures KeyLess(task, tasks[j]) {
        if j > 0 { KeyLessTransitive(task, tasks[0], tasks[j]); }
      }
    } else {
      KeyLessOrders(task, tasks[0]);
      InsertSorts(tasks[1..], task);
      assert tasks == [tasks[0]] + tasks[1..];
      forall t | t in Insert(tasks[1..], task) ensures KeyLess(tasks[0], t) {
        assert t in multiset(Insert(tasks[1..], task));
        if t != task { assert t in tasks[1..]; }
      }
    }
  }

  /** `sorted(...)` over the tasks with the given ids. */
  method SortById(byId: map<string, TeamTask>, ids: set<string>) returns (r: seq<TeamTask>)
    requires ids <= byId.Keys && Keyed(byId)
    ensures Sorted(r)
    ensures forall t :: t in r <==> t.id in ids && t == byId[t.id]
  {
    r := [];
    var rest := ids;
    while rest != {}
      invariant rest <= ids && Sorted(r)
      invariant forall t :: t in r <==> t.id in ids - rest && t == byId[t.id]
      decreases rest
    {
      var id :| id in rest;
      InsertSorts(r, byId[id]);
      forall t ensures t in Insert(r, byId[id]) <==> t in r || t == byId[id] {
        assert t in Insert(r, byId[id]) <==> t in multiset(Insert(r, byId[id]));
      }
      r := Insert(r, byId[id]);
      rest := rest - {id};
    }
  }

  // ---------------------------------------------------------------------------
  // Dependencies
  // ---------------------------------------------------------------------------

  /** `{task.id: task for task in tasks}`: a later task replaces an earlier one with its id. */
  function ById(tasks: seq<TeamTask>): (m: map<string, TeamTask>)
    ensures Keyed(m)
    ensures forall id :: id in m <==> exists t :: t in tasks && t.id == id
    ensures forall id | id in m :: m[id] in tasks
  {
    if tasks == [] then map[]
    else
      var last := |tasks| - 1;
      assert forall t :: t in tasks <==> t in tasks[..last] || t == tasks[last];
      ById(tasks[..last])[tasks[last].id := tasks[last]]
  }

  predicate Keyed(byId: map<string, TeamTask>) {
    forall id | id in byId :: byId[id].id == id
  }

  /** Each task of `c` depends on the next one, and the last on the first. */
  ghost predicate Cycle(byId: map<string, TeamTask>, c: seq<string>) {
    && |c| > 0
    && (forall i | 0 <= i < |c| :: c[i] in byId)
    && (forall i | 0 <= i < |c| - 1 :: c[i + 1] in byId[c[i]].dependencies)
    && c[0] in byId[c[|c| - 1]].dependencies
  }

  ghost predicate HasCycle(byId: map<string, TeamTask>) {
    exists c :: Cycle(byId, c)
  }

  predicate Ready(byId: map<string, TeamTask>, remaining: set<string>, id: string)
    requires id in byId
  {
    forall d | d in byId[id].dependencies :: d !in remaining
  }

  ghost predicate Stuck(byId: map<string, TeamTask>, remaining: set<string>)
    requires remaining <= byId.Keys
  {
    forall id {:trigger Ready(byId, remaining, id)} | id in remaining :: !Ready(byId, remaining, id)
  }

  /** Follows, from `id`, one unfinished dependency after another. */
  ghost function Walk(byId: map<string, TeamTask>, remaining: set<string>, id: string, n: nat): (w: seq<string>)
    requires remaining <= byId.Keys && id in remaining
    requires Stuck(byId, remaining)
    ensures |w| == n + 1 && w[0] == id
    ensures forall i | 0 <= i < |w| :: w[i] in remaining
    ensures forall i | 0 <= i < |w| - 1 :: w[i + 1] in byId[w[i]].dependencies
    decreases n
  {
    if n == 0 then [id]
    else
      assert !Ready(byId, remaining, id);
      var next :| next in byId[id].dependencies && next in remaining;
      [id] + Walk(byId, remaining, next, n - 1)
  }

  lemma {:induction false} Pigeonhole(w: seq<string>, s: set<string>)
    requires forall i | 0 <= i < |w| :: w[i] in s
    requires |w| > |s|
    ensures exists i, j :: 0 <= i < j < |w| && w[i] == w[j]
  {
    var last := |w| - 1;
    if j :| 0 <= j < last && w[j] == w[last] {
    } else {
      Pigeonhole(w[..last], s - {w[last]});
      var i, j :| 0 <= i < j < last && w[..last][i] == w[..last][j];
      assert w[i] == w[j];
    }
  }

  /** When nothing is ready, the walk through unfinished dependencies must close. */
  lemma StuckHasCycle(byId: map<string, TeamTask>, remaining: set<string>) returns (c: seq<string>)
    requires remaining <= byId.Keys && remaining != {}
    requires Stuck(byId, remaining)
    ensures Cycle(byId, c)
  {
    var id :| id in remaining;
    var w := Walk(byId, remaining, id, |remaining|);
    Pigeonhole(w, remaining);
    var i, j :| 0 <= i < j < |w| && w[i] == w[j];
    c := w[i..j];
    assert c[|c| - 1] == w[j - 1] && w[j - 1 + 1] in byId[w[j - 1]].dependencies;
    forall k | 0 <= k < |c| - 1 ensures c[k + 1] in byId[c[k]].dependencies {
      assert w[i + k + 1] in byId[w[i + k]].dependencies;
    }
  }

  // ---------------------------------------------------------------------------
  // The order
  // ---------------------------------------------------------------------------

  /** Every dependency among the given tasks stands before the task at `k`. */
  ghost predicate DependenciesFirst(byId: map<string, TeamTask>, ordered: seq<TeamTask>) {
    forall k, d | 0 <= k < |ordered| && d in ordered[k].dependencies && d in byId ::
      exists j :: 0 <= j < k && ordered[j].id == d
  }

  /**
   First the tasks that wait for none of `remaining`, sorted by key, then the layers of what is
   left once those are done.
   */
  ghost predicate Layered(byId: map<string, TeamTask>, remaining: set<string>, ordered: seq<TeamTask>)
    requires remaining <= byId.Keys
    decreases remaining, 1
  {
    if ReadyIds(byId, remaining) == {} then remaining == {} && ordered == []
    else exists k: nat :: FirstLayerEnds(byId, remaining, ordered, k)
  }

  /** The first `k` tasks are the first layer. */
  ghost predicate FirstLayerEnds(byId: map<string, TeamTask>, remaining: set<string>, ordered: seq<TeamTask>, k: nat)
    requires remaining <= byId.Keys && ReadyIds(byId, remaining) != {}
    decreases remaining, 0
  {
    var ready := ReadyIds(byId, remaining);
    k <= |ordered| && IsLayer(byId, ready, ordered[..k]) && Layered(byId, remaining - ready, ordered[k..])
  }

  /** The tasks with the given ids, once each, in key order. */
  ghost predicate IsLayer(byId: map<string, TeamTask>, ids: set<string>, layer: seq<TeamTask>)
    requires ids <= byId.Keys
  {
    Sorted(layer) && forall t :: t in layer <==> t.id in ids && t == byId[t.id]
  }

  /** The whole specification of a successful run. */
  ghost predicate IsOrder(byId: map<string, TeamTask>, ordered: seq<TeamTask>) {
    && (forall t :: t in ordered <==> t.id in byId && t == byId[t.id])
    && (forall i, j | 0 <= i < j < |ordered| :: ordered[i].id != ordered[j].id)
    && DependenciesFirst(byId, ordered)
    && Layered(byId, byId.Keys, ordered)
  }

  /** What holds before each layer is taken. */
  ghost predicate Progress(byId: map<string, TeamTask>, remaining: set<string>, ordered: seq<TeamTask>) {
    && Keyed(byId) && remaining <= byId.Keys
    && (forall t :: t in ordered <==> t.id in byId.Keys - remaining && t == byId[t.id])
    && (forall i, j | 0 <= i < j < |ordered| :: ordered[i].id != ordered[j].id)
    && DependenciesFirst(byId, ordered)
  }

  /** Completing the layers of `remaining` completes the whole order. */
  ghost predicate Completes(byId: map<string, TeamTask>, remaining: set<string>, ordered: seq<TeamTask>)
    requires remaining <= byId.Keys
  {
    forall rest | Layered(byId, remaining, rest) :: Layered(byId, byId.Keys, ordered + rest)
  }

  ghost predicate CyclesIn(byId: map<string, TeamTask>, remaining: set<string>) {
    forall c, i | Cycle(byId, c) && 0 <= i < |c| :: c[i] in remaining
  }

  function ReadyIds(byId: map<string, TeamTask>, remaining: set<string>): set<string>
    requires remaining <= byId.Keys
  {
    set id | id in remaining && Ready(byId, remaining, id)
  }

  method TopologicalTasks(tasks: seq<TeamTask>) returns (r: Result<seq<TeamTask>, OrderError>)
    ensures r.Ok? ==> IsOrder(ById(tasks), r.value)
    ensures r.Err? <==> HasCycle(ById(tasks))
  {
    var byId := ById(tasks);
    var remaining := byId.Keys;
    var ordered: seq<TeamTask> := [];
    assert Completes(byId, remaining, ordered) by {
      forall rest ensures ordered + rest == rest {}
    }
    while remaining != {}
      invariant Progress(byId, remaining, ordered)
      invariant Completes(byId, remaining, ordered)
      invariant CyclesIn(byId, remaining)
      decreases remaining
    {
      var ready := SortById(byId, ReadyIds(byId, remaining));
      if ready == [] {
        assert forall id | id in ReadyIds(byId, remaining) :: byId[id] in ready;
        assert ReadyIds(byId, remaining) == {};
        ghost var c := StuckHasCycle(byId, remaining);
        return Err(DependencyCycle);
      }
      assert ready[0].id in ReadyIds(byId, remaining);
      CyclesStay(byId, remaining);
      TakeLayer(byId, remaining, ordered, ready);
      LayerCompletes(byId, remaining, ordered, ready);
      ordered := ordered + ready;
      remaining := remaining - ReadyIds(byId, remaining);
    }
    if HasCycle(byId) { CycleIsUnfinished(byId, remaining); }
    assert Layered(byId, remaining, []) && ordered + [] == ordered;
    return Ok(ordered);
  }

  lemma CycleIsUnfinished(byId: map<string, TeamTask>, remaining: set<string>)
    requires CyclesIn(byId, remaining) && HasCycle(byId)
    ensures remaining != {}
  {
    var c :| Cycle(byId, c);
    assert c[0] in remaining;
  }

  /** A cycle never loses a task: each of its tasks waits for the next. */
  lemma CyclesStay(byId: map<string, TeamTask>, remaining: set<string>)
    requires remaining <= byId.Keys && CyclesIn(byId, remaining)
    ensures CyclesIn(byId, remaining - ReadyIds(byId, remaining))
  {
    forall c, i | Cycle(byId, c) && 0 <= i < |c|
      ensures c[i] !in ReadyIds(byId, remaining)
    {
      var next := if i + 1 < |c| then c[i + 1] else c[0];
      assert next in byId[c[i]].dependencies && next in remaining;
    }
  }

  lemma LayerCompletes(byId: map<string, TeamTask>, remaining: set<string>, ordered: seq<TeamTask>,
                       ready: seq<TeamTask>)
    requires remaining <= byId.Keys && ready != [] && IsLayer(byId, ReadyIds(byId, remaining), ready)
    requires Completes(byId, remaining, ordered)
    ensures Completes(byId, remaining - ReadyIds(byId, remaining), ordered + ready)
  {
    var ids := ReadyIds(byId, remaining);
    assert ready[0].id in ids;
    forall rest | Layered(byId, remaining - ids, rest)
      ensures Layered(byId, byId.Keys, ordered + ready + rest)
    {
      var both := ready + rest;
      assert both[..|ready|] == ready && both[|ready|..] == rest;
      assert FirstLayerEnds(byId, remaining, both, |ready|);
      assert ordered + both == ordered + ready + rest;
    }
  }

  lemma TakeLayer(byId: map<string, TeamTask>, remaining: set<string>, ordered: seq<TeamTask>, ready: seq<TeamTask>)
    requires Progress(byId, remaining, ordered) && IsLayer(byId, ReadyIds(byId, remaining), ready)
    ensures Progress(byId, remaining - ReadyIds(byId, remaining), ordered + ready)
  {
    var all := ordered + ready;
    forall t ensures t in all <==> t in ordered || t in ready {}
    LayerAfterDependencies(byId, remaining, ordered, ready);
    forall i, j | 0 <= i < j < |all|
      ensures all[i].id != all[j].id
    {
      if j >= |ordered| {
        assert all[j] in ready;
        if i < |ordered| {
          assert all[i] in ordered;
        } else {
          KeyLessOrders(all[i], all[j]);
          assert all[i] in ready && all[i] == byId[all[i].id];
          KeyLessOrders(all[i], all[i]);
        }
      }
    }
  }

  lemma LayerAfterDependencies(byId: map<string, TeamTask>, remaining: set<string>, ordered: seq<TeamTask>,
                               ready: seq<TeamTask>)
    requires Progress(byId, remaining, ordered) && IsLayer(byId, ReadyIds(byId, remaining), ready)
    ensures DependenciesFirst(byId, ordered + ready)
  {
    var all := ordered + ready;
    forall k, d | 0 <= k < |all| && d in all[k].dependencies && d in byId
      ensures exists j :: 0 <= j < k && all[j].id == d
    {
      if k >= |ordered| {
        assert all[k] in ready && d !in remaining;
        assert byId[d] in ordered;
        var j :| 0 <= j < |ordered| && ordered[j] == byId[d];
        assert all[j].id == d;
      } else {
        assert d in ordered[k].dependencies;
        var j :| 0 <= j < k && ordered[j].id == d;
        assert all[j].id == d;
      }
    }
  }

  // ---------------------------------------------------------------------------
  // The order is determined by the tasks
  // ---------------------------------------------------------------------------

  /** The order in which a set is visited does not show: layers of the same tasks are the same sequence. */
  lemma {:induction false} OrderIsUnique(byId: map<string, TeamTask>, remaining: set<string>, a: seq<TeamTask>,
                                         b: seq<TeamTask>)
    requires remaining <= byId.Keys && Layered(byId, remaining, a) && Layered(byId, remaining, b)
    ensures a == b
    decreases remaining
  {
    var ready := ReadyIds(byId, remaining);
    if ready != {} {
      var a0, a1 := FirstLayer(byId, remaining, a);
      var b0, b1 := FirstLayer(byId, remaining, b);
      LayersAgree(byId, ready, a0, b0);
      OrderIsUnique(byId, remaining - ready, a1, b1);
    }
  }

  lemma FirstLayer(byId: map<string, TeamTask>, remaining: set<string>, a: seq<TeamTask>)
      returns (layer: seq<TeamTask>, rest: seq<TeamTask>)
    requires remaining <= byId.Keys && Layered(byId, remaining, a) && ReadyIds(byId, remaining) != {}
    ensures a == layer + rest && IsLayer(byId, ReadyIds(byId, remaining), layer)
    ensures Layered(byId, remaining - ReadyIds(byId, remaining), rest)
  {
    var i: nat :| FirstLayerEnds(byId, remaining, a, i);
    layer, rest := a[..i], a[i..];
  }

  lemma LayersAgree(byId: map<string, TeamTask>, ready: set<string>, a: seq<TeamTask>, b: seq<TeamTask>)
    requires ready <= byId.Keys && IsLayer(byId, ready, a) && IsLayer(byId, ready, b)
    ensures a == b
  {
    forall t ensures t in a <==> t in b {}
    SortedPermutationsAgree(a, b);
  }

  lemma {:induction false} SortedPermutationsAgree(a: seq<TeamTask>, b: seq<TeamTask>)
    requires Sorted(a) && Sorted(b)
    requires forall t :: t in a <==> t in b
    ensures a == b
  {
    if b != [] { NotEmptyEither(a, b); }
    if a != [] {
      NotEmptyEither(b, a);
      assert a[0] in b;
      assert b[0] in a;
      var i :| 0 <= i < |a| && a[i] == b[0];
      var j :| 0 <= j < |b| && b[j] == a[0];
      KeyLessOrders(a[0], b[0]);
      assert i == 0;
      forall t ensures t in a[1..] <==> t in b[1..] {
        HeadNotRepeated(a, t);
        HeadNotRepeated(b, t);
      }
      SortedPermutationsAgree(a[1..], b[1..]);
      assert a == [a[0]] + a[1..] && b == [b[0]] + b[1..];
    }
  }

  lemma NotEmptyEither(a: seq<TeamTask>, b: seq<TeamTask>)
    requires b != [] && forall t | t in b :: t in a
    ensures a != []
  {
    assert b[0] in a;
  }

  lemma HeadNotRepeated(a: seq<TeamTask>, t: TeamTask)
    requires a != [] && Sorted(a)
    ensures t in a[1..] <==> t in a && t != a[0]
  {
    KeyLessOrders(a[0], a[0]);
    assert a == [a[0]] + a[1..];
  }
}
