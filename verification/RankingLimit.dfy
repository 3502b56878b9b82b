/**
 What the iterations of the ranking approach. An iteration mixes scores linearly and brings them
 closer together, so its fixpoint can be found by solving for one node after the other.
 */
module RankingLimit {
  import opened Ranking

  // ---------------------------------------------------------------------------
  // An iteration keeps mixtures
  // ---------------------------------------------------------------------------

  /** The point at `t` on the line through `x` (at 0) and `y` (at 1). */
  function Mix(x: real, y: real, t: real): real {
    x + t * (y - x)
  }

  lemma MixAdds(x: real, y: real, u: real, v: real, t: real)
    ensures Mix(x + u, y + v, t) == Mix(x, y, t) + Mix(u, v, t)
  {
    assert t * (y + v - (x + u)) == t * (y - x) + t * (v - u);
  }

  lemma MixScales(k: real, x: real, y: real, t: real)
    ensures Mix(k * x, k * y, t) == k * Mix(x, y, t)
  {
    assert k * y - k * x == k * (y - x);
    assert t * (k * (y - x)) == k * (t * (y - x));
  }

  lemma ShareMixes(r: real, q: real, w: real, total: real, t: real)
    requires total > 0.0
    ensures Share(Mix(r, q, t), w, total) == Mix(Share(r, w, total), Share(q, w, total), t)
  {
    ShareFactor(r, w, total);
    ShareFactor(q, w, total);
    ShareFactor(Mix(r, q, t), w, total);
    var k := DAMPING_FACTOR * (w / total);
    assert DAMPING_FACTOR * r * (w / total) == k * r && DAMPING_FACTOR * q * (w / total) == k * q;
    assert DAMPING_FACTOR * Mix(r, q, t) * (w / total) == k * Mix(r, q, t);
    MixScales(k, r, q, t);
  }

  lemma BaseScoreMixes(count: nat, p: real, q: real, t: real)
    requires count > 0
    ensures BaseScore(count, Mix(p, q, t)) == Mix(BaseScore(count, p), BaseScore(count, q), t)
  {
    var c := count as real;
    var k := DAMPING_FACTOR / c;
    assert DAMPING_FACTOR * p / c == k * p && DAMPING_FACTOR * q / c == k * q;
    assert DAMPING_FACTOR * Mix(p, q, t) / c == k * Mix(p, q, t);
    MixScales(k, p, q, t);
    MixAdds((1.0 - DAMPING_FACTOR) / c, (1.0 - DAMPING_FACTOR) / c, k * p, k * q, t);
  }

  /** On the nodes, `c` is the point at `t` on the line through `a` and `b`. */
  ghost predicate IsMixture(nodes: seq<string>, a: Scores, b: Scores, t: real, c: Scores) {
    && Covers(nodes, a) && Covers(nodes, b) && Covers(nodes, c)
    && forall v | v in nodes :: c[v] == Mix(a[v], b[v], t)
  }

  lemma {:induction false} SinkRankMixes(nodes: seq<string>, edges: seq<GraphEdge>, a: Scores, b: Scores, t: real,
                                         c: Scores, n: nat)
    requires IsMixture(nodes, a, b, t, c) && n <= |nodes|
    ensures SinkRank(nodes, edges, c, n) == Mix(SinkRank(nodes, edges, a, n), SinkRank(nodes, edges, b, n), t)
  {
    if n > 0 {
      SinkRankMixes(nodes, edges, a, b, t, c, n - 1);
      var v := nodes[n - 1];
      MixAdds(SinkRank(nodes, edges, a, n - 1), SinkRank(nodes, edges, b, n - 1), a[v], b[v], t);
    }
  }

  lemma {:induction false} AddEdgesMixes(nodes: seq<string>, a: Scores, b: Scores, t: real, c: Scores, r: real, q: real,
                                         es: seq<GraphEdge>, total: real, n: nat)
    requires IsMixture(nodes, a, b, t, c) && n <= |es| && total > 0.0 && forall e | e in es :: e.targetPath in nodes
    ensures IsMixture(nodes, AddEdges(a, r, es, total, n), AddEdges(b, q, es, total, n), t,
                      AddEdges(c, Mix(r, q, t), es, total, n))
  {
    if n > 0 {
      AddEdgesMixes(nodes, a, b, t, c, r, q, es, total, n - 1);
      var v, w := es[n - 1].targetPath, es[n - 1].weight;
      ShareMixes(r, q, w, total, t);
      MixAdds(AddEdges(a, r, es, total, n - 1)[v], AddEdges(b, q, es, total, n - 1)[v], Share(r, w, total),
              Share(q, w, total), t);
    }
  }

  lemma {:induction false} SpreadMixes(nodes: seq<string>, edges: seq<GraphEdge>, a: Scores, b: Scores, t: real,
                                       c: Scores, n: nat)
    requires ValidGraph(nodes, edges) && IsMixture(nodes, a, b, t, c) && n <= |nodes|
    ensures IsMixture(nodes, Spread(nodes, edges, a, n), Spread(nodes, edges, b, n), t, Spread(nodes, edges, c, n))
  {
    if n == 0 {
      SinkRankMixes(nodes, edges, a, b, t, c, |nodes|);
      BaseScoreMixes(|nodes|, SinkRank(nodes, edges, a, |nodes|), SinkRank(nodes, edges, b, |nodes|), t);
    } else {
      SpreadMixes(nodes, edges, a, b, t, c, n - 1);
      var v := nodes[n - 1];
      if PassesOn(edges, v) {
        var es := Outgoing(edges, v);
        AddEdgesMixes(nodes, Spread(nodes, edges, a, n - 1), Spread(nodes, edges, b, n - 1), t,
                      Spread(nodes, edges, c, n - 1), a[v], b[v], es, Weight(es, |es|), |es|);
      }
    }
  }

  // ---------------------------------------------------------------------------
  // Solving for one node after the other
  // ---------------------------------------------------------------------------

  /** An iteration leaves the scores of the first `m` nodes alone. */
  ghost predicate SolvedBelow(nodes: seq<string>, edges: seq<GraphEdge>, x: Scores, m: nat)
    requires ValidGraph(nodes, edges) && Covers(nodes, x) && m <= |nodes|
  {
    forall i | 0 <= i < m :: Step(nodes, edges, x)[nodes[i]] == x[nodes[i]]
  }

  ghost predicate AgreeFrom(nodes: seq<string>, x: Scores, y: Scores, m: nat)
    requires Covers(nodes, x) && Covers(nodes, y) && m <= |nodes|
  {
    forall i | m <= i < |nodes| :: x[nodes[i]] == y[nodes[i]]
  }

  lemma {:induction false} FurtherApart(nodes: seq<string>, a: Scores, b: Scores, x: Scores, y: Scores)
    requires Covers(nodes, a) && Covers(nodes, b) && Covers(nodes, x) && Covers(nodes, y)
    requires forall v | v in nodes :: Abs(a[v] - b[v]) <= Abs(x[v] - y[v])
    ensures Distance(nodes, a, b) <= Distance(nodes, x, y)
  {
    if nodes != [] { FurtherApart(nodes[..|nodes| - 1], a, b, x, y); }
  }

  /** Of two solutions that differ in the next node, an iteration cannot keep the difference there. */
  lemma DifferenceShrinks(nodes: seq<string>, edges: seq<GraphEdge>, x: Scores, y: Scores, m: nat)
    requires ValidGraph(nodes, edges) && PositiveWeights(edges) && m < |nodes| && Covers(nodes, x) && Covers(nodes, y)
    requires SolvedBelow(nodes, edges, x, m) && SolvedBelow(nodes, edges, y, m) && AgreeFrom(nodes, x, y, m + 1)
    requires x[nodes[m]] != y[nodes[m]]
    ensures Step(nodes, edges, y)[nodes[m]] - Step(nodes, edges, x)[nodes[m]] != y[nodes[m]] - x[nodes[m]]
  {
    var x', y' := Step(nodes, edges, x), Step(nodes, edges, y);
    if y'[nodes[m]] - x'[nodes[m]] == y[nodes[m]] - x[nodes[m]] {
      forall v | v in nodes ensures Abs(x[v] - y[v]) <= Abs(x'[v] - y'[v]) {
        var i :| 0 <= i < |nodes| && nodes[i] == v;
        assert i > m ==> x[nodes[i]] == y[nodes[i]];
      }
      FurtherApart(nodes, x, y, x', y');
      StepContracts(nodes, edges, x, y);
      DistanceBounds(nodes, x, y);
      assert false;
    }
  }

  function MixtureOf(nodes: seq<string>, a: Scores, b: Scores, t: real): Scores
    requires Covers(nodes, a) && Covers(nodes, b)
  {
    map v | v in nodes :: Mix(a[v], b[v], t)
  }

  lemma LineMeetsDiagonal(a: real, b: real) returns (t: real)
    requires b - a != 1.0
    ensures Mix(a, b, t) == t == Mix(0.0, 1.0, t)
  {
    var slope := 1.0 - (b - a);
    t := a / slope;
    assert t * slope == a;
    assert t * slope == t - t * (b - a);
  }

  lemma MixtureSolves(nodes: seq<string>, edges: seq<GraphEdge>, x: Scores, y: Scores, m: nat, t: real, i: nat)
    requires ValidGraph(nodes, edges) && m < |nodes| && Covers(nodes, x) && Covers(nodes, y)
    requires SolvedBelow(nodes, edges, x, m) && SolvedBelow(nodes, edges, y, m)
    requires x[nodes[m]] == 0.0 && y[nodes[m]] == 1.0 && i <= m
    requires Mix(Step(nodes, edges, x)[nodes[m]], Step(nodes, edges, y)[nodes[m]], t) == Mix(0.0, 1.0, t)
    ensures Step(nodes, edges, MixtureOf(nodes, x, y, t))[nodes[i]] == MixtureOf(nodes, x, y, t)[nodes[i]]
  {
    hide Mix;
    SpreadMixes(nodes, edges, x, y, t, MixtureOf(nodes, x, y, t), |nodes|);
    assert nodes[i] in nodes;
  }

  /** The equation of one more node is solved on the line through two solutions for the nodes before. */
  lemma SolveNext(nodes: seq<string>, edges: seq<GraphEdge>, x: Scores, y: Scores, m: nat) returns (z: Scores)
    requires ValidGraph(nodes, edges) && PositiveWeights(edges) && m < |nodes| && Covers(nodes, x) && Covers(nodes, y)
    requires SolvedBelow(nodes, edges, x, m) && SolvedBelow(nodes, edges, y, m) && AgreeFrom(nodes, x, y, m + 1)
    requires x[nodes[m]] == 0.0 && y[nodes[m]] == 1.0
    ensures Covers(nodes, z) && SolvedBelow(nodes, edges, z, m + 1) && AgreeFrom(nodes, x, z, m + 1)
  {
    DifferenceShrinks(nodes, edges, x, y, m);
    var t := LineMeetsDiagonal(Step(nodes, edges, x)[nodes[m]], Step(nodes, edges, y)[nodes[m]]);
    z := MixtureOf(nodes, x, y, t);
    forall i: nat | i < m + 1 ensures Step(nodes, edges, z)[nodes[i]] == z[nodes[i]] {
      MixtureSolves(nodes, edges, x, y, m, t, i);
    }
    assert forall i | m + 1 <= i < |nodes| :: nodes[i] in nodes && z[nodes[i]] == Mix(x[nodes[i]], x[nodes[i]], t);
  }

  lemma {:induction false} Solve(nodes: seq<string>, edges: seq<GraphEdge>, c: Scores, m: nat) returns (z: Scores)
    requires ValidGraph(nodes, edges) && PositiveWeights(edges) && m <= |nodes| && Covers(nodes, c)
    ensures Covers(nodes, z) && SolvedBelow(nodes, edges, z, m) && AgreeFrom(nodes, c, z, m)
    decreases m
  {
    if m == 0 {
      z := c;
    } else {
      var v := nodes[m - 1];
      var x := Solve(nodes, edges, c[v := 0.0], m - 1);
      var y := Solve(nodes, edges, c[v := 1.0], m - 1);
      z := SolveNext(nodes, edges, x, y, m - 1);
    }
  }

  /** Every graph with positive weights has stationary scores. */
  lemma StationaryExists(nodes: seq<string>, edges: seq<GraphEdge>) returns (p: Scores)
    requires ValidGraph(nodes, edges) && PositiveWeights(edges)
    ensures IsStationary(nodes, edges, p)
  {
    p := Solve(nodes, edges, Uniform(nodes), |nodes|);
    var p' := Step(nodes, edges, p);
    forall v | v in nodes ensures p'[v] == p[v] {
      var i :| 0 <= i < |nodes| && nodes[i] == v;
    }
    FurtherApart(nodes, p', p, p, p);
    DistanceBounds(nodes, p', p);
    NoDistanceToItself(nodes, p);
  }

  lemma {:induction false} NoDistanceToItself(nodes: seq<string>, p: Scores)
    requires Covers(nodes, p)
    ensures Distance(nodes, p, p) == 0.0
  {
    if nodes != [] { NoDistanceToItself(nodes[..|nodes| - 1], p); }
  }

  // ---------------------------------------------------------------------------
  // The iterations get arbitrarily close
  // ---------------------------------------------------------------------------

  lemma {:induction false} PowersVanish(k: nat)
    ensures Power(k) > 0.0 && Power(k) * (1.0 + 0.15 * k as real) <= 1.0
  {
    if k > 0 {
      PowersVanish(k - 1);
      var p, j := Power(k - 1), (k - 1) as real;
      assert DAMPING_FACTOR * (1.0 + 0.15 * k as real) <= 1.0 + 0.15 * j;
      assert p * (DAMPING_FACTOR * (1.0 + 0.15 * k as real)) <= p * (1.0 + 0.15 * j);
      assert Power(k) * (1.0 + 0.15 * k as real) == p * (DAMPING_FACTOR * (1.0 + 0.15 * k as real));
    }
  }

  lemma {:induction false} ApproachByPowers(nodes: seq<string>, edges: seq<GraphEdge>, p: Scores, first: real, k: nat)
    requires ValidGraph(nodes, edges) && PositiveWeights(edges) && IsStationary(nodes, edges, p)
    requires first == Distance(nodes, Uniform(nodes), p)
    ensures Distance(nodes, Iterate(nodes, edges, k), p) <= first * Power(k)
  {
    hide Distance, Step, Uniform;
    if k == 0 {
      assert Power(k) == 1.0;
    } else {
      ApproachByPowers(nodes, edges, p, first, k - 1);
      StationaryApproach(nodes, edges, p, Iterate(nodes, edges, k - 1));
      DampenedAgain(first, k, Distance(nodes, Iterate(nodes, edges, k - 1), p));
    }
  }

  lemma DampenedAgain(first: real, k: nat, before: real)
    requires k > 0 && before <= first * Power(k - 1)
    ensures DAMPING_FACTOR * before <= first * Power(k)
  {
    assert first * Power(k) == DAMPING_FACTOR * (first * Power(k - 1));
  }

  /** Any distance is undercut, whatever the first one was. */
  lemma SomePowerIsSmall(first: real, epsilon: real) returns (k: nat)
    requires first >= 0.0 && epsilon > 0.0
    ensures first * Power(k) < epsilon
  {
    k := (first / (0.15 * epsilon)).Floor + 1;
    PowersVanish(k);
    var q, n := Power(k), k as real;
    assert n > first / (0.15 * epsilon);
    assert n * (0.15 * epsilon) > first by {
      assert first / (0.15 * epsilon) * (0.15 * epsilon) == first;
    }
    assert q * (n * (0.15 * epsilon)) > q * first;
    var s := q * (0.15 * n);
    assert q * (1.0 + 0.15 * n) == q + s;
    assert q * (n * (0.15 * epsilon)) == s * epsilon;
    PartIsSmaller(s, epsilon);
  }

  lemma PartIsSmaller(s: real, x: real)
    requires s < 1.0 && x > 0.0
    ensures s * x < x
  {
    assert (1.0 - s) * x > 0.0;
  }

  /** With enough iterations the scores come as close to any stationary scores as one likes. */
  lemma IteratesConverge(nodes: seq<string>, edges: seq<GraphEdge>, p: Scores, epsilon: real) returns (k: nat)
    requires ValidGraph(nodes, edges) && PositiveWeights(edges) && IsStationary(nodes, edges, p) && epsilon > 0.0
    ensures Distance(nodes, Iterate(nodes, edges, k), p) < epsilon
  {
    var first := Distance(nodes, Uniform(nodes), p);
    DistanceIsSymmetric(nodes, Uniform(nodes), p);
    k := SomePowerIsSmall(first, epsilon);
    ApproachByPowers(nodes, edges, p, first, k);
  }

  lemma {:induction false} OneNodeIsNoFurther(nodes: seq<string>, a: Scores, b: Scores, v: string)
    requires Covers(nodes, a) && Covers(nodes, b) && v in nodes
    ensures Abs(a[v] - b[v]) <= Distance(nodes, a, b)
  {
    var init := nodes[..|nodes| - 1];
    DistanceBounds(init, a, b);
    if nodes[|nodes| - 1] != v { OneNodeIsNoFurther(init, a, b, v); }
  }

  /** Stationary scores are a distribution in which every node has at least 0.15/n. */
  lemma StationaryIsDistribution(nodes: seq<string>, edges: seq<GraphEdge>, p: Scores)
    requires ValidGraph(nodes, edges) && PositiveWeights(edges) && IsStationary(nodes, edges, p)
    ensures IsDistribution(nodes, p) && AtLeast(nodes, p, (1.0 - DAMPING_FACTOR) / |nodes| as real)
  {
    var least := (1.0 - DAMPING_FACTOR) / |nodes| as real;
    assert least >= 0.0;
    forall v | v in nodes ensures p[v] >= least {
      if p[v] < least {
        var k := IteratesConverge(nodes, edges, p, least - p[v]);
        IteratesAreDistributions(nodes, edges, k);
        OneNodeIsNoFurther(nodes, Iterate(nodes, edges, k), p, v);
        assert false;
      }
    }
    StationaryTotal(nodes, edges, p);
  }

  /**
   What a returned ranking is worth: a distribution that leaves every node its teleport share, and
   no further from the one stationary distribution, which exists, than either way of stopping allows.
   */
  lemma RankingQuality(nodes: seq<string>, edges: seq<GraphEdge>, k: nat) returns (p: Scores)
    requires ValidGraph(nodes, edges) && PositiveWeights(edges)
    requires 1 <= k <= MAX_ITERATIONS
    requires k < MAX_ITERATIONS ==> Delta(nodes, edges, k) < CONVERGENCE_EPSILON
    ensures IsStationary(nodes, edges, p) && IsDistribution(nodes, p)
    ensures forall q | IsStationary(nodes, edges, q) :: forall v | v in nodes :: q[v] == p[v]
    ensures IsDistribution(nodes, Iterate(nodes, edges, k))
    ensures AtLeast(nodes, Iterate(nodes, edges, k), (1.0 - DAMPING_FACTOR) / |nodes| as real)
    ensures
      var error := Distance(nodes, Iterate(nodes, edges, k), p);
      error <= 2.0 * Power(MAX_ITERATIONS) || 0.15 * error < DAMPING_FACTOR * CONVERGENCE_EPSILON
  {
    p := StationaryExists(nodes, edges);
    StationaryIsDistribution(nodes, edges, p);
    forall q | IsStationary(nodes, edges, q) ensures forall v | v in nodes :: q[v] == p[v] {
      StationaryIsUnique(nodes, edges, q, p);
    }
    IteratesAreDistributions(nodes, edges, k);
    DistanceToStationary(nodes, edges, p, k);
    StoppingError(nodes, edges, p, Iterate(nodes, edges, k - 1));
  }
}
