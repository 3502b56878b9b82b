/**
 Weighted PageRank with the rank of sinks spread over all nodes (`_page_rank`), over exact reals.
 */
module Ranking {

  datatype GraphEdge = GraphEdge(sourcePath: string, targetPath: string, relation: string, weight: real)

  const DAMPING_FACTOR: real := 0.85
  const MAX_ITERATIONS: nat := 50
  const CONVERGENCE_EPSILON: real := 0.000000000001

  type Scores = map<string, real>

  function Abs(x: real): real {
    if x < 0.0 then -x else x
  }

  // ---------------------------------------------------------------------------
  // Graphs and sums over nodes
  // ---------------------------------------------------------------------------

  ghost predicate Distinct(nodes: seq<string>) {
    forall i, j | 0 <= i < j < |nodes| :: nodes[i] != nodes[j]
  }

  /** What the algorithm demands: nodes named once, edges that end at nodes. */
  ghost predicate ValidGraph(nodes: seq<string>, edges: seq<GraphEdge>) {
    nodes != [] && Distinct(nodes) && forall e | e in edges :: e.targetPath in nodes
  }

  ghost predicate PositiveWeights(edges: seq<GraphEdge>) {
    forall e | e in edges :: e.weight > 0.0
  }

  predicate Covers(nodes: seq<string>, s: Scores) {
    forall v | v in nodes :: v in s
  }

  function Total(nodes: seq<string>, s: Scores): real
    requires Covers(nodes, s)
  {
    if nodes == [] then 0.0 else Total(nodes[..|nodes| - 1], s) + s[nodes[|nodes| - 1]]
  }

  function Distance(nodes: seq<string>, a: Scores, b: Scores): real
    requires Covers(nodes, a) && Covers(nodes, b)
  {
    if nodes == [] then 0.0
    else Distance(nodes[..|nodes| - 1], a, b) + Abs(a[nodes[|nodes| - 1]] - b[nodes[|nodes| - 1]])
  }

  function Outgoing(edges: seq<GraphEdge>, source: string): (r: seq<GraphEdge>)
    ensures forall e :: e in r <==> e in edges && e.sourcePath == source
  {
    if edges == [] then []
    else if edges[0].sourcePath == source then [edges[0]] + Outgoing(edges[1..], source)
    else Outgoing(edges[1..], source)
  }

  /** The weight of the first `n` edges. */
  function Weight(es: seq<GraphEdge>, n: nat): real
    requires n <= |es|
  {
    if n == 0 then 0.0 else Weight(es, n - 1) + es[n - 1].weight
  }

  predicate IsSink(edges: seq<GraphEdge>, v: string) {
    Outgoing(edges, v) == []
  }

  /** A node whose edges carry no weight at all: its rank is handed to nobody. */
  predicate IsDead(edges: seq<GraphEdge>, v: string) {
    var es := Outgoing(edges, v);
    es != [] && Weight(es, |es|) <= 0.0
  }

  // ---------------------------------------------------------------------------
  // One iteration
  // ---------------------------------------------------------------------------

  /** The rank held by sinks among the first `n` nodes. */
  function SinkRank(nodes: seq<string>, edges: seq<GraphEdge>, s: Scores, n: nat): real
    requires Covers(nodes, s) && n <= |nodes|
  {
    if n == 0 then 0.0
    else SinkRank(nodes, edges, s, n - 1) + if IsSink(edges, nodes[n - 1]) then s[nodes[n - 1]] else 0.0
  }

  function BaseScore(count: nat, sink: real): real
    requires count > 0
  {
    (1.0 - DAMPING_FACTOR) / count as real + DAMPING_FACTOR * sink / count as real
  }

  function Base(nodes: seq<string>, edges: seq<GraphEdge>, s: Scores): Scores
    requires nodes != [] && Covers(nodes, s)
  {
    map v | v in nodes :: BaseScore(|nodes|, SinkRank(nodes, edges, s, |nodes|))
  }

  /** What an edge of weight `w` passes on from a source of rank `r` and outgoing weight `total`. */
  function Share(r: real, w: real, total: real): real
    requires total > 0.0
  {
    DAMPING_FACTOR * r * w / total
  }

  /** `next` after the first `n` edges of a source of rank `r`. */
  function AddEdges(next: Scores, r: real, es: seq<GraphEdge>, total: real, n: nat): (out: Scores)
    requires n <= |es| && total > 0.0 && forall e | e in es :: e.targetPath in next
    ensures out.Keys == next.Keys
  {
    if n == 0 then next
    else
      var before := AddEdges(next, r, es, total, n - 1);
      before[es[n - 1].targetPath := before[es[n - 1].targetPath] + Share(r, es[n - 1].weight, total)]
  }

  predicate PassesOn(edges: seq<GraphEdge>, v: string) {
    !IsSink(edges, v) && !IsDead(edges, v)
  }

  /** `next` after node `v` has handed out its rank `r`. */
  function PassAlong(next: Scores, edges: seq<GraphEdge>, v: string, r: real): (out: Scores)
    requires forall e | e in edges :: e.targetPath in next
    ensures out.Keys == next.Keys
  {
    var es := Outgoing(edges, v);
    if PassesOn(edges, v) then AddEdges(next, r, es, Weight(es, |es|), |es|) else next
  }

  /** The next scores after the first `n` sources. */
  function Spread(nodes: seq<string>, edges: seq<GraphEdge>, s: Scores, n: nat): (out: Scores)
    requires nodes != [] && Covers(nodes, s) && n <= |nodes|
    requires forall e | e in edges :: e.targetPath in nodes
    ensures forall v :: v in out <==> v in nodes
  {
    if n == 0 then Base(nodes, edges, s)
    else
      PassAlong(Spread(nodes, edges, s, n - 1), edges, nodes[n - 1], s[nodes[n - 1]])
  }

  function Step(nodes: seq<string>, edges: seq<GraphEdge>, s: Scores): (out: Scores)
    requires nodes != [] && Covers(nodes, s)
    requires forall e | e in edges :: e.targetPath in nodes
    ensures forall v :: v in out <==> v in nodes
  {
    Spread(nodes, edges, s, |nodes|)
  }

  // ---------------------------------------------------------------------------
  // Sums under updates
  // ---------------------------------------------------------------------------

  lemma {:induction false} UpdateElsewhere(nodes: seq<string>, a: Scores, b: Scores, t: string, x: real, y: real)
    requires Covers(nodes, a) && Covers(nodes, b) && t !in nodes
    ensures Total(nodes, a[t := x]) == Total(nodes, a)
    ensures Distance(nodes, a[t := x], b[t := y]) == Distance(nodes, a, b)
  {
    if nodes != [] {
      UpdateElsewhere(nodes[..|nodes| - 1], a, b, t, x, y);
    }
  }

  lemma {:induction false} UpdateTotal(nodes: seq<string>, s: Scores, t: string, x: real)
    requires Covers(nodes, s) && Distinct(nodes) && t in nodes
    ensures Total(nodes, s[t := s[t] + x]) == Total(nodes, s) + x
  {
    if nodes[|nodes| - 1] == t {
      UpdateElsewhere(nodes[..|nodes| - 1], s, s, t, s[t] + x, 0.0);
    } else {
      UpdateTotal(nodes[..|nodes| - 1], s, t, x);
    }
  }

  lemma {:induction false} UpdateDistance(nodes: seq<string>, a: Scores, b: Scores, t: string, x: real, y: real)
    requires Covers(nodes, a) && Covers(nodes, b) && Distinct(nodes) && t in nodes
    ensures Distance(nodes, a[t := a[t] + x], b[t := b[t] + y]) <= Distance(nodes, a, b) + Abs(x - y)
  {
    if nodes[|nodes| - 1] == t {
      UpdateElsewhere(nodes[..|nodes| - 1], a, b, t, a[t] + x, b[t] + y);
    } else {
      UpdateDistance(nodes[..|nodes| - 1], a, b, t, x, y);
    }
  }

  lemma {:induction false} ConstantSums(nodes: seq<string>, a: Scores, b: Scores, x: real, y: real)
    requires Covers(nodes, a) && Covers(nodes, b)
    requires forall v | v in nodes :: a[v] == x && b[v] == y
    ensures Total(nodes, a) == |nodes| as real * x
    ensures Distance(nodes, a, b) == |nodes| as real * Abs(x - y)
  {
    if nodes != [] {
      var rest := nodes[..|nodes| - 1];
      ConstantSums(rest, a, b, x, y);
      assert |nodes| as real == |rest| as real + 1.0;
      assert |nodes| as real * x == |rest| as real * x + x;
      assert |nodes| as real * Abs(x - y) == |rest| as real * Abs(x - y) + Abs(x - y);
    }
  }

  // ---------------------------------------------------------------------------
  // Shares
  // ---------------------------------------------------------------------------

  lemma ShareDifference(r: real, q: real, w: real, total: real)
    requires total > 0.0 && w >= 0.0
    ensures Abs(Share(r, w, total) - Share(q, w, total)) == Share(Abs(r - q), w, total)
  {
    var f := w / total;
    assert f >= 0.0;
    ShareFactor(r, w, total);
    ShareFactor(q, w, total);
    ShareFactor(Abs(r - q), w, total);
    assert DAMPING_FACTOR * r * f - DAMPING_FACTOR * q * f == DAMPING_FACTOR * (r - q) * f;
    if r < q {
      assert DAMPING_FACTOR * (q - r) * f >= 0.0;
      assert DAMPING_FACTOR * (r - q) * f == -(DAMPING_FACTOR * (q - r) * f);
    } else {
      assert DAMPING_FACTOR * (r - q) * f >= 0.0;
    }
  }

  lemma ShareFactor(r: real, w: real, total: real)
    requires total > 0.0
    ensures Share(r, w, total) == DAMPING_FACTOR * r * (w / total)
  {
    var f := w / total;
    assert f * total == w;
    assert DAMPING_FACTOR * r * w == (DAMPING_FACTOR * r * f) * total;
  }

  /** The shares of the first `n` edges add up to the share of their joint weight. */
  function Handed(r: real, es: seq<GraphEdge>, total: real, n: nat): real
    requires n <= |es| && total > 0.0
  {
    Share(r, Weight(es, n), total)
  }

  lemma HandedNext(r: real, es: seq<GraphEdge>, total: real, n: nat)
    requires 0 < n <= |es| && total > 0.0
    ensures Handed(r, es, total, n) == Handed(r, es, total, n - 1) + Share(r, es[n - 1].weight, total)
  {
    ShareFactor(r, Weight(es, n), total);
    ShareFactor(r, Weight(es, n - 1), total);
    ShareFactor(r, es[n - 1].weight, total);
    DivideSum(Weight(es, n - 1), es[n - 1].weight, total);
    var f, g := Weight(es, n - 1) / total, es[n - 1].weight / total;
    assert DAMPING_FACTOR * r * (f + g) == DAMPING_FACTOR * r * f + DAMPING_FACTOR * r * g;
  }

  lemma DivideSum(x: real, y: real, d: real)
    requires d > 0.0
    ensures (x + y) / d == x / d + y / d
  {
  }

  lemma HandedAll(r: real, total: real)
    requires total > 0.0
    ensures Share(r, total, total) == DAMPING_FACTOR * r
    ensures Share(r, 0.0, total) == 0.0
  {
    ShareFactor(r, total, total);
    assert total / total == 1.0;
  }

  lemma {:induction false} AddEdgesTotal(nodes: seq<string>, next: Scores, r: real, es: seq<GraphEdge>, total: real,
                                         n: nat)
    requires n <= |es| && total > 0.0 && Distinct(nodes) && Covers(nodes, next)
    requires forall e | e in es :: e.targetPath in nodes
    ensures Total(nodes, AddEdges(next, r, es, total, n)) == Total(nodes, next) + Handed(r, es, total, n)
  {
    if n == 0 {
      HandedAll(r, total);
    } else {
      AddEdgesTotal(nodes, next, r, es, total, n - 1);
      UpdateTotal(nodes, AddEdges(next, r, es, total, n - 1), es[n - 1].targetPath, Share(r, es[n - 1].weight, total));
      HandedNext(r, es, total, n);
    }
  }

  lemma {:induction false} AddEdgesDistance(nodes: seq<string>, a: Scores, b: Scores, r: real, q: real,
                                            es: seq<GraphEdge>, total: real, n: nat)
    requires n <= |es| && total > 0.0 && Distinct(nodes) && Covers(nodes, a) && Covers(nodes, b)
    requires forall e | e in es :: e.targetPath in nodes && e.weight > 0.0
    ensures Distance(nodes, AddEdges(a, r, es, total, n), AddEdges(b, q, es, total, n))
         <= Distance(nodes, a, b) + Handed(Abs(r - q), es, total, n)
  {
    if n == 0 {
      HandedAll(Abs(r - q), total);
    } else {
      AddEdgesDistance(nodes, a, b, r, q, es, total, n - 1);
      var w, t := es[n - 1].weight, es[n - 1].targetPath;
      var a', b' := AddEdges(a, r, es, total, n - 1), AddEdges(b, q, es, total, n - 1);
      assert AddEdges(a, r, es, total, n) == a'[t := a'[t] + Share(r, w, total)];
      assert AddEdges(b, q, es, total, n) == b'[t := b'[t] + Share(q, w, total)];
      hide AddEdges, Share, Distance, Handed;
      UpdateDistance(nodes, a', b', t, Share(r, w, total), Share(q, w, total));
      ShareDifference(r, q, w, total);
      HandedNext(Abs(r - q), es, total, n);
    }
  }

  // ---------------------------------------------------------------------------
  // Rank is conserved
  // ---------------------------------------------------------------------------

  /** The rank of the nodes among the first `n` that pass it on along edges. */
  ghost function PassedRank(nodes: seq<string>, edges: seq<GraphEdge>, s: Scores, n: nat): real
    requires Covers(nodes, s) && n <= |nodes|
  {
    if n == 0 then 0.0
    else PassedRank(nodes, edges, s, n - 1) + if PassesOn(edges, nodes[n - 1]) then s[nodes[n - 1]] else 0.0
  }

  /** The rank of the nodes among the first `n` whose edges carry no weight. */
  ghost function DeadRank(nodes: seq<string>, edges: seq<GraphEdge>, s: Scores, n: nat): real
    requires Covers(nodes, s) && n <= |nodes|
  {
    if n == 0 then 0.0
    else DeadRank(nodes, edges, s, n - 1) + if IsDead(edges, nodes[n - 1]) then s[nodes[n - 1]] else 0.0
  }

  lemma {:induction false} RankSplits(nodes: seq<string>, edges: seq<GraphEdge>, s: Scores, n: nat)
    requires Covers(nodes, s) && n <= |nodes|
    ensures Covers(nodes[..n], s)
    ensures SinkRank(nodes, edges, s, n) + PassedRank(nodes, edges, s, n) + DeadRank(nodes, edges, s, n) ==
        Total(nodes[..n], s)
  {
    if n > 0 {
      RankSplits(nodes, edges, s, n - 1);
      assert nodes[..n][..n - 1] == nodes[..n - 1];
    }
  }

  lemma PassAlongTotal(nodes: seq<string>, next: Scores, edges: seq<GraphEdge>, v: string, r: real)
    requires Distinct(nodes) && Covers(nodes, next) && forall e | e in edges :: e.targetPath in nodes
    ensures Total(nodes, PassAlong(next, edges, v, r))
         == Total(nodes, next) + if PassesOn(edges, v) then DAMPING_FACTOR * r else 0.0
  {
    if PassesOn(edges, v) {
      var es := Outgoing(edges, v);
      AddEdgesTotal(nodes, next, r, es, Weight(es, |es|), |es|);
      HandedAll(r, Weight(es, |es|));
    }
  }

  lemma {:induction false} SpreadTotal(nodes: seq<string>, edges: seq<GraphEdge>, s: Scores, n: nat)
    requires ValidGraph(nodes, edges) && Covers(nodes, s) && n <= |nodes|
    ensures Total(nodes, Spread(nodes, edges, s, n))
         == Total(nodes, Base(nodes, edges, s)) + DAMPING_FACTOR * PassedRank(nodes, edges, s, n)
  {
    if n > 0 {
      SpreadTotal(nodes, edges, s, n - 1);
      PassAlongTotal(nodes, Spread(nodes, edges, s, n - 1), edges, nodes[n - 1], s[nodes[n - 1]]);
    }
  }

  lemma BaseTotal(nodes: seq<string>, edges: seq<GraphEdge>, s: Scores)
    requires nodes != [] && Covers(nodes, s)
    ensures Total(nodes, Base(nodes, edges, s)) ==
        1.0 - DAMPING_FACTOR + DAMPING_FACTOR * SinkRank(nodes, edges, s, |nodes|)
  {
    var sink, base, n := SinkRank(nodes, edges, s, |nodes|), Base(nodes, edges, s), |nodes| as real;
    ConstantSums(nodes, base, base, BaseScore(|nodes|, sink), BaseScore(|nodes|, sink));
    DivideSum(1.0 - DAMPING_FACTOR, DAMPING_FACTOR * sink, n);
    var q := (1.0 - DAMPING_FACTOR + DAMPING_FACTOR * sink) / n;
    assert n * q == 1.0 - DAMPING_FACTOR + DAMPING_FACTOR * sink;
  }

  /** One iteration keeps 0.15 plus 0.85 of all rank, except what weightless edges swallow. */
  lemma StepTotal(nodes: seq<string>, edges: seq<GraphEdge>, s: Scores)
    requires ValidGraph(nodes, edges) && Covers(nodes, s)
    ensures Total(nodes, Step(nodes, edges, s))
         == 1.0 - DAMPING_FACTOR + DAMPING_FACTOR * (Total(nodes, s) - DeadRank(nodes, edges, s, |nodes|))
  {
    BaseTotal(nodes, edges, s);
    SpreadTotal(nodes, edges, s, |nodes|);
    RankSplits(nodes, edges, s, |nodes|);
    assert nodes[..|nodes|] == nodes;
  }

  lemma {:induction false} PositiveWeightSum(es: seq<GraphEdge>, n: nat)
    requires n <= |es| && PositiveWeights(es)
    ensures Weight(es, n) >= 0.0 && (n > 0 ==> Weight(es, n) > 0.0)
  {
    if n > 0 { PositiveWeightSum(es, n - 1); }
  }

  lemma NobodyIsDead(edges: seq<GraphEdge>, v: string)
    requires PositiveWeights(edges)
    ensures !IsDead(edges, v)
  {
    PositiveWeightSum(Outgoing(edges, v), |Outgoing(edges, v)|);
  }

  lemma {:induction false} NoDeadRank(nodes: seq<string>, edges: seq<GraphEdge>, s: Scores, n: nat)
    requires Covers(nodes, s) && n <= |nodes| && PositiveWeights(edges)
    ensures DeadRank(nodes, edges, s, n) == 0.0
  {
    if n > 0 {
      NobodyIsDead(edges, nodes[n - 1]);
      NoDeadRank(nodes, edges, s, n - 1);
    }
  }

  /** Starting from rank one, the total stays one exactly when the swallowed rank is nothing. */
  lemma ConservedUnlessDead(nodes: seq<string>, edges: seq<GraphEdge>, s: Scores)
    requires ValidGraph(nodes, edges) && Covers(nodes, s) && Total(nodes, s) == 1.0
    ensures Total(nodes, Step(nodes, edges, s)) == 1.0 <==> DeadRank(nodes, edges, s, |nodes|) == 0.0
    ensures PositiveWeights(edges) ==> Total(nodes, Step(nodes, edges, s)) == 1.0
  {
    StepTotal(nodes, edges, s);
    if PositiveWeights(edges) { NoDeadRank(nodes, edges, s, |nodes|); }
  }

  // ---------------------------------------------------------------------------
  // Every node keeps the teleport share
  // ---------------------------------------------------------------------------

  ghost predicate AtLeast(nodes: seq<string>, s: Scores, x: real)
    requires Covers(nodes, s)
  {
    forall v | v in nodes :: s[v] >= x
  }

  lemma {:induction false} SinkRankNonNegative(nodes: seq<string>, edges: seq<GraphEdge>, s: Scores, n: nat)
    requires Covers(nodes, s) && n <= |nodes| && AtLeast(nodes, s, 0.0)
    ensures SinkRank(nodes, edges, s, n) >= 0.0
  {
    if n > 0 { SinkRankNonNegative(nodes, edges, s, n - 1); }
  }

  lemma {:induction false} AddEdgesGrows(next: Scores, r: real, es: seq<GraphEdge>, total: real, n: nat, v: string)
    requires n <= |es| && total > 0.0 && r >= 0.0 && v in next
    requires forall e | e in es :: e.targetPath in next && e.weight > 0.0
    ensures AddEdges(next, r, es, total, n)[v] >= next[v]
  {
    if n > 0 {
      AddEdgesGrows(next, r, es, total, n - 1, v);
      var w := es[n - 1].weight;
      assert DAMPING_FACTOR * r * w >= 0.0;
      assert Share(r, w, total) >= 0.0;
    }
  }

  lemma PassAlongGrows(next: Scores, edges: seq<GraphEdge>, u: string, r: real, v: string)
    requires r >= 0.0 && v in next && PositiveWeights(edges) && forall e | e in edges :: e.targetPath in next
    ensures PassAlong(next, edges, u, r)[v] >= next[v]
  {
    if PassesOn(edges, u) {
      var es := Outgoing(edges, u);
      AddEdgesGrows(next, r, es, Weight(es, |es|), |es|, v);
    }
  }

  lemma BaseScoreAtLeast(count: nat, sink: real)
    requires count > 0 && sink >= 0.0
    ensures BaseScore(count, sink) >= (1.0 - DAMPING_FACTOR) / count as real
  {
    var c := count as real;
    assert DAMPING_FACTOR * sink / c >= 0.0;
  }

  lemma {:induction false} SpreadAtLeast(nodes: seq<string>, edges: seq<GraphEdge>, s: Scores, n: nat)
    requires ValidGraph(nodes, edges) && PositiveWeights(edges) && Covers(nodes, s) && n <= |nodes|
        && AtLeast(nodes, s, 0.0)
    ensures AtLeast(nodes, Spread(nodes, edges, s, n), (1.0 - DAMPING_FACTOR) / |nodes| as real)
  {
    if n == 0 {
      SinkRankNonNegative(nodes, edges, s, |nodes|);
      BaseScoreAtLeast(|nodes|, SinkRank(nodes, edges, s, |nodes|));
    } else {
      SpreadAtLeast(nodes, edges, s, n - 1);
      forall v | v in nodes
        ensures Spread(nodes, edges, s, n)[v] >= Spread(nodes, edges, s, n - 1)[v]
      {
        PassAlongGrows(Spread(nodes, edges, s, n - 1), edges, nodes[n - 1], s[nodes[n - 1]], v);
      }
    }
  }

  // ---------------------------------------------------------------------------
  // One iteration contracts
  // ---------------------------------------------------------------------------

  /** How far apart the sources among the first `n` nodes are that pass rank on. */
  ghost function PassedDistance(nodes: seq<string>, edges: seq<GraphEdge>, a: Scores, b: Scores, n: nat): real
    requires Covers(nodes, a) && Covers(nodes, b) && n <= |nodes|
  {
    if n == 0 then 0.0
    else PassedDistance(nodes, edges, a, b, n - 1)
         + if PassesOn(edges, nodes[n - 1]) then Abs(a[nodes[n - 1]] - b[nodes[n - 1]]) else 0.0
  }

  lemma PassAlongDistance(nodes: seq<string>, a: Scores, b: Scores, edges: seq<GraphEdge>, v: string, r: real, q: real)
    requires ValidGraph(nodes, edges) && PositiveWeights(edges) && Covers(nodes, a) && Covers(nodes, b)
    ensures Distance(nodes, PassAlong(a, edges, v, r), PassAlong(b, edges, v, q))
         <= Distance(nodes, a, b) + if PassesOn(edges, v) then DAMPING_FACTOR * Abs(r - q) else 0.0
  {
    if PassesOn(edges, v) {
      var es := Outgoing(edges, v);
      AddEdgesDistance(nodes, a, b, r, q, es, Weight(es, |es|), |es|);
      HandedAll(Abs(r - q), Weight(es, |es|));
    }
  }

  lemma {:induction false} SpreadDistance(nodes: seq<string>, edges: seq<GraphEdge>, a: Scores, b: Scores, n: nat)
    requires ValidGraph(nodes, edges) && PositiveWeights(edges) && Covers(nodes, a) && Covers(nodes, b) && n <= |nodes|
    ensures Distance(nodes, Spread(nodes, edges, a, n), Spread(nodes, edges, b, n))
         <= Distance(nodes, Base(nodes, edges, a), Base(nodes, edges, b))
           + DAMPING_FACTOR * PassedDistance(nodes, edges, a, b, n)
  {
    if n > 0 {
      SpreadDistance(nodes, edges, a, b, n - 1);
      var v := nodes[n - 1];
      PassAlongDistance(nodes, Spread(nodes, edges, a, n - 1), Spread(nodes, edges, b, n - 1), edges, v, a[v], b[v]);
    }
  }

  lemma {:induction false} SinksAndPassed(nodes: seq<string>, edges: seq<GraphEdge>, a: Scores, b: Scores, n: nat)
    requires Covers(nodes, a) && Covers(nodes, b) && n <= |nodes|
    ensures Covers(nodes[..n], a) && Covers(nodes[..n], b)
    ensures Abs(SinkRank(nodes, edges, a, n) - SinkRank(nodes, edges, b, n)) + PassedDistance(nodes, edges, a, b, n)
         <= Distance(nodes[..n], a, b)
  {
    if n > 0 {
      SinksAndPassed(nodes, edges, a, b, n - 1);
      assert nodes[..n][..n - 1] == nodes[..n - 1];
    }
  }

  lemma BaseScoreDifference(count: nat, p: real, q: real)
    requires count > 0
    ensures count as real * Abs(BaseScore(count, p) - BaseScore(count, q)) == DAMPING_FACTOR * Abs(p - q)
  {
    var c := count as real;
    var u, v := DAMPING_FACTOR * p / c, DAMPING_FACTOR * q / c;
    assert BaseScore(count, p) - BaseScore(count, q) == u - v;
    assert c * u == DAMPING_FACTOR * p && c * v == DAMPING_FACTOR * q;
    AbsScales(c, u - v);
    assert c * (u - v) == c * u - c * v;
  }

  lemma AbsScales(c: real, x: real)
    requires c > 0.0
    ensures c * Abs(x) == Abs(c * x)
  {
    if x < 0.0 { assert c * x < 0.0; } else { assert c * x >= 0.0; }
  }

  lemma ScoresDiffer(count: nat, p: real, q: real, x: real, y: real)
    requires count > 0 && x == BaseScore(count, p) && y == BaseScore(count, q)
    ensures count as real * Abs(x - y) == DAMPING_FACTOR * Abs(p - q)
  {
    BaseScoreDifference(count, p, q);
  }

  /** The two bases, as the constants they are. */
  lemma BaseConstants(nodes: seq<string>, edges: seq<GraphEdge>, a: Scores, b: Scores) returns (x: real, y: real)
    requires nodes != [] && Covers(nodes, a) && Covers(nodes, b)
    ensures Constant(nodes, Base(nodes, edges, a), x) && Constant(nodes, Base(nodes, edges, b), y)
    ensures |nodes| as real * Abs(x - y) ==
        DAMPING_FACTOR * Abs(SinkRank(nodes, edges, a, |nodes|) - SinkRank(nodes, edges, b, |nodes|))
  {
    var p, q := SinkRank(nodes, edges, a, |nodes|), SinkRank(nodes, edges, b, |nodes|);
    x, y := BaseScore(|nodes|, p), BaseScore(|nodes|, q);
    ScoresDiffer(|nodes|, p, q, x, y);
  }

  ghost predicate Constant(nodes: seq<string>, s: Scores, x: real) {
    Covers(nodes, s) && forall v | v in nodes :: s[v] == x
  }

  lemma ConstantDistance(nodes: seq<string>, u: Scores, v: Scores, x: real, y: real)
    requires Constant(nodes, u, x) && Constant(nodes, v, y)
    ensures Distance(nodes, u, v) == |nodes| as real * Abs(x - y)
  {
    ConstantSums(nodes, u, v, x, y);
  }

  lemma BaseDistance(nodes: seq<string>, edges: seq<GraphEdge>, a: Scores, b: Scores)
    requires nodes != [] && Covers(nodes, a) && Covers(nodes, b)
    ensures Distance(nodes, Base(nodes, edges, a), Base(nodes, edges, b))
         == DAMPING_FACTOR * Abs(SinkRank(nodes, edges, a, |nodes|) - SinkRank(nodes, edges, b, |nodes|))
  {
    var x, y := BaseConstants(nodes, edges, a, b);
    ConstantDistance(nodes, Base(nodes, edges, a), Base(nodes, edges, b), x, y);
  }

  /** One iteration brings any two score assignments closer by the damping factor. */
  lemma StepContracts(nodes: seq<string>, edges: seq<GraphEdge>, a: Scores, b: Scores)
    requires ValidGraph(nodes, edges) && PositiveWeights(edges) && Covers(nodes, a) && Covers(nodes, b)
    ensures Distance(nodes, Step(nodes, edges, a), Step(nodes, edges, b)) <= DAMPING_FACTOR * Distance(nodes, a, b)
  {
    var sinks := Abs(SinkRank(nodes, edges, a, |nodes|) - SinkRank(nodes, edges, b, |nodes|));
    var passed := PassedDistance(nodes, edges, a, b, |nodes|);
    assert sinks + passed <= Distance(nodes, a, b) by {
      SinksAndPassed(nodes, edges, a, b, |nodes|);
      assert nodes[..|nodes|] == nodes;
    }
    SpreadDistance(nodes, edges, a, b, |nodes|);
    BaseDistance(nodes, edges, a, b);
  }

  // ---------------------------------------------------------------------------
  // Convergence
  // ---------------------------------------------------------------------------

  function Uniform(nodes: seq<string>): Scores
    requires nodes != []
  {
    map v | v in nodes :: 1.0 / |nodes| as real
  }

  function Iterate(nodes: seq<string>, edges: seq<GraphEdge>, k: nat): (out: Scores)
    requires nodes != [] && forall e | e in edges :: e.targetPath in nodes
    ensures Covers(nodes, out)
  {
    if k == 0 then Uniform(nodes) else Step(nodes, edges, Iterate(nodes, edges, k - 1))
  }

  ghost predicate IsDistribution(nodes: seq<string>, s: Scores) {
    Covers(nodes, s) && AtLeast(nodes, s, 0.0) && Total(nodes, s) == 1.0
  }

  function Power(k: nat): real {
    if k == 0 then 1.0 else DAMPING_FACTOR * Power(k - 1)
  }

  /** Every iterate is a distribution, and after the first every node has at least 0.15/n. */
  lemma {:induction false} IteratesAreDistributions(nodes: seq<string>, edges: seq<GraphEdge>, k: nat)
    requires ValidGraph(nodes, edges) && PositiveWeights(edges)
    ensures IsDistribution(nodes, Iterate(nodes, edges, k))
    ensures AtLeast(nodes, Iterate(nodes, edges, k), (1.0 - DAMPING_FACTOR) / |nodes| as real)
  {
    var c := |nodes| as real;
    assert (1.0 - DAMPING_FACTOR) / c >= 0.0 && 1.0 / c >= (1.0 - DAMPING_FACTOR) / c;
    if k == 0 {
      var u := Uniform(nodes);
      ConstantSums(nodes, u, u, 1.0 / c, 1.0 / c);
      assert c * (1.0 / c) == 1.0;
    } else {
      IteratesAreDistributions(nodes, edges, k - 1);
      ConservedUnlessDead(nodes, edges, Iterate(nodes, edges, k - 1));
      SpreadAtLeast(nodes, edges, Iterate(nodes, edges, k - 1), |nodes|);
    }
  }

  lemma {:induction false} DistanceIsSymmetric(nodes: seq<string>, a: Scores, b: Scores)
    requires Covers(nodes, a) && Covers(nodes, b)
    ensures Distance(nodes, a, b) >= 0.0 && Distance(nodes, a, b) == Distance(nodes, b, a)
  {
    if nodes != [] { DistanceIsSymmetric(nodes[..|nodes| - 1], a, b); }
  }

  lemma {:induction false} DistanceAtMostTotals(nodes: seq<string>, a: Scores, b: Scores)
    requires Covers(nodes, a) && Covers(nodes, b) && AtLeast(nodes, a, 0.0) && AtLeast(nodes, b, 0.0)
    ensures Distance(nodes, a, b) <= Total(nodes, a) + Total(nodes, b)
  {
    if nodes != [] { DistanceAtMostTotals(nodes[..|nodes| - 1], a, b); }
  }

  lemma {:induction false} NoDistanceIsEqual(nodes: seq<string>, a: Scores, b: Scores, k: nat)
    requires Covers(nodes, a) && Covers(nodes, b) && Distance(nodes, a, b) <= 0.0 && k < |nodes|
    ensures a[nodes[k]] == b[nodes[k]]
  {
    var last := |nodes| - 1;
    DistanceIsSymmetric(nodes[..last], a, b);
    if k < last {
      NoDistanceIsEqual(nodes[..last], a, b, k);
    }
  }

  lemma DistanceBounds(nodes: seq<string>, a: Scores, b: Scores)
    requires Covers(nodes, a) && Covers(nodes, b)
    ensures Distance(nodes, a, b) >= 0.0 && Distance(nodes, a, b) == Distance(nodes, b, a)
    ensures AtLeast(nodes, a, 0.0) && AtLeast(nodes, b, 0.0) ==>
        Distance(nodes, a, b) <= Total(nodes, a) + Total(nodes, b)
    ensures Distance(nodes, a, b) <= 0.0 ==> forall v | v in nodes :: a[v] == b[v]
  {
    DistanceIsSymmetric(nodes, a, b);
    if AtLeast(nodes, a, 0.0) && AtLeast(nodes, b, 0.0) { DistanceAtMostTotals(nodes, a, b); }
    if Distance(nodes, a, b) <= 0.0 {
      forall v | v in nodes ensures a[v] == b[v] {
        var k :| 0 <= k < |nodes| && nodes[k] == v;
        NoDistanceIsEqual(nodes, a, b, k);
      }
    }
  }

  lemma {:induction false} Triangle(nodes: seq<string>, a: Scores, b: Scores, c: Scores)
    requires Covers(nodes, a) && Covers(nodes, b) && Covers(nodes, c)
    ensures Distance(nodes, a, c) <= Distance(nodes, a, b) + Distance(nodes, b, c)
  {
    if nodes != [] { Triangle(nodes[..|nodes| - 1], a, b, c); }
  }

  /** The change made by iteration `k + 1` is at most 2 * 0.85^k. */
  lemma {:induction false} DeltaShrinks(nodes: seq<string>, edges: seq<GraphEdge>, k: nat)
    requires ValidGraph(nodes, edges) && PositiveWeights(edges)
    ensures Distance(nodes, Iterate(nodes, edges, k + 1), Iterate(nodes, edges, k)) <= 2.0 * Power(k)
  {
    if k == 0 {
      IteratesAreDistributions(nodes, edges, 0);
      IteratesAreDistributions(nodes, edges, 1);
      DistanceBounds(nodes, Iterate(nodes, edges, 1), Iterate(nodes, edges, 0));
    } else {
      DeltaShrinks(nodes, edges, k - 1);
      StepContracts(nodes, edges, Iterate(nodes, edges, k), Iterate(nodes, edges, k - 1));
    }
  }

  /** Scores that one iteration leaves alone, on the nodes. */
  ghost predicate IsStationary(nodes: seq<string>, edges: seq<GraphEdge>, p: Scores)
    requires ValidGraph(nodes, edges)
  {
    Covers(nodes, p) && Distance(nodes, Step(nodes, edges, p), p) == 0.0
  }

  /** There is at most one stationary assignment, whatever its signs or total. */
  lemma StationaryIsUnique(nodes: seq<string>, edges: seq<GraphEdge>, p: Scores, q: Scores)
    requires ValidGraph(nodes, edges) && PositiveWeights(edges)
    requires IsStationary(nodes, edges, p) && IsStationary(nodes, edges, q)
    ensures forall v | v in nodes :: p[v] == q[v]
  {
    var p', q' := Step(nodes, edges, p), Step(nodes, edges, q);
    StepContracts(nodes, edges, p, q);
    Triangle(nodes, p, p', q);
    Triangle(nodes, p', q', q);
    DistanceBounds(nodes, p', p);
    DistanceBounds(nodes, p, q);
  }

  lemma StationaryTotal(nodes: seq<string>, edges: seq<GraphEdge>, p: Scores)
    requires ValidGraph(nodes, edges) && PositiveWeights(edges) && IsStationary(nodes, edges, p)
    ensures Total(nodes, p) == 1.0
  {
    StepTotal(nodes, edges, p);
    NoDeadRank(nodes, edges, p, |nodes|);
    DistanceBounds(nodes, Step(nodes, edges, p), p);
    SameTotals(nodes, Step(nodes, edges, p), p);
  }

  lemma {:induction false} SameTotals(nodes: seq<string>, a: Scores, b: Scores)
    requires Covers(nodes, a) && Covers(nodes, b) && forall v | v in nodes :: a[v] == b[v]
    ensures Total(nodes, a) == Total(nodes, b)
  {
    if nodes != [] { SameTotals(nodes[..|nodes| - 1], a, b); }
  }

  lemma StationaryApproach(nodes: seq<string>, edges: seq<GraphEdge>, p: Scores, s: Scores)
    requires ValidGraph(nodes, edges) && PositiveWeights(edges) && IsStationary(nodes, edges, p) && Covers(nodes, s)
    ensures Distance(nodes, Step(nodes, edges, s), p) <= DAMPING_FACTOR * Distance(nodes, s, p)
  {
    StepContracts(nodes, edges, s, p);
    Triangle(nodes, Step(nodes, edges, s), Step(nodes, edges, p), p);
  }

  /** After `k` iterations the scores are within 2 * 0.85^k of any stationary distribution. */
  lemma {:induction false} DistanceToStationary(nodes: seq<string>, edges: seq<GraphEdge>, p: Scores, k: nat)
    requires ValidGraph(nodes, edges) && PositiveWeights(edges) && IsStationary(nodes, edges, p)
        && AtLeast(nodes, p, 0.0)
    ensures Distance(nodes, Iterate(nodes, edges, k), p) <= 2.0 * Power(k)
  {
    if k == 0 {
      IteratesAreDistributions(nodes, edges, 0);
      StationaryTotal(nodes, edges, p);
      DistanceBounds(nodes, Iterate(nodes, edges, 0), p);
    } else {
      DistanceToStationary(nodes, edges, p, k - 1);
      StationaryApproach(nodes, edges, p, Iterate(nodes, edges, k - 1));
    }
  }

  /** A small last change bounds the remaining error, for every stationary assignment. */
  lemma StoppingError(nodes: seq<string>, edges: seq<GraphEdge>, p: Scores, s: Scores)
    requires ValidGraph(nodes, edges) && PositiveWeights(edges) && IsStationary(nodes, edges, p) && Covers(nodes, s)
    ensures 0.15 * Distance(nodes, Step(nodes, edges, s), p) <= DAMPING_FACTOR * Distance(nodes, Step(nodes, edges, s),
          s)
  {
    StationaryApproach(nodes, edges, p, s);
    Triangle(nodes, s, Step(nodes, edges, s), p);
    DistanceBounds(nodes, s, Step(nodes, edges, s));
  }

  // ---------------------------------------------------------------------------
  // The algorithm
  // ---------------------------------------------------------------------------

  method SumSinks(nodes: seq<string>, edges: seq<GraphEdge>, scores: Scores) returns (sink: real)
    requires Covers(nodes, scores)
    ensures sink == SinkRank(nodes, edges, scores, |nodes|)
  {
    sink := 0.0;
    for i := 0 to |nodes|
      invariant sink == SinkRank(nodes, edges, scores, i)
    {
      if IsSink(edges, nodes[i]) { sink := sink + scores[nodes[i]]; }
    }
  }

  method HandOut(start: Scores, rank: real, sourceEdges: seq<GraphEdge>, totalWeight: real) returns (next: Scores)
    requires totalWeight > 0.0 && forall e | e in sourceEdges :: e.targetPath in start
    ensures next == AddEdges(start, rank, sourceEdges, totalWeight, |sourceEdges|)
  {
    next := start;
    for j := 0 to |sourceEdges|
      invariant next == AddEdges(start, rank, sourceEdges, totalWeight, j)
    {
      var edge := sourceEdges[j];
      next := next[edge.targetPath := next[edge.targetPath] + Share(rank, edge.weight, totalWeight)];
    }
  }

  method NextScores(nodes: seq<string>, edges: seq<GraphEdge>, scores: Scores) returns (next: Scores)
    requires nodes != [] && Covers(nodes, scores)
    requires forall e | e in edges :: e.targetPath in nodes
    ensures next == Step(nodes, edges, scores)
  {
    var sink := SumSinks(nodes, edges, scores);
    next := map v | v in nodes :: BaseScore(|nodes|, sink);
    for i := 0 to |nodes|
      invariant next == Spread(nodes, edges, scores, i)
    {
      var sourceEdges := Outgoing(edges, nodes[i]);
      if sourceEdges != [] {
        var totalWeight := Weight(sourceEdges, |sourceEdges|);
        if totalWeight > 0.0 {
          next := HandOut(next, scores[nodes[i]], sourceEdges, totalWeight);
        }
      }
    }
  }

  /** How much iteration `k` changes. */
  ghost function Delta(nodes: seq<string>, edges: seq<GraphEdge>, k: nat): real
    requires k > 0 && nodes != [] && forall e | e in edges :: e.targetPath in nodes
  {
    Distance(nodes, Iterate(nodes, edges, k), Iterate(nodes, edges, k - 1))
  }

  ghost predicate NoEarlierStop(nodes: seq<string>, edges: seq<GraphEdge>, k: nat)
    requires nodes != [] && forall e | e in edges :: e.targetPath in nodes
  {
    forall i | 1 <= i < k :: Delta(nodes, edges, i) >= CONVERGENCE_EPSILON
  }

  /** The loop over at most `limit` iterations. */
  method PowerIteration(nodes: seq<string>, edges: seq<GraphEdge>, limit: nat) returns (scores: Scores, ghost k: nat)
    requires nodes != [] && forall e | e in edges :: e.targetPath in nodes
    ensures k <= limit && (limit > 0 ==> k > 0) && scores == Iterate(nodes, edges, k)
    ensures 0 < k < limit ==> Delta(nodes, edges, k) < CONVERGENCE_EPSILON
    ensures NoEarlierStop(nodes, edges, k)
  {
    scores := Uniform(nodes);
    k := 0;
    var n := 0;
    while n < limit
      invariant k == n <= limit && scores == Iterate(nodes, edges, n)
      invariant NoEarlierStop(nodes, edges, n + 1)
    {
      var next := NextScores(nodes, edges, scores);
      var delta := Distance(nodes, next, scores);
      n, k := n + 1, k + 1;
      assert next == Iterate(nodes, edges, n) && delta == Delta(nodes, edges, n);
      scores := next;
      if delta < CONVERGENCE_EPSILON { return; }
    }
  }

  /** The iterate at which the loop stops: the first small change, or the last allowed iteration. */
  method PageRank(nodes: seq<string>, edges: seq<GraphEdge>) returns (scores: Scores, ghost k: nat)
    requires nodes != [] ==> ValidGraph(nodes, edges)
    ensures nodes == [] ==> scores == map[]
    ensures nodes != [] ==> 1 <= k <= MAX_ITERATIONS && scores == Iterate(nodes, edges, k)
    ensures nodes != [] && k < MAX_ITERATIONS ==> Delta(nodes, edges, k) < CONVERGENCE_EPSILON
    ensures nodes != [] ==> NoEarlierStop(nodes, edges, k)
  {
    if nodes == [] { return map[], 0; }
    scores, k := PowerIteration(nodes, edges, MAX_ITERATIONS);
  }
}
