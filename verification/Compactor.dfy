/**
 Light compaction (`ToolResultCompactor`): large tool results are moved to files and replaced in
 place by a reference, first those that are too large alone, then the largest of each group that
 is too large together.
 */
module Compactor {
  import opened ChatHistory
  import opened Segmenter
  import opened Session
  import L = LargestFirst

  /** The limits, and what estimating, storing and recognising a tool result amounts to. */
  datatype CompactionConfig = CompactionConfig(
    singleToolResultTokens: nat,
    turnToolResultTokens: nat,
    estimate: Estimator,
    isExternal: string -> bool,
    place: (ChatMessage, nat) -> string,
    render: (ChatMessage, string) -> string)

  /** What is written in place of a result is recognised as external. */
  ghost predicate Recognises(c: CompactionConfig) {
    forall m, path :: c.isExternal(c.render(m, path))
  }

  predicate CanExternalize(c: CompactionConfig, m: ChatMessage) {
    m.role == Tool && !c.isExternal(m.content)
  }

  predicate TooLarge(c: CompactionConfig, m: ChatMessage) {
    CanExternalize(c, m) && c.estimate(m) > c.singleToolResultTokens
  }

  function External(c: CompactionConfig, m: ChatMessage, path: string): ChatMessage {
    m.(content := c.render(m, path))
  }

  /** What one externalisation reports: which message, and the file it went to. */
  datatype ExternalRef = ExternalRef(index: nat, path: string)

  ghost function Moved(refs: seq<ExternalRef>): set<nat> {
    if refs == [] then {} else Moved(refs[..|refs| - 1]) + {refs[|refs| - 1].index}
  }

  function Paths(refs: seq<ExternalRef>): seq<string> {
    if refs == [] then [] else Paths(refs[..|refs| - 1]) + [refs[|refs| - 1].path]
  }

  /** The history with the results named in `refs` replaced by references to their files. */
  ghost function Compacted(c: CompactionConfig, ms: History, refs: seq<ExternalRef>): (r: History)
    ensures |r| == |ms|
  {
    if refs == [] then ms
    else
      var last := refs[|refs| - 1];
      var before := Compacted(c, ms, refs[..|refs| - 1]);
      if last.index < |ms| then before[last.index := External(c, ms[last.index], last.path)] else before
  }

  /** One more result moved. */
  lemma MovedNext(c: CompactionConfig, ms: History, refs: seq<ExternalRef>, i: nat, path: string)
    requires i < |ms|
    ensures Moved(refs + [ExternalRef(i, path)]) == Moved(refs) + {i}
    ensures Compacted(c, ms, refs + [ExternalRef(i, path)]) == Compacted(c, ms, refs)[i := External(c, ms[i], path)]
    ensures i !in Moved(refs) ==> Compacted(c, ms, refs)[i] == ms[i]
  {
    assert (refs + [ExternalRef(i, path)])[..|refs|] == refs;
    if i !in Moved(refs) { OthersStay(c, ms, refs, i); }
  }

  lemma {:induction false} OthersStay(c: CompactionConfig, ms: History, refs: seq<ExternalRef>, i: nat)
    requires i < |ms| && i !in Moved(refs)
    ensures Compacted(c, ms, refs)[i] == ms[i]
  {
    if refs != [] { OthersStay(c, ms, refs[..|refs| - 1], i); }
  }

  /** `b` is `a` with its content replaced by a reference. */
  predicate Replaces(c: CompactionConfig, a: ChatMessage, b: ChatMessage) {
    b == a.(content := b.content) && c.isExternal(b.content)
  }

  lemma {:induction false} MovedIsReplaced(c: CompactionConfig, ms: History, refs: seq<ExternalRef>, i: nat)
    requires Recognises(c) && i < |ms| && i in Moved(refs)
    ensures Replaces(c, ms[i], Compacted(c, ms, refs)[i])
  {
    var last := refs[|refs| - 1];
    if last.index == i {
      assert c.isExternal(c.render(ms[i], last.path));
    } else {
      MovedIsReplaced(c, ms, refs[..|refs| - 1], i);
    }
  }

  // ---------------------------------------------------------------------------
  // Groups
  // ---------------------------------------------------------------------------

  /** `lo..hi` are all the results right behind a message with calls, and there is at least one. */
  ghost predicate IsGroup(ms: History, lo: nat, hi: nat) {
    && 0 < lo < hi <= |ms| && HasCalls(ms[lo - 1])
    && hi == lo + ResultRun(ms, lo, Ids(ms[lo - 1]))
  }

  lemma {:induction false} RunByShape(a: History, b: History, from: nat, ids: set<string>)
    requires SameShapes(a, b) && from <= |a|
    ensures ResultRun(a, from, ids) == ResultRun(b, from, ids)
    decreases |a| - from
  {
    if from < |a| {
      assert SameShape(a[from], b[from]);
      if Answers(a[from], ids) { RunByShape(a, b, from + 1, ids); }
    }
  }

  lemma GroupsByShape(a: History, b: History, lo: nat, hi: nat)
    requires SameShapes(a, b) && IsGroup(a, lo, hi)
    ensures IsGroup(b, lo, hi)
  {
    assert SameShape(a[lo - 1], b[lo - 1]);
    RunByShape(a, b, lo, Ids(a[lo - 1]));
  }

  /** `groups` are the groups behind the messages before `index`. */
  ghost predicate GroupsBefore(ms: History, groups: seq<(nat, nat)>, index: nat) {
    && (forall lo: nat, hi: nat :: (lo, hi) in groups <==> IsGroup(ms, lo, hi) && lo - 1 < index)
    && (forall a, b | 0 <= a < b < |groups| :: groups[a].1 < groups[b].0)
    && (forall a | 0 <= a < |groups| :: groups[a].1 <= index)
  }

  lemma NoGroupBehind(ms: History, groups: seq<(nat, nat)>, index: nat)
    requires index < |ms| && GroupsBefore(ms, groups, index) && !HasCalls(ms[index])
    ensures GroupsBefore(ms, groups, index + 1)
  {
  }

  lemma OnlyGroupBehind(ms: History, index: nat, cursor: nat, lo: nat, hi: nat)
    requires index < cursor <= |ms| && HasCalls(ms[index])
    requires cursor == index + 1 + ResultRun(ms, index + 1, Ids(ms[index]))
    ensures IsGroup(ms, lo, hi) && index <= lo - 1 < cursor <==> lo == index + 1 && hi == cursor && cursor > index + 1
  {
    assert forall k | index < k < cursor :: ms[k].role == Tool;
  }

  lemma InAppended(groups: seq<(nat, nat)>, last: (nat, nat), g: (nat, nat))
    ensures g in groups + [last] <==> g in groups || g == last
  {
  }

  lemma OneGroupMore(ms: History, groups: seq<(nat, nat)>, index: nat, cursor: nat, lo: nat, hi: nat)
    requires index + 1 < cursor <= |ms| && HasCalls(ms[index])
    requires (lo, hi) in groups <==> IsGroup(ms, lo, hi) && lo - 1 < index
    requires cursor == index + 1 + ResultRun(ms, index + 1, Ids(ms[index]))
    ensures (lo, hi) in groups + [(index + 1, cursor)] <==> IsGroup(ms, lo, hi) && lo - 1 < cursor
  {
    InAppended(groups, (index + 1, cursor), (lo, hi));
    OnlyGroupBehind(ms, index, cursor, lo, hi);
  }

  /** The message at `index` has results, up to `cursor`: one more group. */
  lemma GroupBehind(ms: History, groups: seq<(nat, nat)>, index: nat, cursor: nat)
    requires index + 1 < cursor <= |ms| && GroupsBefore(ms, groups, index) && HasCalls(ms[index])
    requires cursor == index + 1 + ResultRun(ms, index + 1, Ids(ms[index]))
    ensures GroupsBefore(ms, groups + [(index + 1, cursor)], cursor)
  {
    forall lo: nat, hi: nat
      ensures (lo, hi) in groups + [(index + 1, cursor)] <==> IsGroup(ms, lo, hi) && lo - 1 < cursor
    {
      OneGroupMore(ms, groups, index, cursor, lo, hi);
    }
  }

  /** The message at `index` has calls but no results: no more groups. */
  lemma NoResultsBehind(ms: History, groups: seq<(nat, nat)>, index: nat)
    requires index < |ms| && GroupsBefore(ms, groups, index) && HasCalls(ms[index])
    requires ResultRun(ms, index + 1, Ids(ms[index])) == 0
    ensures GroupsBefore(ms, groups, index + 1)
  {
    forall lo: nat, hi: nat ensures (lo, hi) in groups <==> IsGroup(ms, lo, hi) && lo - 1 < index + 1 {
      OnlyGroupBehind(ms, index, index + 1, lo, hi);
    }
  }

  method ToolResultGroups(ms: History) returns (groups: seq<(nat, nat)>)
    ensures forall lo: nat, hi: nat :: (lo, hi) in groups <==> IsGroup(ms, lo, hi)
    ensures forall a, b | 0 <= a < b < |groups| :: groups[a].1 < groups[b].0
  {
    groups := [];
    var index := 0;
    while index < |ms|
      invariant index <= |ms| && GroupsBefore(ms, groups, index)
      decreases |ms| - index
    {
      if !HasCalls(ms[index]) {
        NoGroupBehind(ms, groups, index);
        index := index + 1;
        continue;
      }
      var callIds := Ids(ms[index]);
      var cursor := index + 1;
      while cursor < |ms|
        invariant index < cursor <= |ms|
        invariant forall k | index < k < cursor :: Answers(ms[k], callIds)
      {
        if !Answers(ms[cursor], callIds) { break; }
        cursor := cursor + 1;
      }
      ResultRunIsUnique(ms, index + 1, callIds, cursor - index - 1);
      if cursor > index + 1 {
        GroupBehind(ms, groups, index, cursor);
        groups := groups + [(index + 1, cursor)];
      } else {
        NoResultsBehind(ms, groups, index);
      }
      index := cursor;
    }
  }

  // ---------------------------------------------------------------------------
  // What is left in a group
  // ---------------------------------------------------------------------------

  function WeightOf(c: CompactionConfig, ms: History, i: nat): nat {
    if i < |ms| then c.estimate(ms[i]) else 0
  }

  function WeightAt(c: CompactionConfig, ms: History): L.Weights {
    (i: nat) => WeightOf(c, ms, i)
  }

  /** The results in `lo..hi` that could still be moved when those in `gone` already are. */
  ghost function Candidates(c: CompactionConfig, ms: History, lo: nat, hi: nat, gone: set<nat>): (r: seq<nat>)
    requires lo <= hi <= |ms|
    ensures forall i :: i in r <==> lo <= i < hi && CanExternalize(c, ms[i]) && i !in gone
    ensures L.Distinct(r)
  {
    if lo == hi then []
    else
      var rest := Candidates(c, ms, lo, hi - 1, gone);
      if CanExternalize(c, ms[hi - 1]) && hi - 1 !in gone then rest + [hi - 1] else rest
  }

  /** What the results of `lo..hi` that stay in the history weigh together. */
  ghost function Remaining(c: CompactionConfig, ms: History, lo: nat, hi: nat, gone: set<nat>): nat
    requires lo <= hi <= |ms|
  {
    L.Sum(WeightAt(c, ms), Candidates(c, ms, lo, hi, gone))
  }

  lemma {:induction false} CandidatesOutside(w: L.Weights, c: CompactionConfig, ms: History, lo: nat, hi: nat,
                                             gone: set<nat>, more: set<nat>, all: set<nat>)
    requires lo <= hi <= |ms| && all == gone + more
    ensures L.Sum(w, Candidates(c, ms, lo, hi, all)) == L.Outside(w, Candidates(c, ms, lo, hi, gone), more)
  {
    if lo < hi {
      CandidatesOutside(w, c, ms, lo, hi - 1, gone, more, all);
      OneCandidateOutside(w, Candidates(c, ms, lo, hi - 1, gone), Candidates(c, ms, lo, hi - 1, all), hi - 1, more);
    }
  }

  lemma OneCandidateOutside(w: L.Weights, idx: seq<nat>, kept: seq<nat>, x: nat, more: set<nat>)
    requires L.Sum(w, kept) == L.Outside(w, idx, more)
    ensures L.Sum(w, if x in more then kept else kept + [x]) == L.Outside(w, idx + [x], more)
  {
    L.OutsideAppend(w, idx, x, more);
    SumAppend(w, kept, x);
  }

  lemma {:induction false} SumAppend(w: L.Weights, idx: seq<nat>, x: nat)
    ensures L.Sum(w, idx + [x]) == L.Sum(w, idx) + w(x)
  {
    if idx == [] {
      assert (idx + [x])[1..] == [];
    } else {
      SumAppend(w, idx[1..], x);
      assert (idx + [x])[1..] == idx[1..] + [x];
    }
  }

  lemma {:induction false} CandidatesDepend(c: CompactionConfig, a: History, b: History, lo: nat, hi: nat, g: set<nat>,
                                            h: set<nat>)
    requires lo <= hi <= |a| && |a| == |b|
    requires forall i | lo <= i < hi :: CanExternalize(c, a[i]) && i !in g <==> CanExternalize(c, b[i]) && i !in h
    ensures Candidates(c, a, lo, hi, g) == Candidates(c, b, lo, hi, h)
  {
    if lo < hi { CandidatesDepend(c, a, b, lo, hi - 1, g, h); }
  }

  lemma {:induction false} SumsAgree(v: L.Weights, w: L.Weights, idx: seq<nat>)
    requires forall i | i in idx :: v(i) == w(i)
    ensures L.Sum(v, idx) == L.Sum(w, idx)
  {
    if idx != [] { SumsAgree(v, w, idx[1..]); }
  }

  /** What is left depends only on the candidates that are not gone. */
  lemma RemainingDepends(c: CompactionConfig, a: History, b: History, lo: nat, hi: nat, g: set<nat>, h: set<nat>)
    requires lo <= hi <= |a| && |a| == |b|
    requires forall i | lo <= i < hi :: CanExternalize(c, a[i]) && i !in g <==> CanExternalize(c, b[i]) && i !in h
    requires forall i | lo <= i < hi && CanExternalize(c, a[i]) && i !in g :: a[i] == b[i]
    ensures Remaining(c, a, lo, hi, g) == Remaining(c, b, lo, hi, h)
  {
    CandidatesDepend(c, a, b, lo, hi, g, h);
    SumsAgree(WeightAt(c, a), WeightAt(c, b), Candidates(c, a, lo, hi, g));
  }

  // ---------------------------------------------------------------------------
  // One group
  // ---------------------------------------------------------------------------

  method ListCandidates(c: CompactionConfig, ms: History, lo: nat, hi: nat) returns (candidates: seq<nat>)
    requires lo <= hi <= |ms|
    ensures candidates == Candidates(c, ms, lo, hi, {})
  {
    candidates := [];
    for i := lo to hi
      invariant candidates == Candidates(c, ms, lo, i, {})
    {
      if CanExternalize(c, ms[i]) { candidates := candidates + [i]; }
    }
  }

  /** The results moved out of one group: enough of them, and no more than any other choice needs. */
  ghost predicate Shrunk(c: CompactionConfig, ms: History, lo: nat, hi: nat, extra: set<nat>)
    requires lo <= hi <= |ms|
  {
    && (forall i | i in extra :: lo <= i < hi && CanExternalize(c, ms[i]))
    && Remaining(c, ms, lo, hi, extra) <= c.turnToolResultTokens
    && (forall others: set<nat> :: Remaining(c, ms, lo, hi, others) <= c.turnToolResultTokens ==> |extra| <= |others|)
  }

  ghost function FirstItems(ordered: seq<nat>, k: nat): set<nat>
    requires k <= |ordered|
  {
    if k == 0 then {} else FirstItems(ordered, k - 1) + {ordered[k - 1]}
  }

  lemma {:induction false} FirstItemsAre(ordered: seq<nat>, k: nat)
    requires k <= |ordered|
    ensures forall x :: x in FirstItems(ordered, k) <==> exists i :: 0 <= i < k && ordered[i] == x
  {
    if k > 0 { FirstItemsAre(ordered, k - 1); }
  }

  lemma {:induction false} FirstItemsCount(ordered: seq<nat>, k: nat)
    requires k <= |ordered| && L.Distinct(ordered)
    ensures |FirstItems(ordered, k)| == k
    ensures k < |ordered| ==> ordered[k] !in FirstItems(ordered, k)
  {
    FirstItemsAre(ordered, k);
    if k > 0 { FirstItemsCount(ordered, k - 1); }
  }

  lemma FirstItemsPrefix(ordered: seq<nat>, k: nat)
    requires k <= |ordered|
    ensures FirstItems(ordered, k) == L.Items(ordered[..k])
    ensures forall x | x in FirstItems(ordered, k) :: x in ordered
  {
    FirstItemsAre(ordered, k);
    forall x ensures x in FirstItems(ordered, k) <==> x in ordered[..k] {
      if x in FirstItems(ordered, k) {
        var i :| 0 <= i < k && ordered[i] == x;
        assert ordered[..k][i] == x;
      }
    }
  }

  /** Choosing what to leave out of the sorted candidates decides what remains of the group. */
  lemma RemainingOfSorted(c: CompactionConfig, ms: History, lo: nat, hi: nat, ordered: seq<nat>, others: set<nat>)
    requires lo <= hi <= |ms|
    requires ordered == L.Sorted(WeightAt(c, ms), Candidates(c, ms, lo, hi, {}))
    ensures Remaining(c, ms, lo, hi, others) == L.Outside(WeightAt(c, ms), ordered, others)
  {
    L.SortedItems(WeightAt(c, ms), Candidates(c, ms, lo, hi, {}));
    CandidatesOutside(WeightAt(c, ms), c, ms, lo, hi, {}, others, others);
    assert {} + others == others;
  }

  lemma NoFewerSuffice(c: CompactionConfig, ms: History, lo: nat, hi: nat, ordered: seq<nat>, k: nat, others: set<nat>)
    requires lo <= hi <= |ms| && k <= |ordered|
    requires ordered == L.Sorted(WeightAt(c, ms), Candidates(c, ms, lo, hi, {}))
    requires k > 0 ==> L.Sum(WeightAt(c, ms), ordered[k - 1..]) > c.turnToolResultTokens
    requires Remaining(c, ms, lo, hi, others) <= c.turnToolResultTokens
    ensures k <= |others|
  {
    L.SortedItems(WeightAt(c, ms), Candidates(c, ms, lo, hi, {}));
    RemainingOfSorted(c, ms, lo, hi, ordered, others);
    L.FewestItems(WeightAt(c, ms), ordered, k, c.turnToolResultTokens, others);
  }

  lemma EnoughMoved(c: CompactionConfig, ms: History, lo: nat, hi: nat, ordered: seq<nat>, k: nat)
    requires lo <= hi <= |ms| && k <= |ordered|
    requires ordered == L.Sorted(WeightAt(c, ms), Candidates(c, ms, lo, hi, {}))
    requires L.Sum(WeightAt(c, ms), ordered[k..]) <= c.turnToolResultTokens
    requires k > 0 ==> L.Sum(WeightAt(c, ms), ordered[k - 1..]) > c.turnToolResultTokens
    ensures Shrunk(c, ms, lo, hi, FirstItems(ordered, k))
  {
    var extra := FirstItems(ordered, k);
    L.SortedItems(WeightAt(c, ms), Candidates(c, ms, lo, hi, {}));
    FirstItemsPrefix(ordered, k);
    assert Remaining(c, ms, lo, hi, extra) <= c.turnToolResultTokens by {
      L.OutsidePrefix(WeightAt(c, ms), ordered, k);
      RemainingOfSorted(c, ms, lo, hi, ordered, extra);
    }
    FirstItemsCount(ordered, k);
    forall others: set<nat> | Remaining(c, ms, lo, hi, others) <= c.turnToolResultTokens
      ensures |extra| <= |others|
    {
      NoFewerSuffice(c, ms, lo, hi, ordered, k, others);
    }
  }

  lemma SortedSum(w: L.Weights, idx: seq<nat>)
    requires L.Distinct(idx)
    ensures L.Sum(w, L.Sorted(w, idx)) == L.Sum(w, idx)
  {
    L.SortedItems(w, idx);
    L.OutsideNothing(w, idx, {});
    L.OutsideNothing(w, L.Sorted(w, idx), {});
  }

  lemma CandidatesSorted(c: CompactionConfig, ms: History, lo: nat, hi: nat, ordered: seq<nat>)
    requires lo <= hi <= |ms| && ordered == L.Sorted(WeightAt(c, ms), Candidates(c, ms, lo, hi, {}))
    ensures L.Distinct(ordered)
    ensures forall n | 0 <= n < |ordered| ::
        ordered[n] < |ms| && WeightAt(c, ms)(ordered[n]) == c.estimate(ms[ordered[n]])
    ensures L.Sum(WeightAt(c, ms), Candidates(c, ms, lo, hi, {})) == L.SumFrom(WeightAt(c, ms), ordered, 0)
  {
    L.SortedItems(WeightAt(c, ms), Candidates(c, ms, lo, hi, {}));
    SortedSum(WeightAt(c, ms), Candidates(c, ms, lo, hi, {}));
    L.SumFromIsSum(WeightAt(c, ms), ordered, 0);
    assert ordered[0..] == ordered;
    forall n | 0 <= n < |ordered| ensures ordered[n] < |ms| {
      assert ordered[n] in ordered;
    }
  }

  /** The first `k` candidates are moved, the others weigh `total`, and fewer would not have been enough. */
  ghost predicate Shrinking(w: L.Weights, limit: nat, ordered: seq<nat>, k: nat, total: int) {
    && k <= |ordered|
    && total == L.SumFrom(w, ordered, k)
    && (k > 0 ==> L.SumFrom(w, ordered, k - 1) > limit)
  }

  lemma ShrunkEnough(c: CompactionConfig, ms: History, lo: nat, hi: nat, ordered: seq<nat>, k: nat, left: int)
    requires lo <= hi <= |ms|
    requires ordered == L.Sorted(WeightAt(c, ms), Candidates(c, ms, lo, hi, {}))
    requires Shrinking(WeightAt(c, ms), c.turnToolResultTokens, ordered, k, left)
    requires k == |ordered| || left <= c.turnToolResultTokens
    ensures Shrunk(c, ms, lo, hi, FirstItems(ordered, k))
  {
    L.SumFromIsSum(WeightAt(c, ms), ordered, k);
    if k > 0 { L.SumFromIsSum(WeightAt(c, ms), ordered, k - 1); }
    EnoughMoved(c, ms, lo, hi, ordered, k);
  }

  /** `_externalize`: the result goes to a file and a reference takes its place. */
  method Externalize(c: CompactionConfig, session: ChatSession, ghost ms: History, i: nat, refs: seq<ExternalRef>)
      returns (more: seq<ExternalRef>)
    requires i < |session.messages| && session.messages == Compacted(c, ms, refs) && i !in Moved(refs)
    modifies session`messages
    ensures session.messages == Compacted(c, ms, more)
    ensures Moved(more) == Moved(refs) + {i}
  {
    var path := c.place(session.messages[i], |refs|);
    MovedNext(c, ms, refs, i, path);
    session.messages := session.messages[i := External(c, session.messages[i], path)];
    more := refs + [ExternalRef(i, path)];
  }

  lemma NotYetMoved(c: CompactionConfig, ms: History, refs: seq<ExternalRef>, ordered: seq<nat>, before: set<nat>,
                    k: nat)
    requires L.Distinct(ordered) && k < |ordered| && Moved(refs) == before + FirstItems(ordered, k)
    requires forall n | 0 <= n < |ordered| :: ordered[n] < |ms| && ordered[n] !in before
    ensures ordered[k] < |ms| && ordered[k] !in Moved(refs) && Compacted(c, ms, refs)[ordered[k]] == ms[ordered[k]]
  {
    FirstItemsCount(ordered, k);
    OthersStay(c, ms, refs, ordered[k]);
  }

  lemma OneMoreMoved(w: L.Weights, limit: nat, ordered: seq<nat>, k: nat, total: int, before: set<nat>)
    requires k < |ordered| && Shrinking(w, limit, ordered, k, total) && total > limit
    ensures Shrinking(w, limit, ordered, k + 1, total - w(ordered[k]))
    ensures before + FirstItems(ordered, k) + {ordered[k]} == before + FirstItems(ordered, k + 1)
  {
  }

  method MoveHeaviest(c: CompactionConfig, session: ChatSession, ghost ms: History, ghost w: L.Weights,
                      ordered: seq<nat>, sum: nat, refs: seq<ExternalRef>)
      returns (more: seq<ExternalRef>, ghost k: nat, ghost left: int)
    requires session.messages == Compacted(c, ms, refs) && L.Distinct(ordered)
    requires forall n | 0 <= n < |ordered| :: ordered[n] < |ms| && ordered[n] !in Moved(refs)
    requires forall n | 0 <= n < |ordered| :: w(ordered[n]) == c.estimate(ms[ordered[n]])
    requires sum == L.SumFrom(w, ordered, 0)
    modifies session`messages
    ensures session.messages == Compacted(c, ms, more)
    ensures Shrinking(w, c.turnToolResultTokens, ordered, k, left)
        && Moved(more) == Moved(refs) + FirstItems(ordered, k)
    ensures k == |ordered| || left <= c.turnToolResultTokens
  {
    ghost var before := Moved(refs);
    more := refs;
    var total: int, n := sum, 0;
    while n < |ordered| && total > c.turnToolResultTokens
      invariant Shrinking(w, c.turnToolResultTokens, ordered, n, total)
      invariant session.messages == Compacted(c, ms, more)
      invariant Moved(more) == before + FirstItems(ordered, n)
    {
      NotYetMoved(c, ms, more, ordered, before, n);
      OneMoreMoved(w, c.turnToolResultTokens, ordered, n, total, before);
      var estimatedTokens := c.estimate(session.messages[ordered[n]]);
      more := Externalize(c, session, ms, ordered[n], more);
      total, n := total - estimatedTokens, n + 1;
    }
    k, left := n, total;
  }

  method ShrinkGroup(c: CompactionConfig, session: ChatSession, ghost ms: History, lo: nat, hi: nat,
                     refs: seq<ExternalRef>)
      returns (more: seq<ExternalRef>, ghost extra: set<nat>)
    requires Recognises(c) && lo <= hi <= |ms| && session.messages == Compacted(c, ms, refs)
    modifies session`messages
    ensures session.messages == Compacted(c, ms, more) && Moved(more) == Moved(refs) + extra
    ensures Shrunk(c, old(session.messages), lo, hi, extra)
  {
    ghost var now := session.messages;
    var weights := WeightAt(c, session.messages);
    var candidates := ListCandidates(c, session.messages, lo, hi);
    var total := L.Sum(weights, candidates);
    var ordered := L.Sorted(weights, candidates);
    CandidatesSorted(c, now, lo, hi, ordered);
    CandidatesAreNew(c, ms, refs, lo, hi, ordered);
    ghost var k, left;
    more, k, left := MoveHeaviest(c, session, ms, weights, ordered, total, refs);
    ShrunkEnough(c, now, lo, hi, ordered, k, left);
    extra := FirstItems(ordered, k);
  }

  lemma CandidatesAreNew(c: CompactionConfig, ms: History, refs: seq<ExternalRef>, lo: nat, hi: nat, ordered: seq<nat>)
    requires Recognises(c) && lo <= hi <= |ms|
    requires ordered == L.Sorted(WeightAt(c, Compacted(c, ms, refs)), Candidates(c, Compacted(c, ms, refs), lo, hi, {}))
    ensures forall n | 0 <= n < |ordered| ::
        ordered[n] < |ms| && ordered[n] !in Moved(refs) && Compacted(c, ms, refs)[ordered[n]] == ms[ordered[n]]
  {
    var now := Compacted(c, ms, refs);
    L.SortedItems(WeightAt(c, now), Candidates(c, now, lo, hi, {}));
    forall n | 0 <= n < |ordered|
      ensures ordered[n] < |ms| && ordered[n] !in Moved(refs) && now[ordered[n]] == ms[ordered[n]]
    {
      assert ordered[n] in ordered;
      CandidateIsNew(c, ms, refs, ordered[n]);
    }
  }

  lemma CandidateIsNew(c: CompactionConfig, ms: History, refs: seq<ExternalRef>, i: nat)
    requires Recognises(c) && i < |ms|
    ensures CanExternalize(c, Compacted(c, ms, refs)[i]) <==> CanExternalize(c, ms[i]) && i !in Moved(refs)
    ensures i !in Moved(refs) ==> Compacted(c, ms, refs)[i] == ms[i]
    ensures SameShape(ms[i], Compacted(c, ms, refs)[i])
  {
    if i in Moved(refs) { MovedIsReplaced(c, ms, refs, i); } else { OthersStay(c, ms, refs, i); }
  }

  // ---------------------------------------------------------------------------
  // The whole compaction
  // ---------------------------------------------------------------------------

  ghost function Over(c: CompactionConfig, ms: History): set<nat> {
    set i | 0 <= i < |ms| && TooLarge(c, ms[i])
  }

  /** The results of `lo..hi` that were moved although they are not too large alone. */
  ghost function ExtraIn(over: set<nat>, moved: set<nat>, lo: nat, hi: nat): set<nat> {
    set i | i in moved && lo <= i < hi && i !in over
  }

  /** The group fits, and no smaller choice of further results would have made it fit. */
  ghost predicate GroupDone(c: CompactionConfig, ms: History, over: set<nat>, moved: set<nat>, lo: nat, hi: nat)
    requires lo <= hi <= |ms|
  {
    && Remaining(c, ms, lo, hi, moved) <= c.turnToolResultTokens
    && forall others: set<nat> :: Remaining(c, ms, lo, hi, over + others) <= c.turnToolResultTokens
         ==> |ExtraIn(over, moved, lo, hi)| <= |others|
  }

  /** Only results that are still in the history were moved, among them all of `over`. */
  ghost predicate MovesResults(c: CompactionConfig, ms: History, over: set<nat>, moved: set<nat>) {
    && (forall i | i in moved :: i < |ms| && CanExternalize(c, ms[i]))
    && over <= moved
  }

  ghost predicate InSomeGroup(ms: History, i: nat) {
    exists lo: nat, hi: nat :: IsGroup(ms, lo, hi) && lo <= i < hi
  }

  /** What a compaction may and must move. */
  ghost predicate LeastCompaction(c: CompactionConfig, ms: History, moved: set<nat>) {
    && MovesResults(c, ms, Over(c, ms), moved)
    && (forall i | i in moved && i !in Over(c, ms) :: InSomeGroup(ms, i))
    && (forall lo: nat, hi: nat | IsGroup(ms, lo, hi) :: GroupDone(c, ms, Over(c, ms), moved, lo, hi))
  }

  lemma CompactedKinds(c: CompactionConfig, ms: History, refs: seq<ExternalRef>)
    requires Recognises(c)
    ensures SameShapes(ms, Compacted(c, ms, refs))
    ensures forall i | 0 <= i < |ms| ::
        CanExternalize(c, Compacted(c, ms, refs)[i]) <==> CanExternalize(c, ms[i]) && i !in Moved(refs)
    ensures forall i | 0 <= i < |ms| && i !in Moved(refs) :: Compacted(c, ms, refs)[i] == ms[i]
  {
    forall i | 0 <= i < |ms|
      ensures CanExternalize(c, Compacted(c, ms, refs)[i]) <==> CanExternalize(c, ms[i]) && i !in Moved(refs)
      ensures i !in Moved(refs) ==> Compacted(c, ms, refs)[i] == ms[i]
      ensures SameShape(ms[i], Compacted(c, ms, refs)[i])
    {
      CandidateIsNew(c, ms, refs, i);
    }
  }

  /** The same results are left, whether seen in the original or in the partly compacted history. */
  lemma RemainingAfter(c: CompactionConfig, ms: History, refs: seq<ExternalRef>, lo: nat, hi: nat, others: set<nat>)
    requires Recognises(c) && lo <= hi <= |ms|
    ensures Remaining(c, Compacted(c, ms, refs), lo, hi, others) == Remaining(c, ms, lo, hi, Moved(refs) + others)
  {
    CompactedKinds(c, ms, refs);
    RemainingDepends(c, ms, Compacted(c, ms, refs), lo, hi, Moved(refs) + others, others);
  }

  lemma SameRemaining(c: CompactionConfig, ms: History, lo: nat, hi: nat, g: set<nat>, h: set<nat>)
    requires lo <= hi <= |ms| && forall i | lo <= i < hi :: i in g <==> i in h
    ensures Remaining(c, ms, lo, hi, g) == Remaining(c, ms, lo, hi, h)
  {
    CandidatesDepend(c, ms, ms, lo, hi, g, h);
  }

  /** Before a group is shrunk, only results that are too large alone have left it. */
  lemma NothingExtra(over: set<nat>, moved: set<nat>, lo: nat, hi: nat, i: nat)
    requires ExtraIn(over, moved, lo, hi) == {} && over <= moved && lo <= i < hi
    ensures i in moved <==> i in over
  {
    assert i in ExtraIn(over, moved, lo, hi) <==> i in moved && i !in over;
  }

  lemma ExtraIsNew(over: set<nat>, moved: set<nat>, lo: nat, hi: nat, extra: set<nat>)
    requires ExtraIn(over, moved, lo, hi) == {} && over <= moved
    requires forall i | i in extra :: lo <= i < hi && i !in moved
    ensures ExtraIn(over, moved + extra, lo, hi) == extra
  {
    forall i | lo <= i < hi ensures i in moved <==> i in over { NothingExtra(over, moved, lo, hi, i); }
  }

  lemma ShrunkIsNew(c: CompactionConfig, ms: History, refs: seq<ExternalRef>, lo: nat, hi: nat, extra: set<nat>)
    requires Recognises(c) && lo <= hi <= |ms|
    requires Shrunk(c, Compacted(c, ms, refs), lo, hi, extra)
    ensures forall i | i in extra :: lo <= i < hi && i !in Moved(refs) && CanExternalize(c, ms[i])
  {
    CompactedKinds(c, ms, refs);
  }

  lemma GroupJustDone(c: CompactionConfig, ms: History, over: set<nat>, refs: seq<ExternalRef>, lo: nat, hi: nat,
                      extra: set<nat>)
    requires Recognises(c) && MovesResults(c, ms, over, Moved(refs)) && lo <= hi <= |ms|
    requires ExtraIn(over, Moved(refs), lo, hi) == {}
    requires Shrunk(c, Compacted(c, ms, refs), lo, hi, extra)
    ensures GroupDone(c, ms, over, Moved(refs) + extra, lo, hi)
  {
    var moved := Moved(refs);
    RemainingAfter(c, ms, refs, lo, hi, extra);
    ShrunkIsNew(c, ms, refs, lo, hi, extra);
    ExtraIsNew(over, moved, lo, hi, extra);
    forall others: set<nat> | Remaining(c, ms, lo, hi, over + others) <= c.turnToolResultTokens
      ensures |extra| <= |others|
    {
      RemainingAfter(c, ms, refs, lo, hi, others);
      forall i | lo <= i < hi ensures i in moved + others <==> i in over + others {
        NothingExtra(over, moved, lo, hi, i);
      }
      SameRemaining(c, ms, lo, hi, moved + others, over + others);
    }
  }

  lemma ExtraElsewhere(over: set<nat>, moved: set<nat>, extra: set<nat>, from: nat, to: nat, lo: nat, hi: nat)
    requires to <= lo || hi <= from
    requires forall i | i in extra :: from <= i < to
    ensures forall i | i in extra :: i < lo || hi <= i
    ensures ExtraIn(over, moved + extra, lo, hi) == ExtraIn(over, moved, lo, hi)
  {
  }

  lemma GroupStaysDone(c: CompactionConfig, ms: History, over: set<nat>, moved: set<nat>, extra: set<nat>, lo: nat,
                       hi: nat)
    requires lo <= hi <= |ms| && GroupDone(c, ms, over, moved, lo, hi)
    requires forall i | i in extra :: i < lo || hi <= i
    ensures GroupDone(c, ms, over, moved + extra, lo, hi)
  {
    SameRemaining(c, ms, lo, hi, moved + extra, moved);
    assert ExtraIn(over, moved + extra, lo, hi) == ExtraIn(over, moved, lo, hi);
  }

  // ---------------------------------------------------------------------------
  // The two passes
  // ---------------------------------------------------------------------------

  ghost function Below(s: set<nat>, n: nat): set<nat> {
    set i | i in s && i < n
  }

  /** The first pass has looked at the first `n` messages. */
  ghost predicate LargeMoved(c: CompactionConfig, ms: History, moved: set<nat>, n: nat) {
    moved == Below(Over(c, ms), n)
  }

  lemma LargeMovedNext(c: CompactionConfig, ms: History, moved: set<nat>, n: nat)
    requires n < |ms| && LargeMoved(c, ms, moved, n)
    ensures LargeMoved(c, ms, if TooLarge(c, ms[n]) then moved + {n} else moved, n + 1)
    ensures n !in moved
  {
  }

  lemma LargeMovedAll(c: CompactionConfig, ms: History, moved: set<nat>)
    requires LargeMoved(c, ms, moved, |ms|)
    ensures moved == Over(c, ms)
  {
  }

  method ExternalizeLarge(c: CompactionConfig, session: ChatSession) returns (refs: seq<ExternalRef>)
    modifies session`messages
    ensures session.messages == Compacted(c, old(session.messages), refs)
    ensures Moved(refs) == Over(c, old(session.messages))
  {
    ghost var ms := session.messages;
    refs := [];
    assert LargeMoved(c, ms, Moved(refs), 0);
    for i := 0 to |session.messages|
      invariant |session.messages| == |ms| && session.messages == Compacted(c, ms, refs)
      invariant LargeMoved(c, ms, Moved(refs), i)
    {
      LargeMovedNext(c, ms, Moved(refs), i);
      OthersStay(c, ms, refs, i);
      if TooLarge(c, session.messages[i]) {
        refs := Externalize(c, session, ms, i, refs);
      }
    }
    LargeMovedAll(c, ms, Moved(refs));
  }

  ghost predicate AllGroups(ms: History, groups: seq<(nat, nat)>) {
    && (forall a | 0 <= a < |groups| :: IsGroup(ms, groups[a].0, groups[a].1))
    && (forall a, b | 0 <= a < b < |groups| :: groups[a].1 < groups[b].0)
  }

  /** The first `n` groups are done and the others are as the first pass left them. */
  ghost predicate GroupsDone(c: CompactionConfig, ms: History, over: set<nat>, moved: set<nat>,
                             groups: seq<(nat, nat)>, n: nat)
    requires AllGroups(ms, groups)
  {
    && (forall a | 0 <= a < n <= |groups| :: GroupDone(c, ms, over, moved, groups[a].0, groups[a].1))
    && (forall a | n <= a < |groups| :: ExtraIn(over, moved, groups[a].0, groups[a].1) == {})
  }

  lemma GroupsDoneNext(c: CompactionConfig, ms: History, over: set<nat>, moved: set<nat>, groups: seq<(nat, nat)>,
                       n: nat, extra: set<nat>)
    requires AllGroups(ms, groups) && n < |groups| && GroupsDone(c, ms, over, moved, groups, n)
    requires forall i | i in extra :: groups[n].0 <= i < groups[n].1
    requires GroupDone(c, ms, over, moved + extra, groups[n].0, groups[n].1)
    ensures GroupsDone(c, ms, over, moved + extra, groups, n + 1)
  {
    var (from, to) := groups[n];
    forall a | 0 <= a < |groups| && a != n
      ensures a < n ==> GroupDone(c, ms, over, moved + extra, groups[a].0, groups[a].1)
      ensures a > n ==> ExtraIn(over, moved + extra, groups[a].0, groups[a].1) == {}
    {
      var (lo, hi) := groups[a];
      assert to <= lo || hi <= from;
      ExtraElsewhere(over, moved, extra, from, to, lo, hi);
      if a < n { GroupStaysDone(c, ms, over, moved, extra, lo, hi); }
    }
  }

  lemma ListedGroups(ms: History, now: History, groups: seq<(nat, nat)>)
    requires SameShapes(ms, now)
    requires forall lo: nat, hi: nat :: (lo, hi) in groups <==> IsGroup(now, lo, hi)
    requires forall a, b | 0 <= a < b < |groups| :: groups[a].1 < groups[b].0
    ensures AllGroups(ms, groups)
    ensures forall lo: nat, hi: nat :: IsGroup(ms, lo, hi) <==> (lo, hi) in groups
  {
    forall lo: nat, hi: nat ensures IsGroup(ms, lo, hi) <==> (lo, hi) in groups {
      if IsGroup(ms, lo, hi) { GroupsByShape(ms, now, lo, hi); }
      if IsGroup(now, lo, hi) { GroupsByShape(now, ms, lo, hi); }
    }
    forall a | 0 <= a < |groups| ensures IsGroup(ms, groups[a].0, groups[a].1) {
      assert (groups[a].0, groups[a].1) in groups;
    }
  }

  /** Everything moved is too large alone or stands in a group. */
  ghost predicate Accounted(ms: History, over: set<nat>, moved: set<nat>) {
    forall i | i in moved && i !in over :: InSomeGroup(ms, i)
  }

  /** One more group is shrunk. */
  lemma GroupStep(c: CompactionConfig, ms: History, over: set<nat>, refs: seq<ExternalRef>, groups: seq<(nat, nat)>,
                  n: nat, extra: set<nat>)
    requires Recognises(c) && AllGroups(ms, groups) && n < |groups|
    requires MovesResults(c, ms, over, Moved(refs)) && Accounted(ms, over, Moved(refs))
        && GroupsDone(c, ms, over, Moved(refs), groups, n)
    requires Shrunk(c, Compacted(c, ms, refs), groups[n].0, groups[n].1, extra)
    ensures MovesResults(c, ms, over, Moved(refs) + extra) && Accounted(ms, over, Moved(refs) + extra)
    ensures GroupsDone(c, ms, over, Moved(refs) + extra, groups, n + 1)
  {
    var (lo, hi) := groups[n];
    ShrunkIsNew(c, ms, refs, lo, hi, extra);
    assert ExtraIn(over, Moved(refs), lo, hi) == {};
    GroupJustDone(c, ms, over, refs, lo, hi, extra);
    GroupsDoneNext(c, ms, over, Moved(refs), groups, n, extra);
    assert IsGroup(ms, lo, hi);
  }

  method ShrinkGroups(c: CompactionConfig, session: ChatSession, ghost ms: History, refs: seq<ExternalRef>)
      returns (more: seq<ExternalRef>)
    requires Recognises(c) && session.messages == Compacted(c, ms, refs) && Moved(refs) == Over(c, ms)
    modifies session`messages
    ensures session.messages == Compacted(c, ms, more) && LeastCompaction(c, ms, Moved(more))
  {
    ghost var over := Over(c, ms);
    CompactedKinds(c, ms, refs);
    var groups := ToolResultGroups(session.messages);
    ListedGroups(ms, session.messages, groups);
    more := refs;
    for n := 0 to |groups|
      invariant session.messages == Compacted(c, ms, more)
      invariant MovesResults(c, ms, over, Moved(more)) && Accounted(ms, over, Moved(more))
      invariant GroupsDone(c, ms, over, Moved(more), groups, n)
    {
      assert IsGroup(ms, groups[n].0, groups[n].1);
      ghost var extra;
      ghost var before := more;
      more, extra := ShrinkGroup(c, session, ms, groups[n].0, groups[n].1, more);
      GroupStep(c, ms, over, before, groups, n, extra);
    }
    forall lo: nat, hi: nat | IsGroup(ms, lo, hi) ensures GroupDone(c, ms, over, Moved(more), lo, hi) {
      var a :| 0 <= a < |groups| && groups[a] == (lo, hi);
    }
  }

  /** `compact`: the two passes, and the paths of what was moved. */
  method Compact(c: CompactionConfig, session: ChatSession) returns (changed: bool, refs: seq<ExternalRef>)
    requires Recognises(c)
    modifies session`messages, session`compactedToolPaths
    ensures session.messages == Compacted(c, old(session.messages), refs)
    ensures LeastCompaction(c, old(session.messages), Moved(refs))
    ensures changed <==> Moved(refs) != {}
    ensures session.compactedToolPaths == old(session.compactedToolPaths) + Paths(refs)
  {
    refs := ExternalizeLarge(c, session);
    refs := ShrinkGroups(c, session, old(session.messages), refs);
    changed := refs != [];
    if refs != [] {
      session.compactedToolPaths := session.compactedToolPaths + Paths(refs);
    }
  }

  // ---------------------------------------------------------------------------
  // What a compaction achieves
  // ---------------------------------------------------------------------------

  /** Nothing is left to compact: no result is too large alone, and no group is too large together. */
  ghost predicate Fits(c: CompactionConfig, ms: History) {
    && (forall i | 0 <= i < |ms| :: !TooLarge(c, ms[i]))
    && (forall lo: nat, hi: nat | IsGroup(ms, lo, hi) :: Remaining(c, ms, lo, hi, {}) <= c.turnToolResultTokens)
  }

  lemma CompactedFits(c: CompactionConfig, ms: History, refs: seq<ExternalRef>)
    requires Recognises(c) && LeastCompaction(c, ms, Moved(refs))
    ensures Fits(c, Compacted(c, ms, refs))
  {
    var now := Compacted(c, ms, refs);
    CompactedKinds(c, ms, refs);
    forall i | 0 <= i < |now| ensures !TooLarge(c, now[i]) {
      if i !in Moved(refs) { assert i !in Over(c, ms); }
    }
    forall lo: nat, hi: nat | IsGroup(now, lo, hi) ensures Remaining(c, now, lo, hi, {}) <= c.turnToolResultTokens {
      GroupsByShape(now, ms, lo, hi);
      RemainingAfter(c, ms, refs, lo, hi, {});
      assert GroupDone(c, ms, Over(c, ms), Moved(refs), lo, hi);
      assert Moved(refs) + {} == Moved(refs);
    }
  }

  /** A history that fits is left alone, so compacting twice changes nothing the second time. */
  lemma FitsIsLeftAlone(c: CompactionConfig, ms: History, moved: set<nat>)
    requires Fits(c, ms) && LeastCompaction(c, ms, moved)
    ensures moved == {}
  {
    assert Over(c, ms) == {};
    if moved != {} {
      var i :| i in moved;
      GroupLeftAlone(c, ms, moved, i);
    }
  }

  lemma GroupLeftAlone(c: CompactionConfig, ms: History, moved: set<nat>, i: nat)
    requires Fits(c, ms) && InSomeGroup(ms, i) && Over(c, ms) == {}
    requires forall lo: nat, hi: nat | IsGroup(ms, lo, hi) :: GroupDone(c, ms, {}, moved, lo, hi)
    ensures i !in moved
  {
    var lo: nat, hi: nat :| IsGroup(ms, lo, hi) && lo <= i < hi;
    assert GroupDone(c, ms, {}, moved, lo, hi);
    var nothing: set<nat> := {};
    assert nothing + nothing == nothing;
    assert |ExtraIn({}, moved, lo, hi)| <= |nothing|;
    assert i !in ExtraIn({}, moved, lo, hi);
  }

  /** Roles, ids and order are untouched, and what changed can be replayed from the session log. */
  lemma CompactionKeepsProtocol(c: CompactionConfig, log: LogContext, ms: History, refs: seq<ExternalRef>)
    requires Recognises(c) && LeastCompaction(c, ms, Moved(refs)) && log.isExternal == c.isExternal
    ensures SameShapes(ms, Compacted(c, ms, refs)) && (Safe(Compacted(c, ms, refs)) <==> Safe(ms))
    ensures ExternalForms(log, ms, Compacted(c, ms, refs))
  {
    var now := Compacted(c, ms, refs);
    CompactedKinds(c, ms, refs);
    ShapeDecidesSafety(ms, now);
    forall i | 0 <= i < |ms| ensures ExternalForm(log, ms[i], now[i]) {
      if i in Moved(refs) { MovedIsReplaced(c, ms, refs, i); }
    }
  }
}
