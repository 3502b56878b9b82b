/**
 Cutting a history into segments that keep calls and results together, and choosing how many
 recent segments survive a summary (`ConversationSegmenter`).
 */
module Segmenter {
  import opened ChatHistory
  import opened Seqs

  type Estimator = ChatMessage -> nat

  datatype ConversationSegment = ConversationSegment(messages: History, estimatedTokens: nat)

  function Tokens(ms: History, estimate: Estimator): nat {
    if ms == [] then 0 else Tokens(ms[..|ms| - 1], estimate) + estimate(ms[|ms| - 1])
  }

  function Flatten(segments: seq<ConversationSegment>): History {
    if segments == [] then [] else segments[0].messages + Flatten(segments[1..])
  }

  /** How many messages from `from` on are results for `ids`, without a gap. */
  function ResultRun(ms: History, from: nat, ids: set<string>): (n: nat)
    requires from <= |ms|
    ensures from + n <= |ms|
    ensures forall k | from <= k < from + n :: Answers(ms[k], ids)
    ensures from + n < |ms| ==> !Answers(ms[from + n], ids)
    decreases |ms| - from
  {
    if from < |ms| && Answers(ms[from], ids) then 1 + ResultRun(ms, from + 1, ids) else 0
  }

  lemma {:induction false} ResultRunIsUnique(ms: History, from: nat, ids: set<string>, n: nat)
    requires from + n <= |ms|
    requires forall k | from <= k < from + n :: Answers(ms[k], ids)
    requires from + n < |ms| ==> !Answers(ms[from + n], ids)
    ensures n == ResultRun(ms, from, ids)
    decreases |ms| - from
  {
    if n > 0 { ResultRunIsUnique(ms, from + 1, ids, n - 1); }
  }

  /** The first segment: one message, with the results that follow it when it has calls. */
  ghost function FirstLength(ms: History): (n: nat)
    requires ms != []
    ensures 1 <= n <= |ms|
  {
    if HasCalls(ms[0]) then 1 + ResultRun(ms, 1, Ids(ms[0])) else 1
  }

  /** Each segment is all that belongs to its first message, and nothing is left out. */
  ghost predicate Segmentation(ms: History, segments: seq<ConversationSegment>, estimate: Estimator)
    decreases |ms|
  {
    if ms == [] then segments == []
    else
      && segments != [] && segments[0].messages == ms[..FirstLength(ms)]
      && segments[0].estimatedTokens == Tokens(segments[0].messages, estimate)
      && Segmentation(ms[FirstLength(ms)..], segments[1..], estimate)
  }

  /** Segments found so far, and what is still to be cut. */
  ghost predicate CutUpTo(ms: History, segments: seq<ConversationSegment>, left: History, estimate: Estimator) {
    forall more | Segmentation(left, more, estimate) :: Segmentation(ms, segments + more, estimate)
  }

  lemma CutNext(ms: History, segments: seq<ConversationSegment>, left: History, estimate: Estimator,
                segment: ConversationSegment)
    requires left != [] && CutUpTo(ms, segments, left, estimate)
    requires segment.messages == left[..FirstLength(left)]
        && segment.estimatedTokens == Tokens(segment.messages, estimate)
    ensures CutUpTo(ms, segments + [segment], left[FirstLength(left)..], estimate)
  {
    forall more | Segmentation(left[FirstLength(left)..], more, estimate)
      ensures Segmentation(ms, segments + [segment] + more, estimate)
    {
      var both := [segment] + more;
      assert both[1..] == more;
      assert Segmentation(left, both, estimate);
      assert segments + [segment] + more == segments + both;
    }
  }

  method Split(messages: History, estimate: Estimator) returns (segments: seq<ConversationSegment>)
    ensures Segmentation(messages, segments, estimate)
  {
    segments := [];
    var index := 0;
    ghost var left := messages;
    assert CutUpTo(messages, [], messages, estimate) by {
      forall more | Segmentation(messages, more, estimate) ensures Segmentation(messages, [] + more, estimate) {
        assert [] + more == more;
      }
    }
    while index < |messages|
      invariant index <= |messages| && left == messages[index..]
      invariant CutUpTo(messages, segments, left, estimate)
    {
      var group := Group(messages, index);
      CutNext(messages, segments, left, estimate, ConversationSegment(group, Tokens(group, estimate)));
      SliceTail(messages, index, |group|);
      segments := segments + [ConversationSegment(group, Tokens(group, estimate))];
      left := left[|group|..];
      index := index + |group|;
    }
    assert Segmentation(left, [], estimate);
    assert segments + [] == segments;
  }

  /** The message at `index`, with the results that follow it when it has calls. */
  method Group(messages: History, index: nat) returns (group: History)
    requires index < |messages|
    ensures group == messages[index..][..FirstLength(messages[index..])]
    ensures |group| == FirstLength(messages[index..])
  {
    group := [messages[index]];
    if !HasCalls(messages[index]) { return; }
    var callIds := Ids(messages[index]);
    var cursor := index + 1;
    while cursor < |messages|
      invariant index < cursor <= |messages| && group == messages[index..cursor]
      invariant forall k | index < k < cursor :: Answers(messages[k], callIds)
    {
      var candidate := messages[cursor];
      if !Answers(candidate, callIds) { break; }
      SliceNext(messages, index, cursor);
      group := group + [candidate];
      cursor := cursor + 1;
    }
    ghost var left := messages[index..];
    assert forall k | 1 <= k < cursor - index :: left[k] == messages[index + k];
    ResultRunIsUnique(left, 1, callIds, cursor - index - 1);
  }

  // ---------------------------------------------------------------------------
  // What segments are worth
  // ---------------------------------------------------------------------------

  /** Nothing is lost, added or reordered. */
  lemma {:induction false} SplitIsPartition(ms: History, segments: seq<ConversationSegment>, estimate: Estimator)
    requires Segmentation(ms, segments, estimate)
    ensures Flatten(segments) == ms
    ensures forall i | 0 <= i < |segments| :: segments[i].messages != []
    decreases |ms|
  {
    if ms != [] {
      SplitIsPartition(ms[FirstLength(ms)..], segments[1..], estimate);
      assert ms == ms[..FirstLength(ms)] + ms[FirstLength(ms)..];
    }
  }

  /** In a safe history the first segment is exactly the first protocol unit. */
  lemma FirstLengthIsUnit(ms: History)
    requires ms != [] && Safe(ms)
    ensures FirstLength(ms) == Unit(ms)
  {
    var u := Unit(ms);
    var rest := ms[u..];
    if HasCalls(ms[0]) {
      assert rest != [] ==> ms[u] == rest[0] && Unit(rest) > 0;
      ResultRunIsUnique(ms, 1, Ids(ms[0]), u - 1);
    }
  }

  lemma FirstUnitIsSafe(ms: History)
    requires ms != [] && Unit(ms) > 0
    ensures Safe(ms[..Unit(ms)])
  {
    hide Unit;
    var first, rest := ms[..Unit(ms)], ms[Unit(ms)..];
    assert ms == first + rest;
    UnitAppend(first, rest);
    assert Unit(first) == |first| && first[Unit(first)..] == [];
  }

  lemma FirstSegmentIsUnit(ms: History)
    requires ms != [] && Safe(ms)
    ensures FirstLength(ms) == Unit(ms)
    ensures Safe(ms[..FirstLength(ms)]) && Safe(ms[FirstLength(ms)..])
  {
    hide Unit, FirstLength;
    FirstLengthIsUnit(ms);
    FirstUnitIsSafe(ms);
  }

  /** In a safe history every segment is safe on its own. */
  lemma {:induction false} SegmentsAreSafe(ms: History, segments: seq<ConversationSegment>, estimate: Estimator)
    requires Safe(ms) && Segmentation(ms, segments, estimate)
    ensures forall i | 0 <= i < |segments| :: Safe(segments[i].messages)
    decreases |ms|
  {
    if ms != [] {
      FirstSegmentIsUnit(ms);
      SegmentsAreSafe(ms[FirstLength(ms)..], segments[1..], estimate);
    }
  }

  lemma {:induction false} SafeSegmentsFlatten(segments: seq<ConversationSegment>)
    requires forall i | 0 <= i < |segments| :: Safe(segments[i].messages)
    ensures Safe(Flatten(segments))
  {
    if segments != [] {
      SafeSegmentsFlatten(segments[1..]);
      SafeAppend(segments[0].messages, Flatten(segments[1..]));
    }
  }

  lemma {:induction false} FlattenAppend(a: seq<ConversationSegment>, b: seq<ConversationSegment>)
    ensures Flatten(a + b) == Flatten(a) + Flatten(b)
  {
    if a == [] {
      assert a + b == b;
    } else {
      FlattenAppend(a[1..], b);
      assert (a + b)[0] == a[0] && (a + b)[1..] == a[1..] + b;
      AppendAssociates(a[0].messages, Flatten(a[1..]), Flatten(b));
    }
  }

  /** Wherever a safe history is cut between segments, both halves are safe and together are the history. */
  lemma CutsAreSafe(ms: History, segments: seq<ConversationSegment>, estimate: Estimator,
                    before: seq<ConversationSegment>, after: seq<ConversationSegment>)
    requires Safe(ms) && Segmentation(ms, segments, estimate) && segments == before + after
    ensures Safe(Flatten(before)) && Safe(Flatten(after))
    ensures Flatten(before) + Flatten(after) == ms
  {
    SplitIsPartition(ms, segments, estimate);
    SegmentsAreSafe(ms, segments, estimate);
    FlattenAppend(before, after);
    forall i | 0 <= i < |before| ensures Safe(before[i].messages) { assert before[i] == segments[i]; }
    forall i | 0 <= i < |after| ensures Safe(after[i].messages) { assert after[i] == segments[|before| + i]; }
    SafeSegmentsFlatten(before);
    SafeSegmentsFlatten(after);
  }

  /** Around an unanswered call: a safe part before it, and a safe part after it that holds no result for it. */
  ghost predicate CallBetween(ms: History, good: History, m: ChatMessage, later: History) {
    && ms == good + [m] + later && Safe(good) && HasCalls(m) && Safe(later) && (later != [] ==> later[0].role != Tool)
  }

  /** The first segment is the first unit of the good part, or the call alone. */
  lemma FirstSegmentBeforeCall(ms: History, good: History, m: ChatMessage, later: History)
    requires CallBetween(ms, good, m, later)
    ensures FirstLength(ms) == if good == [] then 1 else Unit(good)
    ensures good == [] ==> ms[1..] == later
    ensures good != [] ==> 0 < Unit(good) <= |good| && CallBetween(ms[Unit(good)..], good[Unit(good)..], m, later)
  {
    if good == [] {
      assert ms[0] == m && (later != [] ==> ms[1] == later[0]);
      ResultRunIsUnique(ms, 1, Ids(m), 0);
    } else {
      var u := Unit(good);
      FirstSegmentIsUnit(good);
      assert forall k | 0 <= k < |good| :: ms[k] == good[k];
      assert ms[|good|] == m;
      assert ms[u..] == good[u..] + [m] + later;
      if HasCalls(ms[0]) {
        assert u < |good| ==> good[u] == good[u..][0] && Unit(good[u..]) > 0;
        ResultRunIsUnique(ms, 1, Ids(ms[0]), u - 1);
      }
    }
  }

  lemma TakeDropRest<T>(xs: seq<T>, k: nat)
    requires 0 < k <= |xs|
    ensures xs[k..] == xs[1..][k - 1..] && xs[..k][1..] == xs[1..][..k - 1] && xs[..k][0] == xs[0]
    ensures xs[1..] == xs[1..][..k - 1] + xs[1..][k - 1..]
  {
  }

  lemma RestIsSafe(ms: History, segments: seq<ConversationSegment>, estimate: Estimator, k: nat)
    requires Safe(ms) && Segmentation(ms, segments, estimate) && k <= |segments|
    ensures Safe(Flatten(segments[k..]))
  {
    assert segments == segments[..k] + segments[k..];
    CutsAreSafe(ms, segments, estimate, segments[..k], segments[k..]);
  }

  lemma NotEmptyBehindFirst(segments: seq<ConversationSegment>, k: nat)
    requires 0 < k <= |segments| && segments[0].messages != []
    ensures |Flatten(segments[..k])| > 0
  {
    assert segments[..k][0] == segments[0];
  }

  /** The cut falls right before or somewhere behind the unanswered call. */
  lemma CutAtTheCall(ms: History, segments: seq<ConversationSegment>, estimate: Estimator, k: nat, m: ChatMessage,
                     later: History)
    requires Segmentation(ms, segments, estimate) && 0 < k <= |segments| && CallBetween(ms, [], m, later)
    ensures Safe(Flatten(segments[k..])) && |Flatten(segments[..k])| > 0
  {
    hide Unit, FirstLength, Flatten, Safe;
    FirstSegmentBeforeCall(ms, [], m, later);
    NotEmptyBehindFirst(segments, k);
    RestIsSafe(later, segments[1..], estimate, k - 1);
    TakeDropRest(segments, k);
  }

  lemma NoCut(ms: History, segments: seq<ConversationSegment>, estimate: Estimator, good: History, m: ChatMessage,
              later: History)
    requires Segmentation(ms, segments, estimate) && CallBetween(ms, good, m, later)
    ensures !Safe(Flatten(segments[0..])) && |Flatten(segments[..0])| == 0
  {
    SplitIsPartition(ms, segments, estimate);
    CallStaysUnanswered(good, m, later);
    assert segments[0..] == segments && segments[..0] == [];
  }

  /** What is kept of such a history is safe exactly when the cut falls behind the unanswered call. */
  lemma {:induction false} CutBehindTheCall(ms: History, segments: seq<ConversationSegment>, estimate: Estimator,
                                            k: nat, good: History, m: ChatMessage, later: History)
    requires Segmentation(ms, segments, estimate) && k <= |segments| && CallBetween(ms, good, m, later)
    ensures Safe(Flatten(segments[k..])) <==> |Flatten(segments[..k])| > |good|
    decreases |ms|
  {
    if k == 0 {
      NoCut(ms, segments, estimate, good, m, later);
    } else if good == [] {
      CutAtTheCall(ms, segments, estimate, k, m, later);
    } else {
      FirstSegmentBeforeCall(ms, good, m, later);
      TakeDropRest(segments, k);
      CutBehindTheCall(ms[Unit(good)..], segments[1..], estimate, k - 1, good[Unit(good)..], m, later);
    }
  }

  lemma CallStaysUnanswered(good: History, m: ChatMessage, later: History)
    requires Safe(good) && HasCalls(m) && (later != [] ==> later[0].role != Tool)
    ensures !Safe(good + [m] + later)
  {
    var rest := [m] + later;
    CallsHaveIds(m);
    assert rest[0] == m && (later != [] ==> rest[1] == later[0]);
    assert Answered(rest, 0) ==> Answers(rest[1], Ids(m));
    DanglingCallEndsSafety(good, m, later);
  }

  // ---------------------------------------------------------------------------
  // Recent segments
  // ---------------------------------------------------------------------------

  function SegmentTokens(segments: seq<ConversationSegment>): nat {
    if segments == [] then 0 else segments[0].estimatedTokens + SegmentTokens(segments[1..])
  }

  function SegmentMessages(segments: seq<ConversationSegment>): nat {
    if segments == [] then 0 else |segments[0].messages| + SegmentMessages(segments[1..])
  }

  /** Both minimums are met. */
  predicate Enough(segments: seq<ConversationSegment>, targetTokens: int, minMessages: int) {
    SegmentTokens(segments) >= targetTokens && SegmentMessages(segments) >= minMessages
  }

  ghost predicate NoneEnoughBehind(segments: seq<ConversationSegment>, targetTokens: int, minMessages: int, i: nat) {
    forall k | i < k <= |segments| :: !Enough(segments[k..], targetTokens, minMessages)
  }

  lemma OneMoreSegment(segments: seq<ConversationSegment>, targetTokens: int, minMessages: int, i: nat)
    requires 0 < i <= |segments| && NoneEnoughBehind(segments, targetTokens, minMessages, i)
    requires !Enough(segments[i..], targetTokens, minMessages)
    ensures segments[i - 1..] == [segments[i - 1]] + segments[i..]
    ensures SegmentTokens(segments[i - 1..]) == SegmentTokens(segments[i..]) + segments[i - 1].estimatedTokens
    ensures SegmentMessages(segments[i - 1..]) == SegmentMessages(segments[i..]) + |segments[i - 1].messages|
    ensures NoneEnoughBehind(segments, targetTokens, minMessages, i - 1)
  {
    assert segments[i - 1..][1..] == segments[i..];
  }

  /** Keeps the shortest run of latest segments that meets both minimums, or everything. */
  method SelectRecent(segments: seq<ConversationSegment>, targetTokens: int, minMessages: int)
      returns (summarized: seq<ConversationSegment>, recent: seq<ConversationSegment>)
    ensures summarized + recent == segments
    ensures summarized != [] ==> Enough(recent, targetTokens, minMessages)
    ensures forall k | |summarized| < k <= |segments| :: !Enough(segments[k..], targetTokens, minMessages)
  {
    recent := [];
    var recentTokens: nat, recentMessages: nat := 0, 0;
    var i := |segments|;
    while i > 0
      invariant 0 <= i <= |segments| && recent == segments[i..]
      invariant recentTokens == SegmentTokens(recent) && recentMessages == SegmentMessages(recent)
      invariant NoneEnoughBehind(segments, targetTokens, minMessages, i)
    {
      var shouldKeep := recentTokens < targetTokens || recentMessages < minMessages;
      if !shouldKeep { break; }
      OneMoreSegment(segments, targetTokens, minMessages, i);
      i := i - 1;
      recent := [segments[i]] + recent;
      recentTokens := recentTokens + segments[i].estimatedTokens;
      recentMessages := recentMessages + |segments[i].messages|;
    }
    summarized := segments[..i];
  }
}
