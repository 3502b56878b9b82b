/**
 Conversation histories and the one rule a provider demands of them: an assistant message with
 tool calls is followed at once by exactly its results, and no result stands anywhere else.
 */
module ChatHistory {
  import opened Wrappers
  import opened Json

  datatype Role = User | Assistant | Tool

  datatype ToolCall = ToolCall(id: string, name: string, arguments: map<string, Json>, rawArguments: string,
                               parseError: Option<string>)

  datatype ChatMessage = ChatMessage(
    role: Role, content: string, thinking: Option<string>, toolCalls: seq<ToolCall>, toolCallId: Option<string>,
    toolResultIsError: bool, providerPayload: Option<map<string, Json>>, metadata: Option<map<string, Json>>)

  type History = seq<ChatMessage>

  function Ids(m: ChatMessage): set<string> {
    set call | call in m.toolCalls :: call.id
  }

  predicate HasCalls(m: ChatMessage) {
    m.role == Assistant && m.toolCalls != []
  }

  predicate Answers(m: ChatMessage, ids: set<string>) {
    m.role == Tool && m.toolCallId.Some? && m.toolCallId.value in ids
  }

  lemma CallsHaveIds(m: ChatMessage)
    requires HasCalls(m)
    ensures |Ids(m)| > 0
  {
    assert m.toolCalls[0].id in Ids(m);
  }

  // ---------------------------------------------------------------------------
  // The rule, position by position
  // ---------------------------------------------------------------------------

  /** The messages right after `i` are results for `ids`, each once. */
  predicate AnsweredFor(ms: History, i: nat, ids: set<string>)
    requires i < |ms|
  {
    && i + |ids| < |ms|
    && (forall k | i < k <= i + |ids| :: Answers(ms[k], ids))
    && (forall j, k | i < j < k <= i + |ids| :: ms[j].toolCallId != ms[k].toolCallId)
  }

  /** The messages right after `i` are the results of its calls, each once. */
  predicate Answered(ms: History, i: nat)
    requires i < |ms|
  {
    AnsweredFor(ms, i, Ids(ms[i]))
  }

  /** `k` is one of the places that the calls of message `i` claim for their results. */
  ghost predicate InGroupOf(ms: History, i: nat, k: nat)
    requires i < |ms|
  {
    HasCalls(ms[i]) && i < k <= i + |Ids(ms[i])|
  }

  ghost predicate AllAnswered(ms: History) {
    forall i | 0 <= i < |ms| && HasCalls(ms[i]) :: Answered(ms, i)
  }

  ghost predicate CalledFor(ms: History, k: nat)
    requires k < |ms|
  {
    exists i :: 0 <= i < k && InGroupOf(ms, i, k)
  }

  ghost predicate NoOrphans(ms: History) {
    forall k | 0 <= k < |ms| && ms[k].role == Tool :: CalledFor(ms, k)
  }

  ghost predicate Paired(ms: History) {
    AllAnswered(ms) && NoOrphans(ms)
  }

  // ---------------------------------------------------------------------------
  // The rule, unit by unit
  // ---------------------------------------------------------------------------

  /** The length of the protocol unit that starts the history, or 0 when none does. */
  function Unit(ms: History): (n: nat)
    requires ms != []
    ensures n <= |ms|
  {
    if ms[0].role == Tool then 0
    else if !HasCalls(ms[0]) then 1
    else if Answered(ms, 0) then 1 + |Ids(ms[0])|
    else 0
  }

  ghost predicate Safe(ms: History)
    decreases |ms|
  {
    ms == [] || (Unit(ms) > 0 && Safe(ms[Unit(ms)..]))
  }

  /** The length of the longest prefix made of whole units. */
  function SafeLength(ms: History): (n: nat)
    ensures n <= |ms|
    decreases |ms|
  {
    if ms == [] || Unit(ms) == 0 then 0 else Unit(ms) + SafeLength(ms[Unit(ms)..])
  }

  // ---------------------------------------------------------------------------
  // Both readings agree
  // ---------------------------------------------------------------------------

  lemma AnsweredShift(ms: History, u: nat, i: nat)
    requires u <= i < |ms|
    ensures Answered(ms, i) <==> Answered(ms[u..], i - u)
  {
    var tail := ms[u..];
    if Answered(ms[u..], i - u) {
      forall k | i < k <= i + |Ids(ms[i])| ensures Answers(ms[k], Ids(ms[i])) {
        assert tail[k - u] == ms[k];
      }
      forall j, k | i < j < k <= i + |Ids(ms[i])| ensures ms[j].toolCallId != ms[k].toolCallId {
        assert tail[j - u] == ms[j] && tail[k - u] == ms[k];
      }
    }
  }

  lemma AllAnsweredTail(ms: History)
    requires ms != [] && Unit(ms) > 0
    ensures AllAnswered(ms) <==> AllAnswered(ms[Unit(ms)..])
  {
    var u := Unit(ms);
    var tail := ms[u..];
    assert forall k | 0 < k < u :: Answers(ms[k], Ids(ms[0]));
    forall i | u <= i < |ms| ensures HasCalls(ms[i]) ==> (Answered(ms, i) <==> Answered(tail, i - u)) {
      AnsweredShift(ms, u, i);
    }
    if AllAnswered(ms) {
      forall i | 0 <= i < |tail| && HasCalls(tail[i]) ensures Answered(tail, i) {
        assert HasCalls(ms[u + i]);
      }
    }
    if AllAnswered(tail) {
      forall i | 0 <= i < |ms| && HasCalls(ms[i]) ensures Answered(ms, i) {
        if i >= u { assert HasCalls(tail[i - u]); }
      }
    }
  }

  lemma CalledForShift(ms: History, k: nat)
    requires ms != [] && 0 < Unit(ms) <= k < |ms|
    ensures CalledFor(ms, k) <==> CalledFor(ms[Unit(ms)..], k - Unit(ms))
  {
    var u := Unit(ms);
    var tail := ms[u..];
    assert forall j | 0 < j < u :: Answers(ms[j], Ids(ms[0]));
    if CalledFor(ms, k) {
      var i :| 0 <= i < k && InGroupOf(ms, i, k);
      assert i >= u;
      assert InGroupOf(tail, i - u, k - u);
    }
    if CalledFor(tail, k - u) {
      var i :| 0 <= i < k - u && InGroupOf(tail, i, k - u);
      assert InGroupOf(ms, u + i, k);
    }
  }

  lemma NoOrphansTail(ms: History)
    requires ms != [] && Unit(ms) > 0
    ensures NoOrphans(ms) <==> NoOrphans(ms[Unit(ms)..])
  {
    var u := Unit(ms);
    var tail := ms[u..];
    if NoOrphans(ms) {
      forall k | 0 <= k < |tail| && tail[k].role == Tool ensures CalledFor(tail, k) {
        assert ms[u + k].role == Tool;
        CalledForShift(ms, u + k);
      }
    }
    if NoOrphans(tail) {
      forall k | 0 <= k < |ms| && ms[k].role == Tool ensures CalledFor(ms, k) {
        if k < u {
          assert InGroupOf(ms, 0, k);
        } else {
          assert tail[k - u].role == Tool;
          CalledForShift(ms, k);
        }
      }
    }
  }

  /** Whole units in a row, or every call answered and every result called for: the same histories. */
  lemma {:induction false} SafeIffPaired(ms: History)
    ensures Safe(ms) <==> Paired(ms)
    decreases |ms|
  {
    if ms != [] {
      if Unit(ms) > 0 {
        AllAnsweredTail(ms);
        NoOrphansTail(ms);
        SafeIffPaired(ms[Unit(ms)..]);
      } else if ms[0].role == Tool {
        assert !CalledFor(ms, 0);
      }
    }
  }

  // ---------------------------------------------------------------------------
  // Appending and cutting
  // ---------------------------------------------------------------------------

  lemma UnitAppend(a: History, b: History)
    requires a != []
    ensures Unit(a) > 0 ==> Unit(a + b) == Unit(a)
    ensures Unit(a + b) <= |a| ==> Unit(a + b) == Unit(a)
  {
    var ms := a + b;
    assert ms[0] == a[0];
    if HasCalls(a[0]) {
      var n := |Ids(a[0])|;
      if Answered(a, 0) {
        assert forall k | 0 < k <= n :: ms[k] == a[k];
      }
      if Answered(ms, 0) && n < |a| {
        assert forall k | 0 < k <= n :: ms[k] == a[k];
        forall k | 0 < k <= n ensures Answers(a[k], Ids(a[0])) {
          assert Answers(ms[k], Ids(ms[0]));
        }
      }
    }
  }

  /** After a safe history, safety is decided by what follows. */
  lemma {:induction false} SafeAppend(a: History, b: History)
    requires Safe(a)
    ensures Safe(a + b) <==> Safe(b)
    ensures SafeLength(a + b) == |a| + SafeLength(b)
    decreases |a|
  {
    if a == [] {
      assert a + b == b;
    } else {
      var u := Unit(a);
      UnitAppend(a, b);
      assert (a + b)[u..] == a[u..] + b;
      SafeAppend(a[u..], b);
    }
  }

  lemma {:induction false} SafeLengthIsSafe(ms: History)
    ensures Safe(ms[..SafeLength(ms)])
    ensures SafeLength(ms) == |ms| <==> Safe(ms)
    decreases |ms|
  {
    if ms != [] && Unit(ms) > 0 {
      var u, n := Unit(ms), SafeLength(ms);
      SafeLengthIsSafe(ms[u..]);
      var p := ms[..n];
      assert ms == p + ms[n..];
      UnitAppend(p, ms[n..]);
      assert p[u..] == ms[u..][..n - u];
    }
  }

  /** A history is a safe part followed by a part that starts no unit. */
  lemma SafeSplit(ms: History) returns (good: History, bad: History)
    ensures ms == good + bad && Safe(good) && |good| == SafeLength(ms) && SafeLength(bad) == 0
  {
    good, bad := ms[..SafeLength(ms)], ms[SafeLength(ms)..];
    SafeLengthIsSafe(ms);
    SafeAppend(good, bad);
    assert good + bad == ms;
  }

  lemma SafeLengthDecides(ms: History)
    ensures SafeLength(ms) == |ms| <==> Safe(ms)
  {
    SafeLengthIsSafe(ms);
  }

  /** No longer prefix is safe. */
  lemma {:induction false} SafeLengthIsLongest(ms: History, j: nat)
    requires j <= |ms| && Safe(ms[..j])
    ensures j <= SafeLength(ms)
  {
    var a, b := ms[..j], ms[j..];
    assert ms == a + b;
    SafeAppend(a, b);
  }

  /** A call whose results do not follow ends the safe part for good, whatever comes after. */
  lemma DanglingCallEndsSafety(a: History, m: ChatMessage, rest: History)
    requires Safe(a) && HasCalls(m) && !Answered([m] + rest, 0)
    ensures SafeLength(a + [m] + rest) == |a| && !Safe(a + [m] + rest)
  {
    var tail := [m] + rest;
    assert tail[0] == m && Unit(tail) == 0;
    assert a + [m] + rest == a + tail;
    SafeAppend(a, tail);
  }

  /** Same roles, calls and result ids: contents may differ. */
  predicate SameShape(a: ChatMessage, b: ChatMessage) {
    a.role == b.role && a.toolCalls == b.toolCalls && a.toolCallId == b.toolCallId
  }

  predicate SameShapes(a: History, b: History) {
    |a| == |b| && forall i | 0 <= i < |a| :: SameShape(a[i], b[i])
  }

  lemma {:induction false} ShapeDecidesSafety(a: History, b: History)
    requires SameShapes(a, b)
    ensures Safe(a) <==> Safe(b)
    decreases |a|
  {
    if a != [] {
      assert SameShape(a[0], b[0]) && Ids(a[0]) == Ids(b[0]);
      if Answered(a, 0) { AnsweredByShape(a, b); }
      if Answered(b, 0) { AnsweredByShape(b, a); }
      assert Unit(a) == Unit(b);
      if Unit(a) > 0 { ShapeDecidesSafety(a[Unit(a)..], b[Unit(a)..]); }
    }
  }

  lemma AnsweredByShape(a: History, b: History)
    requires SameShapes(a, b) && a != [] && Answered(a, 0)
    ensures Answered(b, 0)
  {
    assert SameShape(a[0], b[0]) && Ids(a[0]) == Ids(b[0]);
    forall k | 0 < k <= |Ids(a[0])| ensures Answers(b[k], Ids(b[0])) {
      assert SameShape(a[k], b[k]) && Answers(a[k], Ids(a[0]));
    }
    forall j, k | 0 < j < k <= |Ids(a[0])| ensures b[j].toolCallId != b[k].toolCallId {
      assert SameShape(a[j], b[j]) && SameShape(a[k], b[k]);
    }
  }

  lemma PlainMessageIsSafe(m: ChatMessage)
    requires m.role != Tool && !HasCalls(m)
    ensures Safe([m])
  {
    assert [m][1..] == [];
  }

  /** One result for each call, in any order, completes the unit. */
  lemma FullGroupIsSafe(m: ChatMessage, results: History)
    requires HasCalls(m) && |results| == |Ids(m)|
    requires forall k | 0 <= k < |results| :: Answers(results[k], Ids(m))
    requires forall j, k | 0 <= j < k < |results| :: results[j].toolCallId != results[k].toolCallId
    ensures Safe([m] + results)
  {
    var ms := [m] + results;
    assert ms[0] == m;
    forall k | 0 < k <= |results| ensures Answers(ms[k], Ids(m)) {
      assert ms[k] == results[k - 1];
    }
    forall j, k | 0 < j < k <= |results| ensures ms[j].toolCallId != ms[k].toolCallId {
      assert ms[j] == results[j - 1] && ms[k] == results[k - 1];
    }
    assert ms[Unit(ms)..] == [];
  }
}
