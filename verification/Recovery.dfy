/**
 Making a history safe again: the validator that truncates restored histories
 (`SessionHistoryValidator`) and the copy that sub-agents start from (`_safe_fork_messages`).
 */
module Recovery {
  import opened Wrappers
  import opened ChatHistory
  import opened Seqs

  datatype Warning = OrphanResult | UnpairedCall

  datatype ProtocolValidationResult = ProtocolValidationResult(messages: History, truncatedCount: nat,
                                                               warning: Option<Warning>)

  lemma SubsetOfSameSize<T>(a: set<T>, b: set<T>)
    requires a <= b && |a| >= |b|
    ensures a == b
  {
    assert |b - a| == |b| - |a|;
  }

  /** What the loop knows of the results before `cursor`: where it saw each id. */
  ghost predicate Collected(messages: History, index: nat, ids: set<string>, cursor: nat, at: map<string, nat>) {
    && index < cursor <= |messages| && cursor == index + 1 + |at| && at.Keys <= ids
    && (forall k | index < k < cursor ::
          Answers(messages[k], ids) && messages[k].toolCallId.value in at && at[messages[k].toolCallId.value] == k)
    && (forall id | id in at :: index < at[id] < cursor && messages[at[id]].toolCallId == Some(id))
  }

  lemma CollectNext(messages: History, index: nat, ids: set<string>, cursor: nat, at: map<string, nat>)
    requires Collected(messages, index, ids, cursor, at) && cursor < |messages|
    requires Answers(messages[cursor], ids) && messages[cursor].toolCallId.value !in at
    ensures Collected(messages, index, ids, cursor + 1, at[messages[cursor].toolCallId.value := cursor])
    ensures messages[index..cursor] + [messages[cursor]] == messages[index..cursor + 1]
  {
    SliceNext(messages, index, cursor);
  }

  /** A missing, foreign or repeated result spoils the whole group. */
  lemma GroupBroken(messages: History, index: nat, ids: set<string>, cursor: nat, at: map<string, nat>)
    requires Collected(messages, index, ids, cursor, at) && |at| < |ids|
    requires cursor < |messages| ==> !Answers(messages[cursor], ids) || messages[cursor].toolCallId.value in at
    ensures !AnsweredFor(messages, index, ids)
  {
    if cursor < |messages| && Answers(messages[cursor], ids) {
      assert messages[at[messages[cursor].toolCallId.value]].toolCallId == messages[cursor].toolCallId;
    }
  }

  lemma GroupWhole(messages: History, index: nat, ids: set<string>, cursor: nat, at: map<string, nat>)
    requires Collected(messages, index, ids, cursor, at) && at.Keys == ids
    ensures AnsweredFor(messages, index, ids)
  {
    assert |at| == |at.Keys|;
  }

  lemma NothingCollected(messages: History, index: nat, ids: set<string>)
    requires index < |messages|
    ensures Collected(messages, index, ids, index + 1, map[])
  {
  }

  /** The group is whole, or the results end too early. */
  lemma GroupDecided(messages: History, index: nat, ids: set<string>, cursor: nat, at: map<string, nat>)
    requires Collected(messages, index, ids, cursor, at) && (cursor == |messages| || |at.Keys| >= |ids|)
    ensures at.Keys == ids <==> AnsweredFor(messages, index, ids)
    ensures at.Keys == ids ==> cursor == index + 1 + |ids|
  {
    assert |at| == |at.Keys|;
    if at.Keys == ids {
      GroupWhole(messages, index, ids, cursor, at);
    } else {
      if |at| >= |ids| { SubsetOfSameSize(at.Keys, ids); }
      GroupBroken(messages, index, ids, cursor, at);
    }
  }

  /** The next message is no result that is still expected. */
  lemma GroupInterrupted(messages: History, index: nat, ids: set<string>, cursor: nat, at: map<string, nat>)
    requires Collected(messages, index, ids, cursor, at) && cursor < |messages| && |at.Keys| < |ids|
    requires !Answers(messages[cursor], ids) || messages[cursor].toolCallId.value in at.Keys
    ensures !AnsweredFor(messages, index, ids)
  {
    assert |at| == |at.Keys|;
    GroupBroken(messages, index, ids, cursor, at);
  }

  /** The loop over the results that must follow message `index`. */
  method CollectResults(messages: History, index: nat, expected: set<string>) returns (group: Option<History>)
    requires index < |messages|
    ensures group.Some? <==> AnsweredFor(messages, index, expected)
    ensures group.Some? ==> group.value == messages[index..index + 1 + |expected|]
  {
    hide Collected, AnsweredFor;
    NothingCollected(messages, index, expected);
    var seen: set<string> := {};
    ghost var at: map<string, nat> := map[];
    var found := [messages[index]];
    var cursor := index + 1;
    while cursor < |messages| && |seen| < |expected|
      invariant index < cursor <= |messages| && at.Keys == seen && Collected(messages, index, expected, cursor, at)
      invariant found == messages[index..cursor]
    {
      var candidate := messages[cursor];
      if candidate.role != Tool || candidate.toolCallId.None? || candidate.toolCallId.value !in expected
         || candidate.toolCallId.value in seen {
        GroupInterrupted(messages, index, expected, cursor, at);
        return None;
      }
      CollectNext(messages, index, expected, cursor, at);
      at := at[candidate.toolCallId.value := cursor];
      seen := seen + {candidate.toolCallId.value};
      found := found + [candidate];
      cursor := cursor + 1;
    }
    GroupDecided(messages, index, expected, cursor, at);
    if seen == expected { return Some(found); }
    return None;
  }

  method CompleteToolGroup(messages: History, index: nat) returns (group: Option<History>)
    requires index < |messages| && HasCalls(messages[index])
    ensures group.Some? <==> Answered(messages, index)
    ensures group.Some? ==> group.value == messages[index..index + 1 + |Ids(messages[index])|]
  {
    group := CollectResults(messages, index, Ids(messages[index]));
  }

  lemma UnitByKind(messages: History, index: nat)
    requires index < |messages|
    ensures Unit(messages[index..]) ==
      if messages[index].role == Tool || (HasCalls(messages[index]) && !Answered(messages, index)) then 0
      else if HasCalls(messages[index]) then 1 + |Ids(messages[index])|
      else 1
  {
    AnsweredShift(messages, index, index);
  }

  /** Why the scan stops at `index`. */
  ghost predicate Explains(messages: History, index: nat, warning: Warning) {
    && index < |messages|
    && (warning == OrphanResult ==> messages[index].role == Tool)
    && (warning == UnpairedCall ==> HasCalls(messages[index]) && !Answered(messages, index))
  }

  /** The unit that starts at `index`, or what is wrong there. */
  method NextUnit(messages: History, index: nat) returns (unit: Result<History, Warning>)
    requires index < |messages|
    ensures unit.Ok? ==>
        |unit.value| == Unit(messages[index..]) > 0 && unit.value == messages[index..index + |unit.value|]
    ensures unit.Err? ==> Unit(messages[index..]) == 0 && Explains(messages, index, unit.error)
  {
    UnitByKind(messages, index);
    if messages[index].role == Tool {
      return Err(OrphanResult);
    }
    if HasCalls(messages[index]) {
      var group := CompleteToolGroup(messages, index);
      if group.None? {
        return Err(UnpairedCall);
      }
      return Ok(group.value);
    }
    return Ok([messages[index]]);
  }

  /** The first `index` messages are whole units, and the rest is still to be checked. */
  ghost predicate Validated(messages: History, index: nat, valid: History)
    requires index <= |messages|
  {
    && valid == messages[0..index]
    && SafeLength(messages) == index + SafeLength(messages[index..])
  }

  lemma SafeLengthByUnit(ms: History, u: nat, rest: History)
    requires ms != [] && Unit(ms) == u > 0 && rest == ms[u..]
    ensures SafeLength(ms) == u + SafeLength(rest)
  {
  }

  lemma ValidatedNext(messages: History, index: nat, valid: History, unit: History)
    requires index + |unit| <= |messages| && Validated(messages, index, valid)
        && unit == messages[index..index + |unit|]
    requires index < |messages| && Unit(messages[index..]) == |unit| > 0
    ensures Validated(messages, index + |unit|, valid + unit)
  {
    SliceJoin(messages, 0, index, index + |unit|);
    SliceTail(messages, index, |unit|);
    SafeLengthByUnit(messages[index..], |unit|, messages[index + |unit|..]);
  }

  lemma ValidatedEnd(messages: History, index: nat, valid: History)
    requires index <= |messages| && Validated(messages, index, valid)
    requires index < |messages| ==> Unit(messages[index..]) == 0
    ensures index == SafeLength(messages) && valid == messages[0..index] && (index == |messages| <==> Safe(messages))
  {
    SafeLengthDecides(messages);
  }

  lemma NothingValidated(messages: History)
    ensures Validated(messages, 0, [])
  {
    SliceAll(messages);
  }

  method TruncateToProtocolSafe(messages: History) returns (r: ProtocolValidationResult)
    ensures r.messages == messages[0..SafeLength(messages)]
    ensures r.truncatedCount == |messages| - |r.messages|
    ensures r.warning == None <==> Safe(messages)
    ensures r.warning.Some? ==> Explains(messages, |r.messages|, r.warning.value)
  {
    hide Safe, SafeLength, Validated, Explains;
    var valid: History := [];
    var index := 0;
    NothingValidated(messages);
    while index < |messages|
      invariant index <= |messages| && Validated(messages, index, valid)
      decreases |messages| - index
    {
      var unit := NextUnit(messages, index);
      if unit.Err? {
        ValidatedEnd(messages, index, valid);
        return ProtocolValidationResult(valid, |messages| - |valid|, Some(unit.error));
      }
      ValidatedNext(messages, index, valid, unit.value);
      valid := valid + unit.value;
      index := index + |unit.value|;
    }
    ValidatedEnd(messages, index, valid);
    return ProtocolValidationResult(valid, 0, None);
  }

  /** The validator keeps the longest safe prefix, and has nothing left to do on what it kept. */
  lemma TruncationIsBest(messages: History)
    ensures Safe(messages[..SafeLength(messages)])
    ensures forall j | 0 <= j <= |messages| && Safe(messages[..j]) :: j <= SafeLength(messages)
    ensures SafeLength(messages[..SafeLength(messages)]) == SafeLength(messages)
  {
    SafeLengthIsSafe(messages);
    SafeLengthIsSafe(messages[..SafeLength(messages)]);
    forall j | 0 <= j <= |messages| && Safe(messages[..j]) ensures j <= SafeLength(messages) {
      SafeLengthIsLongest(messages, j);
    }
  }

  // ---------------------------------------------------------------------------
  // Forking
  // ---------------------------------------------------------------------------

  /** How much is left once trailing messages with calls are dropped. */
  function ForkLength(messages: History): (n: nat)
    ensures n <= |messages|
    ensures n > 0 ==> !HasCalls(messages[n - 1])
    ensures forall i | n <= i < |messages| :: HasCalls(messages[i])
  {
    if messages != [] && HasCalls(messages[|messages| - 1]) then ForkLength(messages[..|messages| - 1]) else |messages|
  }

  method SafeForkMessages(messages: History) returns (copied: History)
    ensures copied == messages[..ForkLength(messages)]
  {
    copied := messages;
    while copied != [] && copied[|copied| - 1].role == Assistant && copied[|copied| - 1].toolCalls != []
      invariant copied <= messages && ForkLength(copied) == ForkLength(messages)
    {
      copied := copied[..|copied| - 1];
    }
  }

  /** A fork is safe exactly when trailing calls were all that was wrong. */
  lemma ForkIsSafe(messages: History)
    ensures Safe(messages[..ForkLength(messages)]) <==> SafeLength(messages) == ForkLength(messages)
    ensures Safe(messages) ==> ForkLength(messages) == |messages|
  {
    hide Safe, SafeLength;
    var n := ForkLength(messages);
    assert messages == messages[..n] + messages[n..];
    SafeLengthIsSafe(messages);
    if Safe(messages[..n]) { KeptPartIsLongest(messages[..n], messages[n..]); }
    if Safe(messages) { SafeKeepsFork(messages); }
  }

  /** Behind a safe part, nothing but trailing calls is safe. */
  lemma KeptPartIsLongest(kept: History, dropped: History)
    requires Safe(kept) && forall i | 0 <= i < |dropped| :: HasCalls(dropped[i])
    ensures SafeLength(kept + dropped) == |kept|
  {
    if dropped != [] { NothingAnswersTrailingCalls(dropped); }
    SafeAppend(kept, dropped);
  }

  lemma SafeKeepsFork(messages: History)
    requires Safe(messages)
    ensures ForkLength(messages) == |messages|
  {
    SafeIffPaired(messages);
    if messages != [] && HasCalls(messages[|messages| - 1]) {
      CallsHaveIds(messages[|messages| - 1]);
      assert false;
    }
  }

  lemma NothingAnswersTrailingCalls(dropped: History)
    requires dropped != [] && forall i | 0 <= i < |dropped| :: HasCalls(dropped[i])
    ensures !Answered(dropped, 0)
  {
    CallsHaveIds(dropped[0]);
    assert |dropped| > 1 ==> !Answers(dropped[1], Ids(dropped[0]));
  }

  /** A history cut off inside its tool phase: both repairs drop exactly the unanswered call. */
  lemma RepairsDropTheDanglingCall(h: History, m: ChatMessage)
    requires Safe(h) && HasCalls(m)
    ensures ForkLength(h + [m]) == |h| && SafeLength(h + [m]) == |h|
  {
    CallsHaveIds(m);
    assert h + [m] + [] == h + [m];
    DanglingCallEndsSafety(h, m, []);
    assert (h + [m])[..|h|] == h;
    ForkIsSafe(h);
  }
}
