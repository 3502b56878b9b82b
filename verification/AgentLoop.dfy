/**
 One turn of the agent loop (`AgentLoopRunner._run_turn`) over its session. What the model, the
 tools, the user's cancellation and the mailbox do is a script, iteration by iteration.
 */
module AgentLoop {
  import opened Wrappers
  import opened Json
  import opened ChatHistory
  import opened Session
  import opened Compactor
  import opened Recovery
  import CM = ContextManager

  datatype StopReason = Completed | ContextLimit | IterationLimit | UnknownToolLimit | Cancelled | StreamError

  datatype AgentConfig = AgentConfig(context: CM.ContextConfig, maxIterations: int, knownTools: set<string>,
                                     stopText: StopReason -> string)

  datatype ModelOutcome = ModelCancelled | ModelFails | Replied(message: ChatMessage, thenCancelled: bool)

  datatype ToolOutcome = ToolsCancelled | ToolsFail | ToolsRan(results: seq<ToolResult>)

  /** What the mailbox brings, as it is put into the session. */
  datatype ExternalMessage = ExternalMessage(text: string, metadata: map<string, Json>)

  /** What becomes of the turn's end after its last message was appended: the memory update and the stop hooks. */
  datatype Ending = EndsWell | EndFails | EndCancelled

  /** What one iteration meets. It may fail after the mailbox was read, and in the review of a reply. */
  datatype Iteration = Iteration(
    cancelled: bool, external: seq<ExternalMessage>, externalFails: bool, request: CM.Surroundings, model: ModelOutcome,
    reviewFails: bool, accept: bool, decided: ChatMessage, continuation: string, tools: ToolOutcome, ending: Ending)

  datatype TurnScript = TurnScript(text: string, appendUserMessage: bool, now: string, iterations: nat -> Iteration,
                                   ending: Ending)

  /** Why the turn ends in the end. */
  function Finally(reason: StopReason, ending: Ending): StopReason {
    match ending
    case EndsWell => reason
    case EndFails => StreamError
    case EndCancelled => Cancelled
  }

  predicate PlainAssistant(m: ChatMessage) {
    m.role == Assistant && m.toolCalls == []
  }

  ghost predicate DistinctCalls(m: ChatMessage) {
    forall i, j | 0 <= i < j < |m.toolCalls| :: m.toolCalls[i].id != m.toolCalls[j].id
  }

  /** The scheduler returns one result for each call, in the order of the calls. */
  ghost predicate OnePerCall(m: ChatMessage, results: seq<ToolResult>) {
    |results| == |m.toolCalls| && forall k | 0 <= k < |results| :: results[k].toolCallId == m.toolCalls[k].id
  }

  /** What collaborators promise: assistant replies, and one result per call. */
  ghost predicate Behaves(c: LogContext, it: Iteration) {
    && ValidTime(c, it.request.now)
    && PlainAssistant(it.decided)
    && (it.model.Replied? ==> it.model.message.role == Assistant)
    && (it.model.Replied? && it.tools.ToolsRan? ==> OnePerCall(it.model.message, it.tools.results))
  }

  // ---------------------------------------------------------------------------
  // The tool phase
  // ---------------------------------------------------------------------------

  function ResultMessages(results: seq<ToolResult>): History {
    if results == [] then [] else ResultMessages(results[..|results| - 1]) + [ResultMessage(results[|results| - 1])]
  }

  lemma {:induction false} ResultMessagesAt(results: seq<ToolResult>)
    ensures |ResultMessages(results)| == |results|
    ensures forall k | 0 <= k < |results| :: ResultMessages(results)[k] == ResultMessage(results[k])
  {
    if results != [] { ResultMessagesAt(results[..|results| - 1]); }
  }

  ghost predicate NoRepeat<T>(xs: seq<T>) {
    forall i, j | 0 <= i < j < |xs| :: xs[i] != xs[j]
  }

  lemma NoRepeatNext<T>(init: seq<T>, x: T)
    ensures NoRepeat(init + [x]) <==> NoRepeat(init) && x !in init
  {
    var xs := init + [x];
    if NoRepeat(xs) {
      forall i, j | 0 <= i < j < |init| ensures init[i] != init[j] { assert xs[i] != xs[j]; }
      forall i | 0 <= i < |init| ensures init[i] != x { assert xs[i] != xs[|init|]; }
    }
  }

  /** A sequence has as many items as positions exactly when none repeats. */
  lemma {:induction false} CountItems<T>(xs: seq<T>)
    ensures |set x | x in xs| <= |xs|
    ensures |set x | x in xs| == |xs| <==> NoRepeat(xs)
  {
    if xs != [] {
      var init, last := xs[..|xs| - 1], xs[|xs| - 1];
      var items := set x | x in init;
      CountItems(init);
      NoRepeatNext(init, last);
      assert xs == init + [last];
      assert (set x | x in xs) == items + {last};
    }
  }

  function CallIds(calls: seq<ToolCall>): (ids: seq<string>)
    ensures |ids| == |calls| && forall k | 0 <= k < |calls| :: ids[k] == calls[k].id
  {
    seq(|calls|, k requires 0 <= k < |calls| => calls[k].id)
  }

  /** There are as many ids as calls exactly when no id is used twice. */
  lemma CountIds(m: ChatMessage)
    ensures |Ids(m)| <= |m.toolCalls|
    ensures |Ids(m)| == |m.toolCalls| <==> DistinctCalls(m)
  {
    var ids := CallIds(m.toolCalls);
    CountItems(ids);
    assert (set id | id in ids) == Ids(m) by {
      forall id ensures id in ids <==> id in Ids(m) {
        if id in ids {
          var k :| 0 <= k < |ids| && ids[k] == id;
          assert m.toolCalls[k] in m.toolCalls;
        }
        if id in Ids(m) {
          var call :| call in m.toolCalls && call.id == id;
          var k :| 0 <= k < |m.toolCalls| && m.toolCalls[k] == call;
          assert ids[k] == id;
        }
      }
    }
    if NoRepeat(ids) {
      forall i, j | 0 <= i < j < |m.toolCalls| ensures m.toolCalls[i].id != m.toolCalls[j].id {
        assert ids[i] != ids[j];
      }
    }
  }

  /** A finished tool phase is a protocol unit exactly when the model used no call id twice. */
  lemma ToolRoundIsSafe(good: History, m: ChatMessage, results: seq<ToolResult>)
    requires Safe(good) && HasCalls(m) && OnePerCall(m, results)
    ensures Safe(good + [m] + ResultMessages(results)) <==> DistinctCalls(m)
  {
    var messages := ResultMessages(results);
    var round := [m] + messages;
    ResultMessagesAt(results);
    CountIds(m);
    assert good + [m] + messages == good + round;
    SafeAppend(good, round);
    forall k | 0 <= k < |messages| ensures Answers(messages[k], Ids(m)) {
      assert m.toolCalls[k] in m.toolCalls;
    }
    if DistinctCalls(m) {
      FullGroupIsSafe(m, messages);
    } else {
      TooManyResults(m, messages);
    }
  }

  lemma TooManyResults(m: ChatMessage, messages: History)
    requires HasCalls(m) && |messages| > |Ids(m)| && forall k | 0 <= k < |messages| :: messages[k].role == Tool
    ensures !Safe([m] + messages)
  {
    var round := [m] + messages;
    if Unit(round) > 0 {
      var rest := round[Unit(round)..];
      assert rest[0] == messages[|Ids(m)|];
    }
  }

  // ---------------------------------------------------------------------------
  // What happens to the session
  // ---------------------------------------------------------------------------

  /** The session has gone from `s` to `v` by `ops`, which answer no call made before. */
  ghost predicate Proceeds(c: LogContext, s: SessionState, v: SessionState, ops: seq<SessionOp>) {
    AllAllowed(c, s, ops) && Run(c, s, ops) == v && StartsAfresh(ops)
  }

  lemma NothingProceeds(c: LogContext, s: SessionState)
    ensures Proceeds(c, s, s, [])
  {
  }

  lemma ProceedsOn(c: LogContext, s: SessionState, v: SessionState, w: SessionState, a: seq<SessionOp>,
                   b: seq<SessionOp>)
    requires Proceeds(c, s, v, a) && Proceeds(c, v, w, b)
    ensures Proceeds(c, s, w, a + b)
  {
    RunsCompose(c, s, a, b);
    AppendedJoins(a, b);
  }

  lemma AppendProceeds(c: LogContext, s: SessionState, m: ChatMessage, now: string)
    requires m.role != Tool && ValidTime(c, now)
    ensures Proceeds(c, s, After(c, s, Append(m, now)), [Append(m, now)])
    ensures !HasCalls(m) && Safe(s.messages) ==> Safe(s.messages + [m])
  {
    RunOfOne(c, s, Append(m, now));
    if !HasCalls(m) && Safe(s.messages) {
      PlainMessageIsSafe(m);
      SafeAppend(s.messages, [m]);
    }
  }

  /** The user's text. */
  method SayAsUser(session: ChatSession, text: string, metadata: Option<map<string, Json>>, now: string)
      returns (ghost ops: seq<SessionOp>)
    requires ValidTime(session.context, now)
    modifies session`messages, session`log
    ensures Proceeds(session.context, old(session.State()), session.State(), ops)
    ensures |session.messages| == |old(session.messages)| + 1
        && (Safe(old(session.messages)) ==> Safe(session.messages))
  {
    ghost var s := session.State();
    var m := session.AppendUserMessage(text, metadata, now);
    AppendProceeds(session.context, s, m, now);
    ops := [Append(m, now)];
  }

  /** An assistant's message without calls. */
  method SayAsAssistant(session: ChatSession, m: ChatMessage, now: string) returns (ghost ops: seq<SessionOp>)
    requires PlainAssistant(m) && ValidTime(session.context, now)
    modifies session`messages, session`log
    ensures Proceeds(session.context, old(session.State()), session.State(), ops)
    ensures session.messages == old(session.messages) + [m] && (Safe(old(session.messages)) ==> Safe(session.messages))
  {
    AppendProceeds(session.context, session.State(), m, now);
    var accepted := session.AppendAssistantMessage(m, now);
    ops := [Append(m, now)];
  }

  method AppendAll(session: ChatSession, messages: seq<ExternalMessage>, now: string)
      returns (ghost ops: seq<SessionOp>)
    requires ValidTime(session.context, now)
    modifies session`messages, session`log
    ensures Proceeds(session.context, old(session.State()), session.State(), ops)
    ensures |session.messages| == |old(session.messages)| + |messages|
        && (Safe(old(session.messages)) ==> Safe(session.messages))
  {
    ops := [];
    ghost var s := session.State();
    NothingProceeds(session.context, s);
    for k := 0 to |messages|
      invariant Proceeds(session.context, s, session.State(), ops)
      invariant |session.messages| == |s.messages| + k && (Safe(s.messages) ==> Safe(session.messages))
    {
      ghost var v := session.State();
      ghost var more := SayAsUser(session, messages[k].text, Some(messages[k].metadata), now);
      ProceedsOn(session.context, s, v, session.State(), ops, more);
      ops := ops + more;
    }
  }

  function StopMessage(c: AgentConfig, reason: StopReason): ChatMessage {
    ChatMessage(Assistant, c.stopText(reason), None, [], None, false, None, None)
  }

  method AppendStop(c: AgentConfig, session: ChatSession, reason: StopReason, now: string)
      returns (ghost ops: seq<SessionOp>)
    requires ValidTime(session.context, now)
    modifies session`messages, session`log
    ensures Proceeds(session.context, old(session.State()), session.State(), ops)
    ensures session.messages == old(session.messages) + [StopMessage(c, reason)]
    ensures Safe(old(session.messages)) ==> Safe(session.messages)
  {
    ops := SayAsAssistant(session, StopMessage(c, reason), now);
  }

  method AppendResults(session: ChatSession, results: seq<ToolResult>, now: string) returns (ghost ops: seq<SessionOp>)
    requires ValidTime(session.context, now)
    modifies session`messages, session`log
    ensures AllAllowed(session.context, old(session.State()), ops)
    ensures Run(session.context, old(session.State()), ops) == session.State()
    ensures session.messages == old(session.messages) + ResultMessages(results)
  {
    ops := [];
    ghost var s := session.State();
    for k := 0 to |results|
      invariant AllAllowed(session.context, s, ops) && Run(session.context, s, ops) == session.State()
      invariant session.messages == s.messages + ResultMessages(results[..k])
    {
      ghost var op := Append(ResultMessage(results[k]), now);
      RunOfOne(session.context, session.State(), op);
      RunsCompose(session.context, s, ops, [op]);
      session.AppendToolResult(results[k], now);
      ops := ops + [op];
      assert results[..k + 1][..k] == results[..k];
    }
    assert results[..|results|] == results;
  }

  // ---------------------------------------------------------------------------
  // The turn
  // ---------------------------------------------------------------------------

  /** Why an iteration ended the turn, or that it did not. */
  datatype Outcome = GoesOn(toolsRan: bool) | Stops(reason: StopReason, inTools: bool)

  /** What becomes of a session `s` that was safe, when the turn goes on or stops. */
  ghost predicate Leaves(outcome: Outcome, s: History, v: History) {
    && (Safe(s) ==>
          if outcome.Stops? && outcome.inTools then Dangling(v) && outcome.reason in {Cancelled, StreamError}
          else Safe(v))
    && (outcome == Stops(Completed, false) ==> v != [] && PlainAssistant(v[|v| - 1]))
  }

  method PrepareIteration(c: AgentConfig, session: ChatSession, it: Iteration)
      returns (limited: bool, ghost ops: seq<SessionOp>)
    requires Recognises(c.context.compaction) && c.context.compaction.isExternal == session.context.isExternal
    requires ValidTime(session.context, it.request.now)
    modifies session
    ensures Proceeds(session.context, old(session.State()), session.State(), ops)
    ensures Safe(old(session.messages)) ==> Safe(session.messages)
  {
    ghost var before := CM.Counted(session.State(), session.consecutiveSummaryFailures);
    ghost var paths := session.compactedToolPaths;
    var reply, refs;
    ghost var older, recent;
    reply, refs, older, recent := CM.PrepareRequest(c.context, session, false, it.request);
    ops := [];
    NothingProceeds(session.context, before.state);
    if c.context.enabled {
      ghost var after := CM.Counted(session.State(), session.consecutiveSummaryFailures);
      CM.PreparingKeepsProtocol(c.context, session.context, CM.InputBudget(c.context, false), it.request, before, refs,
                                paths + Paths(refs) + Paths(refs), older, recent, reply, after);
      ops := CM.PreparingIsARun(c.context, session.context, CM.InputBudget(c.context, false), it.request, before, refs,
                                paths + Paths(refs) + Paths(refs), older, recent, reply, after);
    }
    limited := reply.r.Err?;
  }

  /** Whether some call names a tool that does not exist. */
  predicate HasUnknownTool(c: AgentConfig, calls: seq<ToolCall>) {
    exists k :: 0 <= k < |calls| && calls[k].name !in c.knownTools
  }

  /** A reply without calls ends the turn, unless the controller asks for more work. */
  method Finish(session: ChatSession, it: Iteration) returns (outcome: Outcome, ghost ops: seq<SessionOp>)
    requires Behaves(session.context, it)
    modifies session`messages, session`log
    ensures outcome ==
        if it.reviewFails then Stops(StreamError, false)
        else if it.accept then Stops(Finally(Completed, it.ending), false) else GoesOn(false)
    ensures Proceeds(session.context, old(session.State()), session.State(), ops)
    ensures Leaves(outcome, old(session.messages), session.messages)
  {
    ghost var s := session.State();
    NothingProceeds(session.context, s);
    if it.reviewFails { return Stops(StreamError, false), []; }
    ops := SayAsAssistant(session, it.decided, it.request.now);
    if it.accept { return Stops(Finally(Completed, it.ending), false), ops; }
    ghost var v := session.State();
    ghost var more := SayAsUser(session, it.continuation, Some(map["julycode_generated" := Bool(true)]),
                                it.request.now);
    ProceedsOn(session.context, s, v, session.State(), ops, more);
    return GoesOn(false), ops + more;
  }

  /** A reply with calls is appended, and so are the results of all its calls unless the tools are cut off. */
  method RunTools(session: ChatSession, message: ChatMessage, it: Iteration)
      returns (outcome: Outcome, ghost ops: seq<SessionOp>)
    requires Behaves(session.context, it)
    requires it.model.Replied? && message == it.model.message && HasCalls(message) && DistinctCalls(message)
    modifies session`messages, session`log
    ensures Proceeds(session.context, old(session.State()), session.State(), ops)
    ensures Leaves(outcome, old(session.messages), session.messages)
    ensures outcome.GoesOn? <==> it.tools.ToolsRan?
    ensures session.messages == old(session.messages) + [message] + if it.tools.ToolsRan?
        then ResultMessages(it.tools.results) else []
  {
    ghost var s := session.State();
    AppendProceeds(session.context, s, message, it.request.now);
    var accepted := session.AppendAssistantMessage(message, it.request.now);
    ops := [Append(message, it.request.now)];
    assert session.messages[..|session.messages| - 1] == s.messages;
    match it.tools
    case ToolsCancelled => return Stops(Cancelled, true), ops;
    case ToolsFail => return Stops(StreamError, true), ops;
    case ToolsRan(results) =>
      ghost var more := AppendResults(session, results, it.request.now);
      RunsCompose(session.context, s, ops, more);
      AppendedJoins(ops, more);
      if Safe(s.messages) { ToolRoundIsSafe(s.messages, message, results); }
      return GoesOn(true), ops + more;
  }

  /** What the model's reply, or its absence, leads to. */
  method Respond(c: AgentConfig, session: ChatSession, iteration: int, previousUnknownTool: bool, it: Iteration)
      returns (outcome: Outcome, ghost ops: seq<SessionOp>)
    requires Behaves(session.context, it) && (it.model.Replied? ==> DistinctCalls(it.model.message))
    modifies session
    ensures Proceeds(session.context, old(session.State()), session.State(), ops)
    ensures Leaves(outcome, old(session.messages), session.messages)
    ensures outcome == GoesOn(true) ==> iteration < c.maxIterations
  {
    ops := [];
    NothingProceeds(session.context, session.State());
    match it.model
    case ModelCancelled => return Stops(Cancelled, false), ops;
    case ModelFails => return Stops(StreamError, false), ops;
    case Replied(message, thenCancelled) =>
      if thenCancelled { return Stops(Cancelled, false), ops; }
      if message.toolCalls == [] {
        outcome, ops := Finish(session, it);
        return;
      }
      if iteration >= c.maxIterations {
        ops := AppendStop(c, session, IterationLimit, it.request.now);
        return Stops(Finally(IterationLimit, it.ending), false), ops;
      }
      if previousUnknownTool && HasUnknownTool(c, message.toolCalls) {
        ops := AppendStop(c, session, UnknownToolLimit, it.request.now);
        return Stops(Finally(UnknownToolLimit, it.ending), false), ops;
      }
      outcome, ops := RunTools(session, message, it);
  }

  /** One pass through the loop body. */
  method RunIteration(c: AgentConfig, session: ChatSession, iteration: int, previousUnknownTool: bool, it: Iteration)
      returns (outcome: Outcome, ghost ops: seq<SessionOp>)
    requires Recognises(c.context.compaction) && c.context.compaction.isExternal == session.context.isExternal
    requires Behaves(session.context, it) && (it.model.Replied? ==> DistinctCalls(it.model.message))
    modifies session
    ensures Proceeds(session.context, old(session.State()), session.State(), ops)
    ensures Leaves(outcome, old(session.messages), session.messages)
    ensures outcome == GoesOn(true) ==> iteration < c.maxIterations
  {
    ghost var s := session.State();
    ops := [];
    NothingProceeds(session.context, s);
    if it.cancelled { return Stops(Cancelled, false), ops; }
    ops := AppendAll(session, it.external, it.request.now);
    if it.externalFails { return Stops(StreamError, false), ops; }
    ghost var v := session.State();
    var limited;
    ghost var more;
    limited, more := PrepareIteration(c, session, it);
    ProceedsOn(session.context, s, v, session.State(), ops, more);
    ops := ops + more;
    v := session.State();
    if limited {
      more := AppendStop(c, session, ContextLimit, it.request.now);
      outcome := Stops(ContextLimit, false);
    } else {
      outcome, more := Respond(c, session, iteration, previousUnknownTool, it);
    }
    ProceedsOn(session.context, s, v, session.State(), ops, more);
    ops := ops + more;
  }

  predicate AnyUnknown(results: seq<ToolResult>) {
    exists k :: 0 <= k < |results| && results[k].unknownTool
  }

  /**
   One turn, from whatever session it finds. A safe session stays safe, except when the turn is cut
   off in its tool phase; then it is safe but for one last message with unanswered calls. Tools run
   in fewer iterations than the limit. All that happens to the session is a run of its operations.
   */
  method RunTurn(c: AgentConfig, session: ChatSession, script: TurnScript)
      returns (reason: StopReason, ghost inTools: bool, ghost rounds: nat, ghost ops: seq<SessionOp>)
    requires Recognises(c.context.compaction) && c.context.compaction.isExternal == session.context.isExternal
    requires ValidTime(session.context, script.now)
    requires forall n: nat :: Behaves(session.context, script.iterations(n))
    requires forall n: nat :: script.iterations(n).model.Replied? ==> DistinctCalls(script.iterations(n).model.message)
    modifies session
    ensures Proceeds(session.context, old(session.State()), session.State(), ops)
    ensures Leaves(Stops(reason, inTools), old(session.messages), session.messages)
    ensures Replayable(session.context, old(session.State())) ==> Replayable(session.context, session.State())
    ensures rounds == 0 || rounds < c.maxIterations
  {
    ghost var s := session.State();
    reason, inTools, rounds, ops := RunLoop(c, session, script);
    if Replayable(session.context, s) { EveryRunReplays(session.context, s, ops); }
  }

  method RunLoop(c: AgentConfig, session: ChatSession, script: TurnScript)
      returns (reason: StopReason, ghost inTools: bool, ghost rounds: nat, ghost ops: seq<SessionOp>)
    requires Recognises(c.context.compaction) && c.context.compaction.isExternal == session.context.isExternal
    requires ValidTime(session.context, script.now)
    requires forall n: nat :: Behaves(session.context, script.iterations(n))
    requires forall n: nat :: script.iterations(n).model.Replied? ==> DistinctCalls(script.iterations(n).model.message)
    modifies session
    ensures Proceeds(session.context, old(session.State()), session.State(), ops)
    ensures Leaves(Stops(reason, inTools), old(session.messages), session.messages)
    ensures rounds == 0 || rounds < c.maxIterations
  {
    ghost var s := session.State();
    rounds, ops := 0, [];
    NothingProceeds(session.context, s);
    if script.appendUserMessage { ops := SayAsUser(session, script.text, None, script.now); }
    var previousUnknownTool := false;
    var iteration := 1;
    while iteration <= c.maxIterations
      invariant iteration >= 1 && Proceeds(session.context, s, session.State(), ops)
      invariant Safe(s.messages) ==> Safe(session.messages)
      invariant rounds < iteration && (rounds == 0 || rounds < c.maxIterations)
    {
      var it := script.iterations(iteration);
      ghost var v := session.State();
      var outcome;
      ghost var more;
      outcome, more := RunIteration(c, session, iteration, previousUnknownTool, it);
      ProceedsOn(session.context, s, v, session.State(), ops, more);
      ops := ops + more;
      match outcome {
        case Stops(why, tools) =>
          reason, inTools := why, tools;
          return;
        case GoesOn(toolsRan) =>
          if toolsRan {
            previousUnknownTool := it.tools.ToolsRan? && AnyUnknown(it.tools.results);
            rounds := rounds + 1;
          }
      }
      iteration := iteration + 1;
    }
    ghost var v := session.State();
    ghost var more := AppendStop(c, session, IterationLimit, script.now);
    ProceedsOn(session.context, s, v, session.State(), ops, more);
    reason, inTools, ops := Finally(IterationLimit, script.ending), false, ops + more;
  }

  // ---------------------------------------------------------------------------
  // After a turn that was cut off
  // ---------------------------------------------------------------------------

  /** Restoring the session or forking it keeps exactly what comes before the last message, which is safe. */
  lemma CutOffTurnIsRepaired(ms: History)
    requires Dangling(ms)
    ensures ForkLength(ms) == SafeLength(ms) == |ms| - 1
  {
    var good, m := DanglingSplit(ms);
    RepairsDropTheDanglingCall(good, m);
  }

  /**
   The next turn of the same process leaves the session unsafe, and a restart would keep none of
   it, unless a heavy compaction happens in it.
   */
  lemma NextTurnIsLost(c: LogContext, s: SessionState, v: SessionState, ops: seq<SessionOp>)
    requires Replayable(c, s) && Dangling(s.messages) && Proceeds(c, s, v, ops) && !AnyHeavy(ops)
    ensures !Safe(v.messages) && |Restored(c, v.log).messages| == |s.messages| - 1
  {
    LaterTurnsAreLost(c, s, ops);
  }
}
