/**
 Preparing a request (`ContextManager`): a light compaction, a summary when that is not enough,
 and optional context in the room that is left. Every request it hands out fits the budget.
 */
module ContextManager {
  import opened Wrappers
  import opened ChatHistory
  import opened SessionStore
  import opened Session
  import opened Segmenter
  import opened Compactor

  datatype PromptBundle = PromptBundle(stableBlocks: seq<string>, generatedContextBlocks: seq<string>)

  /** `footprint` is the token estimate of a whole request, its anchor and its tools being fixed. */
  datatype ContextConfig = ContextConfig(
    enabled: bool, windowTokens: int, maxOutputTokens: int, autoReserveTokens: int, manualReserveTokens: int,
    recentTokens: int, minRecentMessages: int, summaryFailureLimit: int, boundaryNotice: string,
    compaction: CompactionConfig, footprint: (History, PromptBundle) -> int)

  datatype SummaryOutcome = Written(content: string) | SummaryError

  /** What is asked for optional context, call by call: the blocks for a grant, or nothing when it raises. */
  type OptionalContextFactory = (nat, int) -> Option<seq<string>>

  /** What the request depends on besides the session: the prompt, call by call, the model and the clock. */
  datatype Surroundings = Surroundings(
    prompts: nat -> PromptBundle, summarize: (History, seq<string>) -> SummaryOutcome,
    optional: Option<OptionalContextFactory>, optionalMaxTokens: int, now: string)

  datatype PreparedRequest = PreparedRequest(messages: History, prompt: PromptBundle, estimatedTokens: int)

  datatype Refusal = NothingToSummarise | SummaryKeepsFailing | SummaryFailed | StillOverBudget

  function Max(a: int, b: int): int {
    if a >= b then a else b
  }

  function Min(a: int, b: int): int {
    if a <= b then a else b
  }

  function InputBudget(c: ContextConfig, manual: bool): (budget: int)
    ensures budget >= 1
  {
    Max(1, c.windowTokens - c.maxOutputTokens - if manual then c.manualReserveTokens else c.autoReserveTokens)
  }

  // ---------------------------------------------------------------------------
  // Optional context
  // ---------------------------------------------------------------------------

  function WithBlocks(prompt: PromptBundle, more: seq<string>): PromptBundle {
    prompt.(generatedContextBlocks := prompt.generatedContextBlocks + more)
  }

  /** What the factory gave for a grant; a raised error counts as nothing. */
  function Answer(env: Surroundings, call: nat, grant: int): seq<string> {
    if env.optional.None? then [] else env.optional.value(call, grant).GetOr([])
  }

  /** Asked at most twice, each time for what there is room for, the second time for strictly less. */
  ghost predicate FairGrants(env: Surroundings, room: int, grants: seq<int>) {
    && |grants| <= 2
    && (grants != [] <==> env.optional.Some? && env.optionalMaxTokens > 0 && room > 0)
    && (forall i | 0 <= i < |grants| :: 0 < grants[i] <= env.optionalMaxTokens && grants[i] <= room)
    && (|grants| == 2 ==> grants[1] < grants[0] && Answer(env, 0, grants[0]) != [])
  }

  /** The answer to call `i` would have fitted on top of the base prompt. */
  predicate Usable(c: ContextConfig, messages: History, base: PromptBundle, budget: int, env: Surroundings,
                   grants: seq<int>, i: nat)
    requires i < |grants|
  {
    Answer(env, i, grants[i]) != [] && c.footprint(messages, WithBlocks(base, Answer(env, i, grants[i]))) <= budget
  }

  /**
   The prompt is the base prompt with the first usable answer behind its own blocks, or as it was
   when none is usable.
   */
  ghost predicate TakesUsable(c: ContextConfig, messages: History, base: PromptBundle, prompt: PromptBundle,
                              budget: int, env: Surroundings, grants: seq<int>)
  {
    if exists i :: 0 <= i < |grants| && Usable(c, messages, base, budget, env, grants, i) then
      && Usable(c, messages, base, budget, env, grants, |grants| - 1)
      && prompt == WithBlocks(base, Answer(env, |grants| - 1, grants[|grants| - 1]))
      && (forall i | 0 <= i < |grants| - 1 :: !Usable(c, messages, base, budget, env, grants, i))
    else prompt == base
  }

  /** The request carries the session's messages, its true estimate, and optional context only where it fits. */
  ghost predicate BuiltOn(c: ContextConfig, messages: History, base: PromptBundle, budget: int, env: Surroundings,
                          r: PreparedRequest, grants: seq<int>)
  {
    && r.messages == messages && r.estimatedTokens == c.footprint(messages, r.prompt)
    && TakesUsable(c, messages, base, r.prompt, budget, env, grants)
    && FairGrants(env, budget - c.footprint(messages, base), grants)
  }

  method WithOptionalContext(c: ContextConfig, messages: History, prompt: PromptBundle, footprint: int, budget: int,
                             env: Surroundings)
      returns (r: PreparedRequest, grants: seq<int>)
    requires footprint == c.footprint(messages, prompt)
    ensures BuiltOn(c, messages, prompt, budget, env, r, grants)
    ensures r.prompt != prompt || footprint <= budget ==> r.estimatedTokens <= budget
  {
    var plain := PreparedRequest(messages, prompt, footprint);
    grants := [];
    if env.optional.None? || env.optionalMaxTokens <= 0 || footprint >= budget { return plain, grants; }
    var granted := Min(env.optionalMaxTokens, budget - footprint);
    grants := [granted];
    var blocks := Answer(env, 0, granted);
    if blocks == [] { return plain, grants; }
    var combined := WithBlocks(prompt, blocks);
    var combinedFootprint := c.footprint(messages, combined);
    assert combinedFootprint <= budget <==> Usable(c, messages, prompt, budget, env, grants, 0);
    if combinedFootprint <= budget { return PreparedRequest(messages, combined, combinedFootprint), grants; }

    var retryBudget := Max(0, granted - (combinedFootprint - budget));
    if 0 < retryBudget < granted {
      grants := [granted, retryBudget];
      assert !Usable(c, messages, prompt, budget, env, grants, 0);
      var retryBlocks := Answer(env, 1, retryBudget);
      if retryBlocks != [] {
        var retried := WithBlocks(prompt, retryBlocks);
        var retriedFootprint := c.footprint(messages, retried);
        assert retriedFootprint <= budget <==> Usable(c, messages, prompt, budget, env, grants, 1);
        if retriedFootprint <= budget { return PreparedRequest(messages, retried, retriedFootprint), grants; }
      }
    }
    return plain, grants;
  }

  // ---------------------------------------------------------------------------
  // Heavy compaction
  // ---------------------------------------------------------------------------

  /** `recent` is the shortest run of latest segments that meets both minimums, or everything. */
  ghost predicate RecentCut(c: ContextConfig, ms: History, segments: seq<ConversationSegment>, k: nat, older: History,
                            recent: History) {
    && k <= |segments| && Segmentation(ms, segments, c.compaction.estimate)
    && older == Flatten(segments[..k]) && recent == Flatten(segments[k..])
    && (k > 0 ==> Enough(segments[k..], c.recentTokens, c.minRecentMessages))
    && (forall j | k < j <= |segments| :: !Enough(segments[j..], c.recentTokens, c.minRecentMessages))
  }

  /** The history is cut in two; on a safe history both parts are safe. */
  ghost predicate Cut(c: ContextConfig, ms: History, older: History, recent: History) {
    exists segments, k: nat :: RecentCut(c, ms, segments, k, older, recent)
  }

  lemma CutIsSafe(c: ContextConfig, ms: History, older: History, recent: History)
    requires Cut(c, ms, older, recent)
    ensures older + recent == ms
    ensures Safe(ms) ==> Safe(older) && Safe(recent)
  {
    var segments, k: nat :| RecentCut(c, ms, segments, k, older, recent);
    SplitIsPartition(ms, segments, c.compaction.estimate);
    FlattenAppend(segments[..k], segments[k..]);
    assert segments == segments[..k] + segments[k..];
    if Safe(ms) { CutsAreSafe(ms, segments, c.compaction.estimate, segments[..k], segments[k..]); }
  }

  /**
   In a session that went on after a turn was cut off, a heavy compaction leaves a safe history
   exactly when it summarises the unanswered call away.
   */
  lemma SummarisingRepairsIff(c: ContextConfig, ms: History, older: History, recent: History, good: History,
                              m: ChatMessage, later: History)
    requires Cut(c, ms, older, recent) && CallBetween(ms, good, m, later)
    ensures Safe(recent) <==> |older| > |good|
  {
    var segments, k: nat :| RecentCut(c, ms, segments, k, older, recent);
    CutBehindTheCall(ms, segments, c.compaction.estimate, k, good, m, later);
  }

  method CutHistory(c: ContextConfig, ms: History) returns (older: History, recent: History)
    ensures Cut(c, ms, older, recent)
    ensures older == [] <==> |recent| == |ms|
  {
    var segments := Split(ms, c.compaction.estimate);
    var summarized, rest := SelectRecent(segments, c.recentTokens, c.minRecentMessages);
    older, recent := Flatten(summarized), Flatten(rest);
    assert summarized == segments[..|summarized|] && rest == segments[|summarized|..];
    assert RecentCut(c, ms, segments, |summarized|, older, recent);
    CutIsSafe(c, ms, older, recent);
  }

  function Summary(c: ContextConfig, content: string, older: History, recent: History,
                   paths: seq<string>): ContextSummary {
    ContextSummary(content, c.boundaryNotice, "runtime", |older|, |recent|, paths)
  }

  /** `_summarize_segments`: on success the recent part replaces the history and a checkpoint is written. */
  method SummarizeSegments(c: ContextConfig, session: ChatSession, older: History, recent: History, paths: seq<string>,
                           env: Surroundings)
      returns (written: bool)
    requires ValidTime(session.context, env.now)
    modifies session
    ensures written <==> env.summarize(older, paths).Written?
    ensures session.compactedToolPaths == old(session.compactedToolPaths)
    ensures !written ==> session.State() == old(session.State())
    ensures !written ==> session.consecutiveSummaryFailures == old(session.consecutiveSummaryFailures)
    ensures written ==>
        session.State() == After(session.context, old(session.State()),
                                 HeavyCompact(recent,
                                              Summary(c, env.summarize(older, paths).content, older, recent, paths),
                                              env.now))
    ensures written ==> session.consecutiveSummaryFailures == 0
  {
    var outcome := env.summarize(older, paths);
    if outcome.SummaryError? { return false; }
    session.ReplaceMessages(recent);
    session.summary := Some(Summary(c, outcome.content, older, recent, paths));
    session.consecutiveSummaryFailures := 0;
    session.AppendCheckpoint(env.now);
    return true;
  }

  // ---------------------------------------------------------------------------
  // One request
  // ---------------------------------------------------------------------------

  datatype Counted = Counted(state: SessionState, failures: nat)

  datatype Reply = Reply(r: Result<PreparedRequest, Refusal>, grants: seq<int>)

  ghost predicate Refuses(answer: Reply, why: Refusal) {
    answer == Reply(Err(why), [])
  }

  /** A request is built on `base`, and it fits the budget. */
  ghost predicate Grants(c: ContextConfig, messages: History, base: PromptBundle, budget: int, env: Surroundings,
                         answer: Reply) {
    && answer.r.Ok? && answer.r.value.estimatedTokens <= budget
    && BuiltOn(c, messages, base, budget, env, answer.r.value, answer.grants)
  }

  /** The answer and the session once the light compaction has left `light`. */
  ghost predicate Prepares(c: ContextConfig, log: LogContext, budget: int, env: Surroundings, before: Counted,
                           light: History, paths: seq<string>, older: History, recent: History, answer: Reply,
                           after: Counted)
  {
    var lightly := before.state.(messages := light);
    if c.footprint(light, env.prompts(1)) <= budget then
      Grants(c, light, env.prompts(1), budget, env, answer) && after == Counted(lightly, before.failures)
    else
      && Cut(c, light, older, recent)
      && if older == [] then
           Refuses(answer, NothingToSummarise) && after == Counted(lightly, before.failures)
         else match env.summarize(older, paths)
           case SummaryError =>
             && Refuses(answer, if before.failures + 1 >= c.summaryFailureLimit then SummaryKeepsFailing
                        else SummaryFailed)
             && after == Counted(lightly, before.failures + 1)
           case Written(content) =>
             && after == Counted(After(log, lightly,
                                       HeavyCompact(recent, Summary(c, content, older, recent, paths), env.now)), 0)
             && (if c.footprint(recent, env.prompts(2)) <= budget
                 then Grants(c, recent, env.prompts(2), budget, env, answer)
                 else Refuses(answer, StillOverBudget))
  }

  /** `prepare_request` */
  method PrepareRequest(c: ContextConfig, session: ChatSession, manual: bool, env: Surroundings)
      returns (answer: Reply, refs: seq<ExternalRef>, ghost older: History, ghost recent: History)
    requires Recognises(c.compaction) && ValidTime(session.context, env.now)
    modifies session
    ensures !c.enabled ==>
        answer.r.Ok? && BuiltOn(c, session.messages, env.prompts(0), InputBudget(c, manual), env, answer.r.value,
                                answer.grants)
    ensures !c.enabled ==> session.State() == old(session.State()) && refs == []
    ensures c.enabled ==> LeastCompaction(c.compaction, old(session.messages), Moved(refs))
    ensures c.enabled ==>
        Prepares(c, session.context, InputBudget(c, manual), env,
                 old(Counted(session.State(), session.consecutiveSummaryFailures)),
                 Compacted(c.compaction, old(session.messages), refs),
                 old(session.compactedToolPaths) + Paths(refs) + Paths(refs),
                 older, recent, answer, Counted(session.State(), session.consecutiveSummaryFailures))
  {
    refs, older, recent := [], [], [];
    var budget := InputBudget(c, manual);
    var request, grants;
    if !c.enabled {
      request, grants := WithOptionalContext(c, session.messages, env.prompts(0),
                                             c.footprint(session.messages, env.prompts(0)), budget, env);
      return Reply(Ok(request), grants), refs, older, recent;
    }
    var changed;
    changed, refs := Compact(c.compaction, session);
    var prompt := env.prompts(1);
    var footprint := c.footprint(session.messages, prompt);
    if footprint <= budget {
      request, grants := WithOptionalContext(c, session.messages, prompt, footprint, budget, env);
      return Reply(Ok(request), grants), refs, older, recent;
    }
    var summarized, kept := CutHistory(c, session.messages);
    older, recent := summarized, kept;
    if summarized == [] { return Reply(Err(NothingToSummarise), []), refs, older, recent; }
    var written := SummarizeSegments(c, session, summarized, kept, session.compactedToolPaths + Paths(refs), env);
    if !written {
      session.consecutiveSummaryFailures := session.consecutiveSummaryFailures + 1;
      if session.consecutiveSummaryFailures >= c.summaryFailureLimit {
        return Reply(Err(SummaryKeepsFailing), []), refs, older, recent;
      }
      if footprint > budget { return Reply(Err(SummaryFailed), []), refs, older, recent; }
      // No request is ever built here: the footprint was over the budget on the way here.
      assert false;
    }
    prompt := env.prompts(2);
    footprint := c.footprint(session.messages, prompt);
    if footprint > budget { return Reply(Err(StillOverBudget), []), refs, older, recent; }
    request, grants := WithOptionalContext(c, session.messages, prompt, footprint, budget, env);
    return Reply(Ok(request), grants), refs, older, recent;
  }

  /** `manual_compact`: no budget is checked, and a short history is not an error. */
  method ManualCompact(c: ContextConfig, session: ChatSession, env: Surroundings)
      returns (heavy: bool, refused: bool, refs: seq<ExternalRef>, ghost older: History, ghost recent: History)
    requires Recognises(c.compaction) && ValidTime(session.context, env.now)
    modifies session
    ensures !c.enabled ==> session.State() == old(session.State()) && refs == [] && !heavy && !refused
    ensures c.enabled ==> LeastCompaction(c.compaction, old(session.messages), Moved(refs))
    ensures c.enabled ==>
        Summarises(c, session.context, env, old(Counted(session.State(), session.consecutiveSummaryFailures)),
                   Compacted(c.compaction, old(session.messages), refs),
                   old(session.compactedToolPaths) + Paths(refs) + Paths(refs),
                   older, recent, heavy, refused, Counted(session.State(), session.consecutiveSummaryFailures))
  {
    heavy, refused, refs, older, recent := false, false, [], [], [];
    if !c.enabled { return; }
    var changed;
    changed, refs := Compact(c.compaction, session);
    var summarized, kept := CutHistory(c, session.messages);
    older, recent := summarized, kept;
    if summarized == [] { return; }
    heavy := SummarizeSegments(c, session, summarized, kept, session.compactedToolPaths + Paths(refs), env);
    if !heavy {
      session.consecutiveSummaryFailures := session.consecutiveSummaryFailures + 1;
      refused := session.consecutiveSummaryFailures >= c.summaryFailureLimit;
    }
  }

  ghost predicate Summarises(c: ContextConfig, log: LogContext, env: Surroundings, before: Counted, light: History,
                             paths: seq<string>, older: History, recent: History, heavy: bool, refused: bool,
                             after: Counted)
  {
    var lightly := before.state.(messages := light);
    && Cut(c, light, older, recent)
    && if older == [] then
         !heavy && !refused && after == Counted(lightly, before.failures)
       else match env.summarize(older, paths)
         case SummaryError =>
           !heavy && (refused <==> before.failures + 1 >= c.summaryFailureLimit)
             && after == Counted(lightly, before.failures + 1)
         case Written(content) =>
           && heavy && !refused
           && after == Counted(After(log, lightly,
                                     HeavyCompact(recent, Summary(c, content, older, recent, paths), env.now)), 0)
  }

  // ---------------------------------------------------------------------------
  // What preparing a request keeps
  // ---------------------------------------------------------------------------

  /** The summary accounts for `n` messages, summarised or kept. */
  predicate CountsAll(summary: Option<ContextSummary>, n: nat) {
    summary.Some? && summary.value.sourceMessageCount + summary.value.keptMessageCount == n
  }

  /**
   Whatever comes of it, a prepared request leaves a safe history safe and the session log able
   to rebuild the session, and a summary accounts for every message.
   */
  lemma PreparingKeepsProtocol(c: ContextConfig, log: LogContext, budget: int, env: Surroundings, before: Counted,
                               refs: seq<ExternalRef>, paths: seq<string>, older: History, recent: History,
                               answer: Reply, after: Counted)
    requires Recognises(c.compaction) && c.compaction.isExternal == log.isExternal && ValidTime(log, env.now)
    requires LeastCompaction(c.compaction, before.state.messages, Moved(refs))
    requires Prepares(c, log, budget, env, before, Compacted(c.compaction, before.state.messages, refs), paths, older,
                      recent, answer, after)
    ensures Safe(before.state.messages) ==> Safe(after.state.messages)
    ensures Replayable(log, before.state) ==> Replayable(log, after.state)
    ensures answer.r.Ok? ==> answer.r.value.estimatedTokens <= budget && answer.r.value.messages == after.state.messages
    ensures after.state.summary != before.state.summary ==> CountsAll(after.state.summary, |before.state.messages|)
    ensures after.failures > before.failures ==> answer.r.Err?
  {
    var light := Compacted(c.compaction, before.state.messages, refs);
    var lightly := After(log, before.state, LightCompact(light));
    CompactionKeepsProtocol(c.compaction, log, before.state.messages, refs);
    if Replayable(log, before.state) { OpKeepsReplayable(log, before.state, LightCompact(light)); }
    if c.footprint(light, env.prompts(1)) > budget {
      CutIsSafe(c, light, older, recent);
      if older != [] && env.summarize(older, paths).Written? {
        var op := HeavyCompact(recent, Summary(c, env.summarize(older, paths).content, older, recent, paths), env.now);
        if Replayable(log, before.state) { OpKeepsReplayable(log, lightly, op); }
      }
    }
  }

  /** The same for a compaction the user asks for. */
  lemma ManualCompactionKeepsProtocol(c: ContextConfig, log: LogContext, env: Surroundings, before: Counted,
                                      refs: seq<ExternalRef>, paths: seq<string>, older: History, recent: History,
                                      heavy: bool, refused: bool, after: Counted)
    requires Recognises(c.compaction) && c.compaction.isExternal == log.isExternal && ValidTime(log, env.now)
    requires LeastCompaction(c.compaction, before.state.messages, Moved(refs))
    requires Summarises(c, log, env, before, Compacted(c.compaction, before.state.messages, refs), paths, older,
                        recent, heavy, refused, after)
    ensures Safe(before.state.messages) ==> Safe(after.state.messages)
    ensures Replayable(log, before.state) ==> Replayable(log, after.state)
    ensures heavy ==>
        CountsAll(after.state.summary, |before.state.messages|)
        && |after.state.messages| < |before.state.messages|
  {
    var light := Compacted(c.compaction, before.state.messages, refs);
    var lightly := After(log, before.state, LightCompact(light));
    CompactionKeepsProtocol(c.compaction, log, before.state.messages, refs);
    if Replayable(log, before.state) { OpKeepsReplayable(log, before.state, LightCompact(light)); }
    CutIsSafe(c, light, older, recent);
    if heavy && Replayable(log, before.state) {
      var op := HeavyCompact(recent, Summary(c, env.summarize(older, paths).content, older, recent, paths), env.now);
      OpKeepsReplayable(log, lightly, op);
    }
  }

  /** Preparing a request is a run of session operations that appends nothing. */
  lemma PreparingIsARun(c: ContextConfig, log: LogContext, budget: int, env: Surroundings, before: Counted,
                        refs: seq<ExternalRef>, paths: seq<string>, older: History, recent: History, answer: Reply,
                        after: Counted)
                          returns (ops: seq<SessionOp>)
    requires Recognises(c.compaction) && c.compaction.isExternal == log.isExternal && ValidTime(log, env.now)
    requires LeastCompaction(c.compaction, before.state.messages, Moved(refs))
    requires Prepares(c, log, budget, env, before, Compacted(c.compaction, before.state.messages, refs), paths, older,
                      recent, answer, after)
    ensures AllAllowed(log, before.state, ops) && Run(log, before.state, ops) == after.state && Appended(ops) == []
  {
    var light := LightCompact(Compacted(c.compaction, before.state.messages, refs));
    CompactionKeepsProtocol(c.compaction, log, before.state.messages, refs);
    RunOfOne(log, before.state, light);
    ops := [light];
    if c.footprint(light.compacted, env.prompts(1)) > budget && older != [] && env.summarize(older, paths).Written? {
      var heavy := HeavyCompact(recent, Summary(c, env.summarize(older, paths).content, older, recent, paths), env.now);
      RunOfOne(log, After(log, before.state, light), heavy);
      RunsCompose(log, before.state, [light], [heavy]);
      AppendedJoins([light], [heavy]);
      ops := [light] + [heavy];
    }
  }
}
