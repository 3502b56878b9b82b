/**
 The chat session and its recorder: every append is logged, a checkpoint logs the whole history,
 and the log alone rebuilds the session.
 */
module Session {
  import opened Wrappers
  import opened Json
  import opened ChatHistory
  import opened Recovery
  import opened Seqs
  import opened SessionStore

  /** What identifies a session's log, and how it is read. */
  datatype LogContext = LogContext(conversions: Conversions, sessionId: string, isExternal: string -> bool)

  predicate ValidTime(c: LogContext, now: string) {
    now != "" && c.conversions.isoTime(now).Some?
  }

  datatype SessionState = SessionState(messages: History, summary: Option<ContextSummary>, log: seq<Line>)

  /** `b` is `a`, or `a` with its tool result moved to an external file. */
  predicate ExternalForm(c: LogContext, a: ChatMessage, b: ChatMessage) {
    a == b || (a.role == Tool && b == a.(content := b.content) && c.isExternal(b.content))
  }

  predicate ExternalForms(c: LogContext, a: History, b: History) {
    |a| == |b| && forall i | 0 <= i < |a| :: ExternalForm(c, a[i], b[i])
  }

  lemma ExternalFormsCompose(c: LogContext, x: History, y: History, z: History)
    requires ExternalForms(c, x, y) && ExternalForms(c, y, z)
    ensures ExternalForms(c, x, z) && SameShapes(x, z)
  {
    forall i | 0 <= i < |x| ensures ExternalForm(c, x[i], z[i]) && SameShape(x[i], z[i]) {
      assert ExternalForm(c, x[i], y[i]) && ExternalForm(c, y[i], z[i]);
    }
  }

  /** What happens to a session between restarts. */
  datatype SessionOp =
    | Append(message: ChatMessage, now: string)
    | LightCompact(compacted: History)
    | HeavyCompact(kept: History, newSummary: ContextSummary, now: string)
    | Checkpoint(now: string)

  /** The log starts afresh with what the session holds. */
  predicate WritesCheckpoint(op: SessionOp) {
    op.HeavyCompact? || op.Checkpoint?
  }

  function After(c: LogContext, s: SessionState, op: SessionOp): SessionState {
    match op
    case Append(m, now) => s.(messages := s.messages + [m], log := s.log + [MessageRecord(c.sessionId, now, m)])
    case LightCompact(compacted) => s.(messages := compacted)
    case HeavyCompact(kept, summary, now) =>
      SessionState(kept, Some(summary), s.log + [CheckpointRecord(c.sessionId, now, kept, Some(summary))])
    case Checkpoint(now) => s.(log := s.log + [CheckpointRecord(c.sessionId, now, s.messages, s.summary)])
  }

  predicate Allowed(c: LogContext, s: SessionState, op: SessionOp) {
    match op
    case Append(_, now) => ValidTime(c, now)
    case LightCompact(compacted) => ExternalForms(c, s.messages, compacted)
    case HeavyCompact(_, _, now) => ValidTime(c, now)
    case Checkpoint(now) => ValidTime(c, now)
  }

  function Rebuilt(c: LogContext, log: seq<Line>): LogState {
    ReadFrom(c.conversions, EMPTY_LOG, log)
  }

  /** The log rebuilds the session, up to tool results externalised since the last checkpoint. */
  ghost predicate Replayable(c: LogContext, s: SessionState) {
    Rebuilt(c, s.log).summary == s.summary && ExternalForms(c, Rebuilt(c, s.log).messages, s.messages)
  }

  /** What running one tool call came to. */
  datatype ToolResult = ToolResult(toolCallId: string, content: string, success: bool, unknownTool: bool)

  function ResultMessage(r: ToolResult): ChatMessage {
    ChatMessage(Tool, r.content, None, [], Some(r.toolCallId), !r.success, None, None)
  }

  class ChatSession {
    const context: LogContext
    var messages: History
    var summary: Option<ContextSummary>
    var compactedToolPaths: seq<string>
    var consecutiveSummaryFailures: nat
    var log: seq<Line>

    constructor (c: LogContext)
      ensures context == c && State() == SessionState([], None, []) && Replayable(c, State())
      ensures compactedToolPaths == [] && consecutiveSummaryFailures == 0
    {
      context := c;
      messages, summary, compactedToolPaths, consecutiveSummaryFailures, log := [], None, [], 0, [];
    }

    /** `load_session`: what the log says, with the recorder attached to the same log. */
    constructor Load(c: LogContext, lines: seq<Line>)
      ensures context == c && log == lines
      ensures messages == Rebuilt(c, lines).messages && summary == Rebuilt(c, lines).summary
    {
      context := c;
      var read := ReadState(c.conversions, lines);
      messages, summary, compactedToolPaths, consecutiveSummaryFailures, log :=
        read.messages, read.summary, [], 0, lines;
    }

    ghost function State(): SessionState
      reads this
    {
      SessionState(messages, summary, log)
    }

    method AppendMessage(m: ChatMessage, now: string)
      requires ValidTime(context, now)
      modifies this`messages, this`log
      ensures State() == After(context, old(State()), Append(m, now))
    {
      messages := messages + [m];
      log := log + [MessageRecord(context.sessionId, now, m)];
    }

    method AppendUserMessage(text: string, metadata: Option<map<string, Json>>, now: string) returns (m: ChatMessage)
      requires ValidTime(context, now)
      modifies this`messages, this`log
      ensures m == ChatMessage(User, text, None, [], None, false, None, metadata)
      ensures State() == After(context, old(State()), Append(m, now))
    {
      m := ChatMessage(User, text, None, [], None, false, None, metadata);
      AppendMessage(m, now);
    }

    /** Only assistant messages may be appended here; others are refused and nothing changes. */
    method AppendAssistantMessage(m: ChatMessage, now: string) returns (accepted: bool)
      requires ValidTime(context, now)
      modifies this`messages, this`log
      ensures accepted <==> m.role == Assistant
      ensures State() == if accepted then After(context, old(State()), Append(m, now)) else old(State())
    {
      if m.role != Assistant { return false; }
      AppendMessage(m, now);
      return true;
    }

    method AppendToolResult(r: ToolResult, now: string)
      requires ValidTime(context, now)
      modifies this`messages, this`log
      ensures State() == After(context, old(State()), Append(ResultMessage(r), now))
    {
      AppendMessage(ResultMessage(r), now);
    }

    method ReplaceMessages(ms: History)
      modifies this`messages
      ensures messages == ms
    {
      messages := ms;
    }

    method AppendCheckpoint(now: string)
      requires ValidTime(context, now)
      modifies this`log
      ensures State() == After(context, old(State()), Checkpoint(now))
    {
      log := log + [CheckpointRecord(context.sessionId, now, messages, summary)];
    }
  }

  /** What a restored session starts from: the longest safe part of what its log says. The log is left as it is. */
  function Restored(c: LogContext, lines: seq<Line>): SessionState {
    SessionState(Rebuilt(c, lines).messages[..SafeLength(Rebuilt(c, lines).messages)], Rebuilt(c, lines).summary, lines)
  }

  /** Loads a session from its log and cuts it back to what is safe to send. */
  method RestoreSession(c: LogContext, lines: seq<Line>)
      returns (session: ChatSession, validation: ProtocolValidationResult)
    ensures fresh(session) && session.context == c && session.State() == Restored(c, lines) && Safe(session.messages)
    ensures validation.truncatedCount == |Rebuilt(c, lines).messages| - |session.messages|
    ensures validation.warning == None <==> Safe(Rebuilt(c, lines).messages)
  {
    session := new ChatSession.Load(c, lines);
    validation := TruncateToProtocolSafe(session.messages);
    SafeLengthIsSafe(session.messages);
    if validation.truncatedCount > 0 { session.ReplaceMessages(validation.messages); }
  }

  // ---------------------------------------------------------------------------
  // Every run can be replayed
  // ---------------------------------------------------------------------------

  /** What an operation does to what the log says. */
  lemma OpReadsBack(c: LogContext, s: SessionState, op: SessionOp)
    requires Allowed(c, s, op)
    ensures
      var before, after := Rebuilt(c, s.log), Rebuilt(c, After(c, s, op).log);
      && after.skipped == before.skipped
      && match op
         case Append(m, _) => after.messages == before.messages + [m] && after.summary == before.summary
         case LightCompact(_) => after == before
         case HeavyCompact(kept, summary, _) => after.messages == kept && after.summary == Some(summary)
         case Checkpoint(_) => after.messages == s.messages && after.summary == s.summary
  {
    var read := Rebuilt(c, s.log);
    match op
    case Append(m, now) =>
      ReadAppend(c.conversions, EMPTY_LOG, s.log, [MessageRecord(c.sessionId, now, m)]);
      MessageReadsBack(c.conversions, read, c.sessionId, now, m);
    case LightCompact(_) =>
    case HeavyCompact(kept, summary, now) =>
      ReadAppend(c.conversions, EMPTY_LOG, s.log, [CheckpointRecord(c.sessionId, now, kept, Some(summary))]);
      CheckpointReadsBack(c.conversions, read, c.sessionId, now, kept, Some(summary));
    case Checkpoint(now) =>
      ReadAppend(c.conversions, EMPTY_LOG, s.log, [CheckpointRecord(c.sessionId, now, s.messages, s.summary)]);
      CheckpointReadsBack(c.conversions, read, c.sessionId, now, s.messages, s.summary);
  }

  lemma SameForms(c: LogContext, ms: History)
    ensures ExternalForms(c, ms, ms)
  {
  }

  lemma OpKeepsReplayable(c: LogContext, s: SessionState, op: SessionOp)
    requires Replayable(c, s) && Allowed(c, s, op)
    ensures Replayable(c, After(c, s, op))
  {
    OpReadsBack(c, s, op);
    if op.LightCompact? { ExternalFormsCompose(c, Rebuilt(c, s.log).messages, s.messages, op.compacted); }
    if op.Checkpoint? { SameForms(c, s.messages); }
  }

  /** A checkpoint makes any session replayable, whatever its log said before. */
  lemma CheckpointRepairs(c: LogContext, s: SessionState, op: SessionOp)
    requires Allowed(c, s, op) && WritesCheckpoint(op)
    ensures Replayable(c, After(c, s, op))
  {
    OpReadsBack(c, s, op);
    SameForms(c, After(c, s, op).messages);
  }

  function Run(c: LogContext, s: SessionState, ops: seq<SessionOp>): SessionState
    decreases |ops|
  {
    if ops == [] then s else Run(c, After(c, s, ops[0]), ops[1..])
  }

  ghost predicate AllAllowed(c: LogContext, s: SessionState, ops: seq<SessionOp>)
    decreases |ops|
  {
    ops == [] || (Allowed(c, s, ops[0]) && AllAllowed(c, After(c, s, ops[0]), ops[1..]))
  }

  /** After any run, reading the log gives back the summary and the messages as they were before externalisation. */
  lemma {:induction false} EveryRunReplays(c: LogContext, s: SessionState, ops: seq<SessionOp>)
    requires Replayable(c, s) && AllAllowed(c, s, ops)
    ensures Replayable(c, Run(c, s, ops))
    decreases |ops|
  {
    if ops != [] {
      OpKeepsReplayable(c, s, ops[0]);
      EveryRunReplays(c, After(c, s, ops[0]), ops[1..]);
    }
  }

  lemma {:induction false} RunsCompose(c: LogContext, s: SessionState, a: seq<SessionOp>, b: seq<SessionOp>)
    requires AllAllowed(c, s, a) && AllAllowed(c, Run(c, s, a), b)
    ensures AllAllowed(c, s, a + b) && Run(c, s, a + b) == Run(c, Run(c, s, a), b)
    decreases |a|
  {
    if a == [] {
      assert a + b == b;
    } else {
      assert (a + b)[1..] == a[1..] + b;
      RunsCompose(c, After(c, s, a[0]), a[1..], b);
    }
  }

  lemma RunOfOne(c: LogContext, s: SessionState, op: SessionOp)
    ensures Run(c, s, [op]) == After(c, s, op)
    ensures AllAllowed(c, s, [op]) <==> Allowed(c, s, op)
    ensures Appended([op]) == if op.Append? then [op.message] else []
  {
    assert [op][1..] == [];
  }

  /** The messages that a run appends. */
  function Appended(ops: seq<SessionOp>): History {
    if ops == [] then [] else (if ops[0].Append? then [ops[0].message] else []) + Appended(ops[1..])
  }

  lemma {:induction false} AppendedJoins(a: seq<SessionOp>, b: seq<SessionOp>)
    ensures Appended(a + b) == Appended(a) + Appended(b)
    decreases |a|
  {
    if a == [] {
      assert a + b == b;
    } else {
      AppendedJoins(a[1..], b);
      assert (a + b)[0] == a[0] && (a + b)[1..] == a[1..] + b;
      AppendAssociates(if a[0].Append? then [a[0].message] else [], Appended(a[1..]), Appended(b));
    }
  }

  /** A run without light compactions replays exactly, and no line of it is skipped. */
  lemma {:induction false} PlainRunReplaysExactly(c: LogContext, s: SessionState, ops: seq<SessionOp>)
    requires Replayable(c, s) && AllAllowed(c, s, ops)
    requires Rebuilt(c, s.log).messages == s.messages
    requires forall i | 0 <= i < |ops| :: !ops[i].LightCompact?
    ensures Rebuilt(c, Run(c, s, ops).log).messages == Run(c, s, ops).messages
    ensures Rebuilt(c, Run(c, s, ops).log).skipped == Rebuilt(c, s.log).skipped
    decreases |ops|
  {
    if ops != [] {
      assert !ops[0].LightCompact?;
      OpReadsBack(c, s, ops[0]);
      OpKeepsReplayable(c, s, ops[0]);
      PlainRunReplaysExactly(c, After(c, s, ops[0]), ops[1..]);
    }
  }

  // ---------------------------------------------------------------------------
  // Restoring a truncated session
  // ---------------------------------------------------------------------------

  /** A safe continuation cannot complete a group that was left open. */
  lemma StuckStaysStuck(bad: History, later: History)
    requires bad != [] && SafeLength(bad) == 0 && later != [] && later[0].role != Tool
    ensures SafeLength(bad + later) == 0
  {
    var all := bad + later;
    assert all[0] == bad[0] && all[|bad|] == later[0];
    if HasCalls(bad[0]) && Answered(all, 0) {
      forall k | 0 < k <= |Ids(all[0])| ensures all[k].role == Tool { assert Answers(all[k], Ids(all[0])); }
      UnitAppend(bad, later);
      assert false;
    }
  }

  lemma OpenHistoryStaysOpen(logged: History, later: History)
    requires !Safe(logged) && later != [] && later[0].role != Tool
    ensures SafeLength(logged + later) == SafeLength(logged)
  {
    var good, bad := SafeSplit(logged);
    SafeLengthDecides(logged);
    StuckStaysStuck(bad, later);
    SafePartStays(good, bad, later);
  }

  lemma SafePartStays(good: History, bad: History, later: History)
    requires Safe(good) && SafeLength(bad + later) == 0
    ensures SafeLength(good + bad + later) == |good|
  {
    var rest := bad + later;
    SafeAppend(good, rest);
    assert good + bad + later == good + rest;
  }

  ghost predicate AnyCheckpoint(ops: seq<SessionOp>) {
    exists i :: 0 <= i < |ops| && WritesCheckpoint(ops[i])
  }

  /** The first message that a run appends is not the result of an earlier call. */
  predicate StartsAfresh(ops: seq<SessionOp>) {
    Appended(ops) != [] ==> Appended(ops)[0].role != Tool
  }

  lemma ExternalFormsAppend(c: LogContext, x: History, y: History, more: History)
    requires ExternalForms(c, x, y)
    ensures ExternalForms(c, x + more, y + more)
  {
    forall i | 0 <= i < |x + more| ensures ExternalForm(c, (x + more)[i], (y + more)[i]) {
      if i < |x| { assert ExternalForm(c, x[i], y[i]); }
    }
  }

  ghost predicate AnyHeavy(ops: seq<SessionOp>) {
    exists i :: 0 <= i < |ops| && ops[i].HeavyCompact?
  }

  lemma LightStep(c: LogContext, s: SessionState, op: SessionOp)
    requires Allowed(c, s, op) && !op.HeavyCompact?
    ensures ExternalForms(c, s.messages + Appended([op]), After(c, s, op).messages)
  {
    RunOfOne(c, s, op);
    assert s.messages + [] == s.messages;
    SameForms(c, s.messages + Appended([op]));
  }

  lemma FirstAppended(ms: History, ops: seq<SessionOp>)
    requires ops != []
    ensures ms + Appended(ops) == ms + Appended([ops[0]]) + Appended(ops[1..])
  {
    assert [ops[0]] + ops[1..] == ops;
    AppendedJoins([ops[0]], ops[1..]);
    AppendAssociates(ms, Appended([ops[0]]), Appended(ops[1..]));
  }

  /** Without a heavy compaction a run keeps what was there and appends to it. */
  lemma {:induction false} RunWithoutHeavy(c: LogContext, s: SessionState, ops: seq<SessionOp>)
    requires AllAllowed(c, s, ops) && !AnyHeavy(ops)
    ensures ExternalForms(c, s.messages + Appended(ops), Run(c, s, ops).messages)
    decreases |ops|
  {
    if ops == [] {
      assert s.messages + [] == s.messages;
      SameForms(c, s.messages);
    } else {
      assert !ops[0].HeavyCompact? && forall i | 0 <= i < |ops| - 1 :: ops[1..][i] == ops[i + 1];
      var v := After(c, s, ops[0]);
      RunWithoutHeavy(c, v, ops[1..]);
      LightStep(c, s, ops[0]);
      ExternalFormsAppend(c, s.messages + Appended([ops[0]]), v.messages, Appended(ops[1..]));
      FirstAppended(s.messages, ops);
      ExternalFormsCompose(c, s.messages + Appended(ops), v.messages + Appended(ops[1..]), Run(c, s, ops).messages);
    }
  }

  /** Without a checkpoint the log says what it said before, followed by what was appended. */
  lemma {:induction false} LogWithoutCheckpoint(c: LogContext, s: SessionState, ops: seq<SessionOp>)
    requires AllAllowed(c, s, ops) && !AnyCheckpoint(ops)
    ensures Rebuilt(c, Run(c, s, ops).log).messages == Rebuilt(c, s.log).messages + Appended(ops)
    ensures Rebuilt(c, Run(c, s, ops).log).summary == Rebuilt(c, s.log).summary && Run(c, s, ops).summary == s.summary
    decreases |ops|
  {
    hide Rebuilt;
    if ops == [] {
      assert Rebuilt(c, s.log).messages + [] == Rebuilt(c, s.log).messages;
    } else {
      assert !WritesCheckpoint(ops[0]) && forall i | 0 <= i < |ops| - 1 :: ops[1..][i] == ops[i + 1];
      OpReadsBack(c, s, ops[0]);
      RunOfOne(c, s, ops[0]);
      assert Rebuilt(c, s.log).messages + [] == Rebuilt(c, s.log).messages;
      LogWithoutCheckpoint(c, After(c, s, ops[0]), ops[1..]);
      FirstAppended(Rebuilt(c, s.log).messages, ops);
    }
  }

  lemma RunWithoutCheckpoint(c: LogContext, s: SessionState, ops: seq<SessionOp>)
    requires AllAllowed(c, s, ops) && !AnyCheckpoint(ops)
    ensures Rebuilt(c, Run(c, s, ops).log).messages == Rebuilt(c, s.log).messages + Appended(ops)
    ensures Rebuilt(c, Run(c, s, ops).log).summary == Rebuilt(c, s.log).summary && Run(c, s, ops).summary == s.summary
    ensures |Run(c, s, ops).messages| == |s.messages| + |Appended(ops)|
    ensures ExternalForms(c, s.messages + Appended(ops), Run(c, s, ops).messages)
  {
    LogWithoutCheckpoint(c, s, ops);
    RunWithoutHeavy(c, s, ops);
  }

  lemma {:induction false} CheckpointedRunReplays(c: LogContext, s: SessionState, ops: seq<SessionOp>)
    requires AllAllowed(c, s, ops) && AnyCheckpoint(ops)
    ensures Replayable(c, Run(c, s, ops))
    decreases |ops|
  {
    if WritesCheckpoint(ops[0]) {
      CheckpointRepairs(c, s, ops[0]);
      EveryRunReplays(c, After(c, s, ops[0]), ops[1..]);
    } else {
      var i :| 0 <= i < |ops| && WritesCheckpoint(ops[i]);
      assert ops[1..][i - 1] == ops[i];
      CheckpointedRunReplays(c, After(c, s, ops[0]), ops[1..]);
    }
  }

  /**
   A restore that drops something writes no checkpoint, so the log goes on saying what was dropped.
   The log rebuilds the session again exactly when some later operation has written a checkpoint.
   */
  lemma TruncatedRestoreReplaysIff(c: LogContext, lines: seq<Line>, ops: seq<SessionOp>)
    requires !Safe(Rebuilt(c, lines).messages) && AllAllowed(c, Restored(c, lines), ops)
    ensures Replayable(c, Run(c, Restored(c, lines), ops)) <==> AnyCheckpoint(ops)
  {
    if AnyCheckpoint(ops) {
      CheckpointedRunReplays(c, Restored(c, lines), ops);
    } else {
      RunWithoutCheckpoint(c, Restored(c, lines), ops);
      SafeLengthDecides(Rebuilt(c, lines).messages);
    }
  }

  /** A restore gives back the whole of a safe session whose log can rebuild it. */
  lemma RestoreKeepsAll(c: LogContext, s: SessionState)
    requires Replayable(c, s) && Safe(s.messages)
    ensures ExternalForms(c, Restored(c, s.log).messages, s.messages) && Restored(c, s.log).summary == s.summary
  {
    var read := Rebuilt(c, s.log).messages;
    ExternalFormsCompose(c, read, s.messages, s.messages);
    ShapeDecidesSafety(read, s.messages);
    SafeLengthDecides(read);
    assert read[..|read|] == read;
  }

  /** Until a checkpoint is written, restoring again gives what the first restore gave, and none of what came since. */
  lemma NothingKeptWithoutCheckpoint(c: LogContext, lines: seq<Line>, ops: seq<SessionOp>)
    requires !Safe(Rebuilt(c, lines).messages) && AllAllowed(c, Restored(c, lines), ops)
    requires !AnyCheckpoint(ops) && StartsAfresh(ops)
    ensures Restored(c, Run(c, Restored(c, lines), ops).log).messages == Restored(c, lines).messages
  {
    var logged, later := Rebuilt(c, lines).messages, Appended(ops);
    RunWithoutCheckpoint(c, Restored(c, lines), ops);
    if later == [] {
      assert logged + later == logged;
    } else {
      OpenHistoryStaysOpen(logged, later);
      assert (logged + later)[..SafeLength(logged)] == logged[..SafeLength(logged)];
    }
  }

  /** The next restore would give back the session as it is now. */
  ghost predicate Survives(c: LogContext, s: SessionState) {
    Restored(c, s.log).summary == s.summary && ExternalForms(c, Restored(c, s.log).messages, s.messages)
  }

  /**
   After a restore that dropped something, a session that is safe again survives the next restart
   exactly when nothing was appended since or a checkpoint was written since.
   */
  lemma TruncatedRestoreForgetsTheRest(c: LogContext, lines: seq<Line>, ops: seq<SessionOp>)
    requires !Safe(Rebuilt(c, lines).messages) && AllAllowed(c, Restored(c, lines), ops) && StartsAfresh(ops)
    requires Safe(Run(c, Restored(c, lines), ops).messages)
    ensures Survives(c, Run(c, Restored(c, lines), ops)) <==> AnyCheckpoint(ops) || Appended(ops) == []
  {
    var s := Restored(c, lines);
    if AnyCheckpoint(ops) {
      CheckpointedRunReplays(c, s, ops);
      RestoreKeepsAll(c, Run(c, s, ops));
    } else {
      RunWithoutCheckpoint(c, s, ops);
      NothingKeptWithoutCheckpoint(c, lines, ops);
      if Appended(ops) == [] { assert s.messages + Appended(ops) == s.messages; }
    }
  }

  // ---------------------------------------------------------------------------
  // Going on after a turn that was cut off
  // ---------------------------------------------------------------------------

  /** Cut off in the tool phase: a safe history and one message whose calls nothing answers. */
  ghost predicate Dangling(ms: History) {
    ms != [] && Safe(ms[..|ms| - 1]) && HasCalls(ms[|ms| - 1])
  }

  lemma DanglingSplit(ms: History) returns (good: History, m: ChatMessage)
    requires Dangling(ms)
    ensures ms == good + [m] && |good| == |ms| - 1 && Safe(good) && HasCalls(m)
  {
    good, m := ms[..|ms| - 1], ms[|ms| - 1];
  }

  /** Nothing that is appended answers the call any more, unless it starts with its results. */
  lemma DanglingStays(ms: History, later: History)
    requires Dangling(ms) && (later != [] ==> later[0].role != Tool)
    ensures !Safe(ms + later) && SafeLength(ms + later) == |ms| - 1
  {
    var good, m := DanglingSplit(ms);
    var rest := [m] + later;
    CallsHaveIds(m);
    assert rest[0] == m && (later != [] ==> rest[1] == later[0]);
    assert Answered(rest, 0) ==> Answers(rest[1], Ids(m));
    assert ms + later == good + [m] + later;
    DanglingCallEndsSafety(good, m, later);
  }

  lemma {:induction false} ShapeDecidesSafeLength(a: History, b: History)
    requires SameShapes(a, b)
    ensures SafeLength(a) == SafeLength(b)
    decreases |a|
  {
    var n, k := SafeLength(a), SafeLength(b);
    SafeLengthIsSafe(a);
    SafeLengthIsSafe(b);
    ShapeDecidesSafety(a[..n], b[..n]);
    ShapeDecidesSafety(a[..k], b[..k]);
    SafeLengthIsLongest(b, n);
    SafeLengthIsLongest(a, k);
  }

  /**
   A session that goes on after a turn was cut off stays unsafe, and a restart keeps none of what
   came since, checkpoints or not, until a heavy compaction replaces the history.
   */
  lemma LaterTurnsAreLost(c: LogContext, s: SessionState, ops: seq<SessionOp>)
    requires Replayable(c, s) && Dangling(s.messages) && AllAllowed(c, s, ops) && StartsAfresh(ops) && !AnyHeavy(ops)
    ensures !Safe(Run(c, s, ops).messages)
    ensures |Restored(c, Run(c, s, ops).log).messages| == |s.messages| - 1
  {
    var v := Run(c, s, ops);
    RunWithoutHeavy(c, s, ops);
    EveryRunReplays(c, s, ops);
    DanglingStays(s.messages, Appended(ops));
    ExternalFormsCompose(c, s.messages + Appended(ops), v.messages, v.messages);
    ShapeDecidesSafeLength(s.messages + Appended(ops), v.messages);
    SafeLengthDecides(v.messages);
    ExternalFormsCompose(c, Rebuilt(c, v.log).messages, v.messages, v.messages);
    ShapeDecidesSafeLength(Rebuilt(c, v.log).messages, v.messages);
  }
}
