/**
 The session log (`SessionJsonlStore`): how messages and summaries become JSON documents, and how
 a log is read back line by line.
 */
module SessionStore {
  import opened Wrappers
  import opened Json
  import opened ChatHistory

  datatype ContextSummary = ContextSummary(
    content: string, boundaryNotice: string, createdAt: string,
    sourceMessageCount: int, keptMessageCount: int, externalPaths: seq<string>)

  /** Python's conversions of values that are not of the expected type, which the log's reader falls back on. */
  datatype Conversions = Conversions(
    show: Json -> string,
    readInt: string -> Option<int>,
    keys: map<string, Json> -> seq<string>,
    isoTime: string -> Option<int>)

  datatype RecordError = RecordError(reason: string)

  type Read<T> = Result<T, RecordError>

  // ---------------------------------------------------------------------------
  // Python's view of JSON values
  // ---------------------------------------------------------------------------

  predicate Truthy(j: Json) {
    match j
    case Null => false
    case Bool(b) => b
    case Num(n) => n != 0
    case Str(s) => s != ""
    case Arr(items) => items != []
    case Obj(fields) => fields != map[]
  }

  function Get(fields: map<string, Json>, key: string, default: Json): Json {
    if key in fields then fields[key] else default
  }

  /** `str(value)`. */
  function ToText(c: Conversions, j: Json): string {
    if j.Str? then j.text else c.show(j)
  }

  /** `int(value)`. */
  function ToInt(c: Conversions, j: Json): Read<int> {
    match j
    case Num(n) => Ok(n)
    case Bool(b) => Ok(if b then 1 else 0)
    case Str(s) => (match c.readInt(s) case Some(n) => Ok(n) case None => Err(RecordError("int")))
    case _ => Err(RecordError("int"))
  }

  function OptionalText(j: Json): Option<string> {
    if j.Str? then Some(j.text) else None
  }

  function TextOrNull(t: Option<string>): Json {
    match t case Some(s) => Str(s) case None => Null
  }

  function ObjectOrNull(o: Option<map<string, Json>>): Json {
    match o case Some(fields) => Obj(fields) case None => Null
  }

  /** None for a missing or null value, an error for a value that is no object. */
  function OptionalObject(j: Json): Read<Option<map<string, Json>>> {
    if j.Null? then Ok(None) else if j.Obj? then Ok(Some(j.fields)) else Err(RecordError("object"))
  }

  // ---------------------------------------------------------------------------
  // Messages
  // ---------------------------------------------------------------------------

  function RoleName(role: Role): string {
    match role case User => "user" case Assistant => "assistant" case Tool => "tool"
  }

  function CallToJson(call: ToolCall): Json {
    Obj(map["id" := Str(call.id), "name" := Str(call.name), "arguments" := Obj(call.arguments),
            "raw_arguments" := Str(call.rawArguments), "parse_error" := TextOrNull(call.parseError)])
  }

  function CallsToJson(calls: seq<ToolCall>): seq<Json> {
    if calls == [] then [] else [CallToJson(calls[0])] + CallsToJson(calls[1..])
  }

  function MessageToJson(m: ChatMessage): map<string, Json> {
    map["role" := Str(RoleName(m.role)), "content" := Str(m.content), "thinking" := TextOrNull(m.thinking),
        "tool_calls" := Arr(CallsToJson(m.toolCalls)),
        "tool_call_id" := TextOrNull(m.toolCallId), "tool_result_is_error" := Bool(m.toolResultIsError),
        "provider_payload" := ObjectOrNull(m.providerPayload), "metadata" := ObjectOrNull(m.metadata)]
  }

  function ReadRole(j: Json): Read<Role> {
    if j == Str("user") then Ok(User)
    else if j == Str("assistant") then Ok(Assistant)
    else if j == Str("tool") then Ok(Tool)
    else Err(RecordError("role"))
  }

  function ReadCall(c: Conversions, j: Json): Read<ToolCall> {
    if !j.Obj? then Err(RecordError("tool_call"))
    else
      var id, name := Get(j.fields, "id", Null), Get(j.fields, "name", Null);
      if !id.Str? || !name.Str? then Err(RecordError("tool_call id or name"))
      else
        var arguments, raw := Get(j.fields, "arguments", Obj(map[])), Get(j.fields, "raw_arguments", Null);
        if !arguments.Obj? then Err(RecordError("tool_call.arguments"))
        else Ok(ToolCall(id.text, name.text, arguments.fields, if Truthy(raw) then ToText(c, raw) else "",
                         OptionalText(Get(j.fields, "parse_error", Null))))
  }

  function ReadCalls(c: Conversions, items: seq<Json>): Read<seq<ToolCall>> {
    if items == [] then Ok([])
    else
      var first :- ReadCall(c, items[0]);
      var rest :- ReadCalls(c, items[1..]);
      Ok([first] + rest)
  }

  function MessageFromJson(c: Conversions, data: map<string, Json>): Read<ChatMessage> {
    var role :- ReadRole(Get(data, "role", Null));
    var content := Get(data, "content", Str(""));
    if !content.Str? then Err(RecordError("content"))
    else
      var rawCalls := Get(data, "tool_calls", Arr([]));
      if !rawCalls.Null? && !rawCalls.Arr? then Err(RecordError("tool_calls"))
      else
        var toolCalls :- ReadCalls(c, if rawCalls.Null? then [] else rawCalls.items);
        var callId := Get(data, "tool_call_id", Null);
        if !callId.Null? && !callId.Str? then Err(RecordError("tool_call_id"))
        else
          var payload :- OptionalObject(Get(data, "provider_payload", Null));
          var metadata :- OptionalObject(Get(data, "metadata", Null));
          Ok(ChatMessage(role, content.text, OptionalText(Get(data, "thinking", Null)), toolCalls, OptionalText(callId),
                         Truthy(Get(data, "tool_result_is_error", Bool(false))), payload, metadata))
  }

  lemma CallRoundTrip(c: Conversions, call: ToolCall)
    ensures ReadCall(c, CallToJson(call)) == Ok(call)
  {
  }

  lemma {:induction false} CallsRoundTrip(c: Conversions, calls: seq<ToolCall>)
    ensures ReadCalls(c, CallsToJson(calls)) == Ok(calls)
  {
    if calls != [] {
      CallRoundTrip(c, calls[0]);
      CallsRoundTrip(c, calls[1..]);
      assert CallsToJson(calls) == [CallToJson(calls[0])] + CallsToJson(calls[1..]);
      assert [calls[0]] + calls[1..] == calls;
    }
  }

  /** Every message survives the log unchanged. */
  lemma MessageRoundTrip(c: Conversions, m: ChatMessage)
    ensures MessageFromJson(c, MessageToJson(m)) == Ok(m)
  {
    CallsRoundTrip(c, m.toolCalls);
    var data := MessageToJson(m);
    assert ReadRole(data["role"]) == Ok(m.role);
    assert OptionalText(data["thinking"]) == m.thinking && OptionalText(data["tool_call_id"]) == m.toolCallId;
    assert OptionalObject(data["provider_payload"]) == Ok(m.providerPayload);
    assert OptionalObject(data["metadata"]) == Ok(m.metadata);
  }

  // ---------------------------------------------------------------------------
  // Summaries
  // ---------------------------------------------------------------------------

  function SummaryToJson(s: Option<ContextSummary>): Json {
    match s
    case None => Null
    case Some(summary) =>
      Obj(map["content" := Str(summary.content), "boundary_notice" := Str(summary.boundaryNotice),
              "created_at" := Str(summary.createdAt), "source_message_count" := Num(summary.sourceMessageCount),
              "kept_message_count" := Num(summary.keptMessageCount),
              "external_paths" := Arr(seq(|summary.externalPaths|, i requires 0 <= i < |summary.externalPaths| =>
                                            Str(summary.externalPaths[i])))])
  }

  function Texts(c: Conversions, items: seq<Json>): seq<string> {
    seq(|items|, i requires 0 <= i < |items| => ToText(c, items[i]))
  }

  /** `tuple(str(item) for item in value or ())`. */
  function ReadPaths(c: Conversions, j: Json): Read<seq<string>> {
    if !Truthy(j) then Ok([])
    else
      match j
      case Arr(items) => Ok(Texts(c, items))
      case Str(s) => Ok(seq(|s|, i requires 0 <= i < |s| => [s[i]]))
      case Obj(fields) => Ok(c.keys(fields))
      case _ => Err(RecordError("external_paths"))
  }

  function SummaryFromJson(c: Conversions, j: Json): Read<Option<ContextSummary>> {
    if j.Null? then Ok(None)
    else if !j.Obj? then Err(RecordError("context_summary"))
    else
      var f := j.fields;
      var source :- ToInt(c, Get(f, "source_message_count", Num(0)));
      var kept :- ToInt(c, Get(f, "kept_message_count", Num(0)));
      var paths :- ReadPaths(c, Get(f, "external_paths", Arr([])));
      Ok(Some(ContextSummary(ToText(c, Get(f, "content", Str(""))), ToText(c, Get(f, "boundary_notice", Str(""))),
                             ToText(c, Get(f, "created_at", Str(""))), source, kept, paths)))
  }

  lemma SummaryRoundTrip(c: Conversions, s: Option<ContextSummary>)
    ensures SummaryFromJson(c, SummaryToJson(s)) == Ok(s)
  {
    if s.Some? {
      var paths := s.value.externalPaths;
      var items := seq(|paths|, i requires 0 <= i < |paths| => Str(paths[i]));
      assert Texts(c, items) == paths;
      assert SummaryToJson(s).fields["external_paths"] == Arr(items);
      assert ReadPaths(c, Arr(items)) == Ok(paths);
    }
  }

  // ---------------------------------------------------------------------------
  // The log
  // ---------------------------------------------------------------------------

  /** A line of the log file. */
  datatype Line = Blank | Unparsable | Document(json: Json)

  datatype LogState = LogState(messages: History, summary: Option<ContextSummary>, updatedAt: Option<int>, skipped: nat)

  const EMPTY_LOG := LogState([], None, None, 0)

  function MessageRecord(sessionId: string, now: string, m: ChatMessage): Line {
    Document(Obj(map["kind" := Str("message"), "session_id" := Str(sessionId), "created_at" := Str(now),
                     "message" := Obj(MessageToJson(m))]))
  }

  function HistoryToJson(ms: History): seq<Json> {
    if ms == [] then [] else [Obj(MessageToJson(ms[0]))] + HistoryToJson(ms[1..])
  }

  function CheckpointRecord(sessionId: string, now: string, ms: History, summary: Option<ContextSummary>): Line {
    Document(Obj(map["kind" := Str("checkpoint"), "session_id" := Str(sessionId), "created_at" := Str(now),
                     "messages" := Arr(HistoryToJson(ms)), "context_summary" := SummaryToJson(summary)]))
  }

  function ReadTime(c: Conversions, j: Json): Read<int> {
    if !j.Str? || j.text == "" then Err(RecordError("created_at"))
    else match c.isoTime(j.text) case Some(t) => Ok(t) case None => Err(RecordError("created_at"))
  }

  /** The messages of a checkpoint; items that are no objects are dropped. */
  function ReadMessages(c: Conversions, items: seq<Json>): Read<History> {
    if items == [] then Ok([])
    else if !items[0].Obj? then ReadMessages(c, items[1..])
    else
      var first :- MessageFromJson(c, items[0].fields);
      var rest :- ReadMessages(c, items[1..]);
      Ok([first] + rest)
  }

  /** The effect of one record: a checkpoint has taken its messages over before its summary is read. */
  function ReadDocument(c: Conversions, st: LogState, j: Json): LogState {
    var bad := st.(skipped := st.skipped + 1);
    if !j.Obj? then bad
    else
      var kind := ToText(c, Get(j.fields, "kind", Str("")));
      match ReadTime(c, Get(j.fields, "created_at", Null))
      case Err(_) => bad
      case Ok(createdAt) =>
        if kind == "message" then
          var raw := Get(j.fields, "message", Null);
          if !raw.Obj? then bad
          else
            match MessageFromJson(c, raw.fields)
            case Err(_) => bad
            case Ok(m) => st.(messages := st.messages + [m], updatedAt := Some(createdAt))
        else if kind == "checkpoint" then
          var raw := Get(j.fields, "messages", Null);
          if !raw.Arr? then bad
          else
            match ReadMessages(c, raw.items)
            case Err(_) => bad
            case Ok(ms) =>
              match SummaryFromJson(c, Get(j.fields, "context_summary", Null))
              case Err(_) => bad.(messages := ms)
              case Ok(summary) => st.(messages := ms, summary := summary, updatedAt := Some(createdAt))
        else bad
  }

  function ReadLine(c: Conversions, st: LogState, line: Line): LogState {
    match line
    case Blank => st
    case Unparsable => st.(skipped := st.skipped + 1)
    case Document(j) => ReadDocument(c, st, j)
  }

  function ReadFrom(c: Conversions, st: LogState, lines: seq<Line>): LogState
    decreases |lines|
  {
    if lines == [] then st else ReadFrom(c, ReadLine(c, st, lines[0]), lines[1..])
  }

  method ReadState(c: Conversions, lines: seq<Line>) returns (st: LogState)
    ensures st == ReadFrom(c, EMPTY_LOG, lines)
  {
    var messages: History, summary: Option<ContextSummary> := [], None;
    var updatedAt: Option<int>, skipped: nat := None, 0;
    for i := 0 to |lines|
      invariant ReadFrom(c, EMPTY_LOG, lines) ==
          ReadFrom(c, LogState(messages, summary, updatedAt, skipped), lines[i..])
    {
      var after := ReadLine(c, LogState(messages, summary, updatedAt, skipped), lines[i]);
      assert lines[i..][1..] == lines[i + 1..];
      messages, summary, updatedAt, skipped := after.messages, after.summary, after.updatedAt, after.skipped;
    }
    return LogState(messages, summary, updatedAt, skipped);
  }

  // ---------------------------------------------------------------------------
  // Reading back what was written
  // ---------------------------------------------------------------------------

  lemma {:induction false} ReadAppend(c: Conversions, st: LogState, a: seq<Line>, b: seq<Line>)
    ensures ReadFrom(c, st, a + b) == ReadFrom(c, ReadFrom(c, st, a), b)
    decreases |a|
  {
    if a == [] {
      assert a + b == b;
    } else {
      assert (a + b)[1..] == a[1..] + b;
      ReadAppend(c, ReadLine(c, st, a[0]), a[1..], b);
    }
  }

  lemma MessageReadsBack(c: Conversions, st: LogState, sessionId: string, now: string, m: ChatMessage)
    requires now != "" && c.isoTime(now).Some?
    ensures ReadLine(c, st, MessageRecord(sessionId, now, m))
         == st.(messages := st.messages + [m], updatedAt := c.isoTime(now))
  {
    MessageRoundTrip(c, m);
  }

  lemma {:induction false} HistoryReadsBack(c: Conversions, ms: History)
    ensures ReadMessages(c, HistoryToJson(ms)) == Ok(ms)
  {
    if ms != [] {
      MessageRoundTrip(c, ms[0]);
      HistoryReadsBack(c, ms[1..]);
      assert HistoryToJson(ms)[1..] == HistoryToJson(ms[1..]);
      assert [ms[0]] + ms[1..] == ms;
    }
  }

  /** A checkpoint replaces everything read before it. */
  lemma CheckpointReadsBack(c: Conversions, st: LogState, sessionId: string, now: string, ms: History,
                            summary: Option<ContextSummary>)
    requires now != "" && c.isoTime(now).Some?
    ensures ReadLine(c, st, CheckpointRecord(sessionId, now, ms, summary))
         == LogState(ms, summary, c.isoTime(now), st.skipped)
  {
    HistoryReadsBack(c, ms);
    SummaryRoundTrip(c, summary);
    var f := CheckpointRecord(sessionId, now, ms, summary).json.fields;
    assert ToText(c, Get(f, "kind", Str(""))) == "checkpoint" && ReadTime(c, Get(f, "created_at", Null)).Ok?;
    assert Get(f, "messages", Null) == Arr(HistoryToJson(ms))
      && Get(f, "context_summary", Null) == SummaryToJson(summary);
  }

  // ---------------------------------------------------------------------------
  // Bad lines
  // ---------------------------------------------------------------------------

  /** A checkpoint whose messages can be read but whose summary cannot. */
  predicate HalfReadable(c: Conversions, line: Line) {
    && line.Document? && line.json.Obj?
    && ReadTime(c, Get(line.json.fields, "created_at", Null)).Ok?
    && ToText(c, Get(line.json.fields, "kind", Str(""))) == "checkpoint"
    && Get(line.json.fields, "messages", Null).Arr?
    && ReadMessages(c, Get(line.json.fields, "messages", Null).items).Ok?
    && SummaryFromJson(c, Get(line.json.fields, "context_summary", Null)).Err?
  }

  /** The line is counted as skipped. */
  predicate Skipped(c: Conversions, line: Line) {
    ReadLine(c, EMPTY_LOG, line).skipped == 1
  }

  predicate SameBut(a: LogState, b: LogState, extra: nat) {
    a == b.(skipped := b.skipped + extra)
  }

  lemma SkipCountIsOnlyCounted(c: Conversions, a: LogState, b: LogState, extra: nat, line: Line)
    requires SameBut(a, b, extra)
    ensures SameBut(ReadLine(c, a, line), ReadLine(c, b, line), extra)
  {
  }

  lemma {:induction false} SkipCountCarries(c: Conversions, a: LogState, b: LogState, extra: nat, lines: seq<Line>)
    requires SameBut(a, b, extra)
    ensures SameBut(ReadFrom(c, a, lines), ReadFrom(c, b, lines), extra)
    decreases |lines|
  {
    if lines != [] {
      SkipCountIsOnlyCounted(c, a, b, extra, lines[0]);
      SkipCountCarries(c, ReadLine(c, a, lines[0]), ReadLine(c, b, lines[0]), extra, lines[1..]);
    }
  }

  /** A skipped line leaves every state as it was, but for the count, exactly when it is no half-readable checkpoint. */
  lemma SkippedLineIsInert(c: Conversions, line: Line)
    requires Skipped(c, line)
    ensures (forall st :: SameBut(ReadLine(c, st, line), st, 1)) <==> !HalfReadable(c, line)
  {
    if HalfReadable(c, line) {
      var ms := ReadMessages(c, Get(line.json.fields, "messages", Null).items).value;
      var m := ChatMessage(User, "", None, [], None, false, None, None);
      var st := EMPTY_LOG.(messages := ms + [m]);
      assert ReadLine(c, st, line).messages == ms;
      assert |ms| != |st.messages|;
    }
  }

  /** Wherever such a line lands in a log, the restored session is the same. */
  lemma BadLineOnlyCounts(c: Conversions, before: seq<Line>, line: Line, after: seq<Line>)
    requires Skipped(c, line) && !HalfReadable(c, line)
    ensures SameBut(ReadFrom(c, EMPTY_LOG, before + [line] + after), ReadFrom(c, EMPTY_LOG, before + after), 1)
  {
    var st := ReadFrom(c, EMPTY_LOG, before);
    SkippedLineIsInert(c, line);
    assert before + [line] + after == before + ([line] + after);
    ReadAppend(c, EMPTY_LOG, before, [line] + after);
    ReadAppend(c, EMPTY_LOG, before, after);
    assert ([line] + after)[1..] == after;
    SkipCountCarries(c, ReadLine(c, st, line), st, 1, after);
  }

  /** Such a checkpoint exists, and it wipes the session it was skipped from. */
  lemma HalfReadableCheckpointWipes(c: Conversions, now: string, m: ChatMessage) returns (line: Line)
    requires now != "" && c.isoTime(now).Some?
    ensures Skipped(c, line) && HalfReadable(c, line)
    ensures ReadLine(c, EMPTY_LOG.(messages := [m]), line).messages == []
  {
    line := Document(Obj(map["kind" := Str("checkpoint"), "created_at" := Str(now), "messages" := Arr([]),
                             "context_summary" := Num(0)]));
  }
}
