/**
 A member's session as far as mailbox messages are concerned (`teams/sessions.py`): which of them it
 holds, and which of them its log gives back.
 */
module MemberSession {
  import opened Wrappers
  import opened Json
  import opened ChatHistory
  import opened Session

  const ID_KEY: string := "team_message_id"

  /** The mailbox message that this message carries, if any. */
  function IdOf(m: ChatMessage): Option<string> {
    if m.metadata.Some? && ID_KEY in m.metadata.value && m.metadata.value[ID_KEY].Str?
      then Some(m.metadata.value[ID_KEY].text)
    else None
  }

  /** `delivered_message_ids`, in the order of the messages. */
  function DeliveredIds(ms: History): seq<string> {
    if ms == [] then []
    else
      var last := IdOf(ms[|ms| - 1]);
      DeliveredIds(ms[..|ms| - 1]) + if last.Some? then [last.value] else []
  }

  /** What `append_external_message` appends. */
  function FromMailbox(id: string, text: string): ChatMessage {
    ChatMessage(User, text, None, [], None, false, None, Some(map[ID_KEY := Str(id), "source" := Str("team_mailbox")]))
  }

  /** What a member is told when it is woken up. */
  function WakeUpCall(text: string): ChatMessage {
    ChatMessage(User, text, None, [], None, false, None,
                Some(map["julycode_generated" := Bool(true), "source" := Str("team_runtime")]))
  }

  lemma {:induction false} DeliveredJoins(a: History, b: History)
    ensures DeliveredIds(a + b) == DeliveredIds(a) + DeliveredIds(b)
    decreases |b|
  {
    if b == [] {
      assert a + b == a;
    } else {
      assert (a + b)[..|a + b| - 1] == a + b[..|b| - 1];
      DeliveredJoins(a, b[..|b| - 1]);
    }
  }

  lemma {:induction false} FormsCarryIds(c: LogContext, a: History, b: History)
    requires ExternalForms(c, a, b)
    ensures DeliveredIds(a) == DeliveredIds(b)
    decreases |a|
  {
    if a != [] {
      assert ExternalForm(c, a[|a| - 1], b[|b| - 1]);
      FormsCarryIds(c, a[..|a| - 1], b[..|b| - 1]);
    }
  }

  ghost predicate Distinct(s: seq<string>) {
    forall i, j | 0 <= i < j < |s| :: s[i] != s[j]
  }

  /** Each of the ids occurs once, and all of them are among `known`. */
  ghost predicate OnceFrom(ids: seq<string>, known: set<string>) {
    Distinct(ids) && forall i | 0 <= i < |ids| :: ids[i] in known
  }

  lemma MiddleIsOnce(a: seq<string>, b: seq<string>, d: seq<string>, known: set<string>)
    requires OnceFrom(a + b + d, known)
    ensures OnceFrom(b, known)
  {
    var ids := a + b + d;
    assert forall i | 0 <= i < |b| :: ids[|a| + i] == b[i];
  }

  lemma MiddlePartIsOnce(a: History, b: History, d: History, known: set<string>)
    requires OnceFrom(DeliveredIds(a + b + d), known)
    ensures OnceFrom(DeliveredIds(b), known)
  {
    DeliveredJoins(a + b, d);
    DeliveredJoins(a, b);
    MiddleIsOnce(DeliveredIds(a), DeliveredIds(b), DeliveredIds(d), known);
  }

  /** A stretch of a history holds a stretch of its ids. */
  lemma StretchIsOnce(ms: History, known: set<string>, from: nat, to: nat)
    requires OnceFrom(DeliveredIds(ms), known) && from <= to <= |ms|
    ensures OnceFrom(DeliveredIds(ms[from..to]), known)
  {
    hide OnceFrom, DeliveredIds;
    assert ms == ms[..from] + ms[from..to] + ms[to..];
    MiddlePartIsOnce(ms[..from], ms[from..to], ms[to..], known);
  }

  // ---------------------------------------------------------------------------
  // The log behind the session
  // ---------------------------------------------------------------------------

  /** The history has an unsafe part that nothing can complete any more. */
  ghost predicate Stuck(h: History) {
    exists n :: 0 <= n < |h| && StuckAt(h, n)
  }

  ghost predicate StuckAt(h: History, n: nat)
    requires n < |h|
  {
    !Safe(h[..n]) && h[n].role != Tool
  }

  lemma StuckGoesOn(h: History, more: History)
    requires Stuck(h)
    ensures Stuck(h + more) && !Safe(h + more) && SafeLength(h + more) == SafeLength(h)
  {
    var n :| 0 <= n < |h| && StuckAt(h, n);
    var logged := h[..n];
    assert h == logged + h[n..] && h + more == logged + (h[n..] + more);
    OpenHistoryStaysOpen(logged, h[n..]);
    OpenHistoryStaysOpen(logged, h[n..] + more);
    SafeLengthDecides(logged);
    SafeLengthDecides(h + more);
    assert (h + more)[..n] == logged && StuckAt(h + more, n);
  }

  /** Either the log rebuilds the session, or it is stuck where an earlier load has truncated it. */
  ghost predicate InStep(c: LogContext, s: SessionState) {
    Replayable(c, s) || Stuck(Rebuilt(c, s.log).messages)
  }

  function IdSet(ms: History): set<string> {
    set id | id in DeliveredIds(ms)
  }

  /** The session holds no message twice, or one that never entered, and what its log gives back is part of it. */
  ghost predicate Tidy(c: LogContext, s: SessionState, entered: set<string>) {
    && InStep(c, s) && OnceFrom(DeliveredIds(s.messages), entered)
    && OnceFrom(DeliveredIds(Restored(c, s.log).messages), IdSet(s.messages))
  }

  lemma ReplayableIsTidy(c: LogContext, s: SessionState, entered: set<string>)
    requires Replayable(c, s) && OnceFrom(DeliveredIds(s.messages), entered)
    ensures Tidy(c, s, entered)
  {
    var read := Rebuilt(c, s.log).messages;
    FormsCarryIds(c, read, s.messages);
    StretchIsOnce(read, IdSet(s.messages), 0, SafeLength(read));
    assert read[0..SafeLength(read)] == read[..SafeLength(read)];
  }

  lemma OneMoreIsOnce(ids: seq<string>, more: Option<string>, before: set<string>, after: set<string>)
    requires OnceFrom(ids, before) && before <= after && (more.Some? ==> more.value in after && more.value !in ids)
    ensures OnceFrom(ids + (if more.Some? then [more.value] else []), after)
  {
  }

  lemma DeliveredByAppend(ms: History, m: ChatMessage)
    ensures DeliveredIds(ms + [m]) == DeliveredIds(ms) + if IdOf(m).Some? then [IdOf(m).value] else []
  {
    assert (ms + [m])[..|ms|] == ms;
  }

  /** A log that is stuck gives back the same whatever is appended. */
  lemma StuckLogGivesTheSame(c: LogContext, s: SessionState, m: ChatMessage, now: string)
    requires Stuck(Rebuilt(c, s.log).messages) && ValidTime(c, now)
    ensures Stuck(Rebuilt(c, After(c, s, Append(m, now)).log).messages)
    ensures Restored(c, After(c, s, Append(m, now)).log).messages == Restored(c, s.log).messages
  {
    var read := Rebuilt(c, s.log).messages;
    OpReadsBack(c, s, Append(m, now));
    StuckGoesOn(read, [m]);
    assert (read + [m])[..SafeLength(read)] == read[..SafeLength(read)];
  }

  /** A message is appended that the session does not hold yet, or that is not from the mailbox. */
  lemma AppendKeepsTidy(c: LogContext, s: SessionState, m: ChatMessage, now: string, before: set<string>,
                        after: set<string>)
    requires Tidy(c, s, before) && ValidTime(c, now) && before <= after
    requires IdOf(m).Some? ==> IdOf(m).value in after && IdOf(m).value !in DeliveredIds(s.messages)
    ensures Tidy(c, After(c, s, Append(m, now)), after)
    ensures DeliveredIds(After(c, s, Append(m, now)).messages) == DeliveredIds(s.messages) + if IdOf(m).Some?
        then [IdOf(m).value] else []
  {
    DeliveredByAppend(s.messages, m);
    OneMoreIsOnce(DeliveredIds(s.messages), IdOf(m), before, after);
    if Replayable(c, s) {
      OpKeepsReplayable(c, s, Append(m, now));
      ReplayableIsTidy(c, After(c, s, Append(m, now)), after);
    } else {
      StuckLogGivesTheSame(c, s, m, now);
    }
  }

  /** The latest messages of the session are kept. */
  predicate KeepsLatest(s: SessionState, kept: History) {
    exists n :: 0 <= n <= |s.messages| && kept == s.messages[n..]
  }

  lemma KeptIsOnce(s: SessionState, kept: History, entered: set<string>)
    requires KeepsLatest(s, kept) && OnceFrom(DeliveredIds(s.messages), entered)
    ensures OnceFrom(DeliveredIds(kept), entered)
  {
    hide OnceFrom, DeliveredIds;
    var n :| 0 <= n <= |s.messages| && kept == s.messages[n..];
    StretchIsOnce(s.messages, entered, n, |s.messages|);
    assert s.messages[n..|s.messages|] == kept;
  }

  lemma KeptIsPart(s: SessionState, kept: History, id: string)
    requires KeepsLatest(s, kept) && id in DeliveredIds(kept)
    ensures id in DeliveredIds(s.messages)
  {
    hide DeliveredIds;
    var n :| 0 <= n <= |s.messages| && kept == s.messages[n..];
    assert s.messages == s.messages[..n] + kept;
    DeliveredJoins(s.messages[..n], kept);
  }

  lemma CheckpointKeepsTidy(c: LogContext, s: SessionState, op: SessionOp, entered: set<string>)
    requires Tidy(c, s, entered) && Allowed(c, s, op) && WritesCheckpoint(op)
        && (op.HeavyCompact? ==> KeepsLatest(s, op.kept))
    ensures Tidy(c, After(c, s, op), entered)
  {
    CheckpointRepairs(c, s, op);
    if op.HeavyCompact? { KeptIsOnce(s, op.kept, entered); }
    ReplayableIsTidy(c, After(c, s, op), entered);
  }

  lemma LightCompactionKeepsTidy(c: LogContext, s: SessionState, op: SessionOp, entered: set<string>)
    requires Tidy(c, s, entered) && Allowed(c, s, op) && op.LightCompact?
    ensures Tidy(c, After(c, s, op), entered) && DeliveredIds(After(c, s, op).messages) == DeliveredIds(s.messages)
  {
    FormsCarryIds(c, s.messages, op.compacted);
    if Replayable(c, s) { OpKeepsReplayable(c, s, op); }
  }

  // ---------------------------------------------------------------------------
  // Waking up
  // ---------------------------------------------------------------------------

  /** `TeamMemberSessionStore.load`, and the first thing the runtime then says. */
  function Woken(c: LogContext, s: SessionState, text: string, now: string): SessionState {
    After(c, Restored(c, s.log), Append(WakeUpCall(text), now))
  }

  /** A log that says something safe is in step with what is loaded from it. */
  lemma WakingFromSafeLog(c: LogContext, s: SessionState, text: string, now: string, entered: set<string>)
    requires Safe(Rebuilt(c, s.log).messages) && ValidTime(c, now)
        && OnceFrom(DeliveredIds(Restored(c, s.log).messages), entered)
    ensures Tidy(c, Woken(c, s, text, now), entered)
  {
    var r, m, read := Restored(c, s.log), WakeUpCall(text), Rebuilt(c, s.log).messages;
    SafeLengthDecides(read);
    assert read[..|read|] == read;
    SameForms(c, read);
    OpKeepsReplayable(c, r, Append(m, now));
    DeliveredByAppend(r.messages, m);
    ReplayableIsTidy(c, Woken(c, s, text, now), entered);
  }

  /** An unsafe log is stuck from here on, and gives back the same next time. */
  lemma WakingFromUnsafeLog(c: LogContext, s: SessionState, text: string, now: string)
    requires !Safe(Rebuilt(c, s.log).messages) && ValidTime(c, now)
    ensures Stuck(Rebuilt(c, Woken(c, s, text, now).log).messages)
    ensures Restored(c, Woken(c, s, text, now).log).messages == Restored(c, s.log).messages
  {
    var m, read := WakeUpCall(text), Rebuilt(c, s.log).messages;
    OpReadsBack(c, Restored(c, s.log), Append(m, now));
    assert (read + [m])[..|read|] == read && StuckAt(read + [m], |read|);
    OpenHistoryStaysOpen(read, [m]);
    assert (read + [m])[..SafeLength(read)] == read[..SafeLength(read)];
  }

  lemma WakingKeepsTidy(c: LogContext, s: SessionState, text: string, now: string, entered: set<string>)
    requires Tidy(c, s, entered) && ValidTime(c, now)
    ensures Tidy(c, Woken(c, s, text, now), entered)
    ensures DeliveredIds(Woken(c, s, text, now).messages) == DeliveredIds(Restored(c, s.log).messages)
  {
    DeliveredByAppend(Restored(c, s.log).messages, WakeUpCall(text));
    hide DeliveredIds, Safe, SafeLength;
    if Safe(Rebuilt(c, s.log).messages) {
      WakingFromSafeLog(c, s, text, now, entered);
    } else {
      WakingFromUnsafeLog(c, s, text, now);
    }
  }

  /** The wake-up call is not from the mailbox. */
  lemma WokenHolds(c: LogContext, s: SessionState, text: string, now: string)
    ensures DeliveredIds(Woken(c, s, text, now).messages) == DeliveredIds(Restored(c, s.log).messages)
  {
    hide Restored;
    DeliveredByAppend(Restored(c, s.log).messages, WakeUpCall(text));
  }

  lemma ReplayableGivesBack(c: LogContext, s: SessionState)
    requires Replayable(c, s)
    ensures DeliveredIds(Restored(c, s.log).messages) == DeliveredIds(s.messages[..SafeLength(s.messages)])
  {
    var read := Rebuilt(c, s.log).messages;
    hide DeliveredIds;
    ExternalFormsCompose(c, read, s.messages, s.messages);
    ShapeDecidesSafeLength(read, s.messages);
    FormsCarryIds(c, read[..SafeLength(read)], s.messages[..SafeLength(read)]);
  }

  /**
   Waking up leaves exactly the messages before the first unsafe place of what the log says. If the
   log rebuilds the session, these are the messages before the session's own first unsafe place.
   */
  lemma WakingForgetsIff(c: LogContext, s: SessionState, text: string, now: string, id: string)
    ensures id in DeliveredIds(Woken(c, s, text, now).messages) <==> id in DeliveredIds(Restored(c, s.log).messages)
    ensures Replayable(c, s) ==>
        (id in DeliveredIds(Woken(c, s, text, now).messages) <==>
         id in DeliveredIds(s.messages[..SafeLength(s.messages)]))
  {
    hide Woken, DeliveredIds, Restored, SafeLength, Replayable;
    WokenHolds(c, s, text, now);
    if Replayable(c, s) { ReplayableGivesBack(c, s); }
  }
}
