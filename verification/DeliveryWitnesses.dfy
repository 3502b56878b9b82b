/**
 A run from a new team in which a message enters its member's session twice, and one in which an
 acknowledged message is lost: the member's process stops in its tool phase, and later once more.
 */
module DeliveryWitnesses {
  import opened Wrappers
  import opened ChatHistory
  import opened Session
  import opened MemberSession
  import opened Delivery

  const M: string := "m"

  function Event(): OutboxEvent {
    OutboxEvent("e", "lead", "message", [M], "body", "summary", None, None, None, "t", [])
  }

  function Id(ids: Ids): string {
    DeliveryId(ids, "e", M)
  }

  function Call(): ChatMessage {
    ChatMessage(Assistant, "", None, [ToolCall("c", "read", map[], "", None)], None, false, None, None)
  }

  lemma Next(ids: Ids, w: World, a: Action) returns (v: World)
    requires Reachable(ids, w) && Enabled(ids, w, a)
    ensures v == Delivery.After(ids, w, a) && Reachable(ids, v)
  {
    v := Delivery.After(ids, w, a);
    NextIsReachable(ids, w, a);
  }

  function Waiting(ids: Ids): seq<TeamMessage> {
    [MessageFor(ids, Event(), M)]
  }

  lemma Posted(ids: Ids) returns (w: World)
    ensures Reachable(ids, w)
    ensures w == World([[Event()]], map[M := []], map[M := SessionState([], None, [])], map[M := []])
  {
    var start := World([[]], map[M := []], map[M := SessionState([], None, [])], map[M := []]);
    StartIsReachable(ids, start);
    w := Next(ids, start, Post(0, Event()));
    assert [] + [Event()] == [Event()];
  }

  /** A message waits in the member's mailbox. */
  lemma Delivered(ids: Ids) returns (w: World)
    ensures Reachable(ids, w)
    ensures w == World([[Event()]], map[M := Waiting(ids)], map[M := SessionState([], None, [])], map[M := []])
  {
    var w0 := Posted(ids);
    assert w0.outboxes[0][0] == Event() && Event().recipients[0] == M;
    w := Next(ids, w0, Deliver(0, 0, M));
    assert [] + Waiting(ids) == Waiting(ids);
  }

  /** The member's first run appended a message with a call, and stopped before its results were in. */
  function CutOff(ids: Ids, now: string): SessionState {
    Session.After(ids.log, Woken(ids.log, SessionState([], None, []), "", now), Append(Call(), now))
  }

  /** The log says what the first run has appended. */
  lemma CutOffMessages(ids: Ids, now: string)
    requires ValidTime(ids.log, now)
    ensures Rebuilt(ids.log, CutOff(ids, now).log).messages == [WakeUpCall("")] + [Call()]
  {
    var s0, p := SessionState([], None, []), WakeUpCall("");
    assert Rebuilt(ids.log, s0.log).messages == [] && Restored(ids.log, s0.log) == s0;
    hide Rebuilt, Restored, Call, WakeUpCall;
    OpReadsBack(ids.log, s0, Append(p, now));
    assert [] + [p] == [p];
    OpReadsBack(ids.log, Woken(ids.log, s0, "", now), Append(Call(), now));
  }

  lemma CutOffLog(ids: Ids, now: string)
    requires ValidTime(ids.log, now)
    ensures !Safe(Rebuilt(ids.log, CutOff(ids, now).log).messages)
    ensures DeliveredIds(Restored(ids.log, CutOff(ids, now).log).messages) == []
  {
    var p := WakeUpCall("");
    var ms := [p] + [Call()];
    CutOffMessages(ids, now);
    PlainMessageIsSafe(p);
    DeliveredByAppend([], p);
    assert IdOf(p) == None && [] + [p] == [p];
    hide CutOff, Rebuilt, WakeUpCall;
    assert ms[..1] == [p] && ms + [] == ms;
    DanglingStays(ms, []);
  }

  /** The first run has stopped. */
  lemma Stopped(ids: Ids, now: string) returns (w: World)
    requires ValidTime(ids.log, now)
    ensures Reachable(ids, w)
    ensures w == World([[Event()]], map[M := Waiting(ids)], map[M := CutOff(ids, now)], map[M := []])
  {
    var w0 := Delivered(ids);
    var w1 := Next(ids, w0, Wake(M, "", now));
    w := Next(ids, w1, Work(M, Append(Call(), now)));
  }

  /** The second run starts behind the unanswered call. */
  function SecondRun(ids: Ids, now: string): SessionState {
    Woken(ids.log, CutOff(ids, now), "", now)
  }

  lemma SecondRunIsStuck(ids: Ids, now: string)
    requires ValidTime(ids.log, now)
    ensures Stuck(Rebuilt(ids.log, SecondRun(ids, now).log).messages)
    ensures DeliveredIds(Restored(ids.log, SecondRun(ids, now).log).messages) == []
        && DeliveredIds(SecondRun(ids, now).messages) == []
  {
    CutOffLog(ids, now);
    WakingFromUnsafeLog(ids.log, CutOff(ids, now), "", now);
    DeliveredByAppend(Restored(ids.log, CutOff(ids, now).log).messages, WakeUpCall(""));
  }

  lemma Resumed(ids: Ids, now: string) returns (w: World)
    requires ValidTime(ids.log, now)
    ensures Reachable(ids, w)
    ensures w == World([[Event()]], map[M := Waiting(ids)], map[M := SecondRun(ids, now)], map[M := []])
  {
    var w0 := Stopped(ids, now);
    w := Next(ids, w0, Wake(M, "", now));
  }

  lemma EnteredIsForgettable(ids: Ids, now: string)
    requires ValidTime(ids.log, now)
    ensures
      var s := Entered(ids, SecondRun(ids, now), Id(ids), now);
      DeliveredIds(s.messages) == [Id(ids)] && DeliveredIds(Restored(ids.log, s.log).messages) == []
  {
    hide CutOff, Woken, Restored, DeliveredIds, Stuck;
    var m := FromMailbox(Id(ids), ids.render(Id(ids)));
    SecondRunIsStuck(ids, now);
    DeliveredByAppend(SecondRun(ids, now).messages, m);
    StuckLogGivesTheSame(ids.log, SecondRun(ids, now), m, now);
    assert [] + [Id(ids)] == [Id(ids)];
  }

  /** The second run puts the message into the session. */
  lemma EnteredBehindTheCall(ids: Ids, now: string) returns (w: World)
    requires ValidTime(ids.log, now)
    ensures Reachable(ids, w) && w.mailboxes == map[M := Waiting(ids)] && M in w.session
        && w.entered == map[M := [Id(ids)]]
    ensures Held(w, M) == [Id(ids)] && DeliveredIds(Restored(ids.log, w.session[M].log).messages) == []
  {
    hide SecondRun, Restored, DeliveredIds, Reachable;
    var w0 := Resumed(ids, now);
    SecondRunIsStuck(ids, now);
    MessageIsUnread(ids, w0);
    w := Next(ids, w0, Enter(M, Id(ids), now));
    assert w.session[M] == Entered(ids, SecondRun(ids, now), Id(ids), now);
    EnteredIsForgettable(ids, now);
    assert [] + [Id(ids)] == [Id(ids)];
  }

  lemma MessageIsUnread(ids: Ids, w: World)
    requires w.mailboxes == map[M := Waiting(ids)]
    ensures IsUnread(w, M, Id(ids)) && Holds(w, M, Id(ids))
  {
    assert w.mailboxes[M][0].id == Id(ids);
  }

  /**
   Waking up from a log that is stuck, with nothing from the mailbox in its safe part, forgets what
   was in the session.
   */
  lemma ForgottenByWaking(ids: Ids, w: World, now: string) returns (v: World)
    requires Reachable(ids, w) && ValidTime(ids.log, now) && M in w.session
    requires DeliveredIds(Restored(ids.log, w.session[M].log).messages) == []
    ensures Steps(ids, w, Wake(M, "", now), v) && Reachable(ids, v) && M in v.session && Held(v, M) == []
  {
    v := Next(ids, w, Wake(M, "", now));
    DeliveredByAppend(Restored(ids.log, w.session[M].log).messages, WakeUpCall(""));
  }

  /** The message has entered, and waking up has forgotten it before it was acknowledged. */
  lemma Forgotten(ids: Ids, now: string) returns (w: World)
    requires ValidTime(ids.log, now)
    ensures Reachable(ids, w) && w.mailboxes == map[M := Waiting(ids)] && M in w.session
        && w.entered == map[M := [Id(ids)]]
    ensures Held(w, M) == []
  {
    hide DeliveredIds, Restored, Reachable;
    var w0 := EnteredBehindTheCall(ids, now);
    w := ForgottenByWaking(ids, w0, now);
  }

  /** The process stops before the message is acknowledged: it is forgotten, and enters a second time. */
  lemma ForgottenUnreadEntersTwice(ids: Ids, now: string) returns (w: World, v: World)
    requires ValidTime(ids.log, now)
    ensures Reachable(ids, w) && Steps(ids, w, Enter(M, Id(ids), now), v) && Reachable(ids, v)
    ensures M in v.entered && v.entered[M] == [Id(ids), Id(ids)]
  {
    hide DeliveredIds, Restored, Reachable;
    w := Forgotten(ids, now);
    MessageIsUnread(ids, w);
    v := Next(ids, w, Enter(M, Id(ids), now));
    assert [Id(ids)] + [Id(ids)] == [Id(ids), Id(ids)];
  }

  /** The process stops after the message was acknowledged: it is forgotten, and never comes back. */
  lemma AcknowledgedThenForgotten(ids: Ids, now: string) returns (w: World)
    requires ValidTime(ids.log, now)
    ensures Reachable(ids, w) && Lost(w, M, Id(ids))
  {
    hide DeliveredIds, Restored, Reachable;
    var w0 := EnteredBehindTheCall(ids, now);
    var w1 := Next(ids, w0, Acknowledge(M, [Id(ids)]));
    assert w1.mailboxes[M][0].id == Id(ids) && w1.mailboxes[M][0].read && |w1.mailboxes[M]| == 1;
    w := ForgottenByWaking(ids, w1, now);
  }
}
