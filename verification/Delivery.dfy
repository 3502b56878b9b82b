/**
 Outboxes, mailboxes and member sessions (`teams/events.py`, `teams/mailbox.py`,
 `teams/sessions.py`). Every action is one locked change of one file; dispatchers and readers
 interleave freely, and any of them may stop between two actions.
 */
module Delivery {
  import opened Wrappers
  import opened Session
  import opened MemberSession

  datatype OutboxEvent = OutboxEvent(
    id: string, sender: string, protocol: string, recipients: seq<string>, body: string, summary: string,
    taskId: Option<string>, approvalId: Option<string>, planVersion: Option<int>, createdAt: string,
    deliveredTo: seq<string>)

  datatype TeamMessage = TeamMessage(
    id: string, sender: string, recipient: string, protocol: string, body: string, summary: string, timestamp: string,
    read: bool, taskId: Option<string>, approvalId: Option<string>, planVersion: Option<int>)

  /**
   `digest` stands for the hash; `isDelivery` tells the ids made with it from the random ids of direct
   messages. `render` is how a message reads in a session, and `log` how session logs are read.
   */
  datatype Ids = Ids(digest: string -> string, isDelivery: string -> bool, render: string -> string, log: LogContext)

  ghost predicate IdsOk(ids: Ids) {
    && (forall a, b :: ids.digest(a) == ids.digest(b) ==> a == b)
    && (forall a :: ids.isDelivery(ids.digest(a)))
  }

  /**
   The files, and each member's session as its process holds it, or has last held it. `entered` lists
   what was ever put into the session from the mailbox.
   */
  datatype World = World(
    outboxes: seq<seq<OutboxEvent>>, mailboxes: map<string, seq<TeamMessage>>,
    session: map<string, SessionState>, entered: map<string, seq<string>>)

  /** The mailbox messages that a member's session holds. */
  function Held(w: World, name: string): seq<string>
    requires name in w.session
  {
    DeliveredIds(w.session[name].messages)
  }

  const NUL: char := '\0'

  /** `_delivery_id` */
  function DeliveryId(ids: Ids, eventId: string, recipient: string): string {
    ids.digest(eventId + [NUL] + recipient)
  }

  /** Different events or recipients get different ids: no event id contains the separator. */
  lemma {:induction false} DeliveryIdsDiffer(ids: Ids, e: string, r: string, e': string, r': string)
    requires IdsOk(ids) && NUL !in e && NUL !in e'
    requires DeliveryId(ids, e, r) == DeliveryId(ids, e', r')
    ensures e == e' && r == r'
  {
    var a, b := e + [NUL] + r, e' + [NUL] + r';
    assert a == b;
    assert a[|e|] == NUL && b[|e'|] == NUL;
    assert forall k | 0 <= k < |e'| :: b[k] == e'[k] && e'[k] in e';
    assert forall k | 0 <= k < |e| :: a[k] == e[k] && e[k] in e;
    assert e == a[..|e|] && e' == b[..|e'|];
    assert r == a[|e| + 1..] && r' == b[|e'| + 1..];
  }

  function MessageFor(ids: Ids, e: OutboxEvent, recipient: string): TeamMessage {
    TeamMessage(DeliveryId(ids, e.id, recipient), e.sender, recipient, e.protocol, e.body, e.summary, e.createdAt,
                false, e.taskId, e.approvalId, e.planVersion)
  }

  predicate HasId(box: seq<TeamMessage>, id: string) {
    exists i :: 0 <= i < |box| && box[i].id == id
  }

  predicate Holds(w: World, recipient: string, id: string) {
    recipient in w.mailboxes && HasId(w.mailboxes[recipient], id)
  }

  /** `message` without regard to whether it was read. */
  predicate SameMessage(a: TeamMessage, b: TeamMessage) {
    a == b.(read := a.read)
  }

  // ---------------------------------------------------------------------------
  // Actions
  // ---------------------------------------------------------------------------

  datatype Action =
    | Post(source: nat, event: OutboxEvent)
    | SendDirect(message: TeamMessage)
    | Deliver(from: nat, index: nat, recipient: string)
    | Mark(source: nat, eventId: string, recipient: string)
    | Enter(name: string, id: string, now: string)
    | Acknowledge(name: string, read: seq<string>)
    | Work(name: string, op: SessionOp)
    | Wake(name: string, text: string, now: string)

  predicate EventIdUsed(w: World, id: string) {
    exists s, k :: 0 <= s < |w.outboxes| && 0 <= k < |w.outboxes[s]| && w.outboxes[s][k].id == id
  }

  predicate IsUnread(w: World, name: string, id: string) {
    name in w.mailboxes && exists i ::
      0 <= i < |w.mailboxes[name]| && w.mailboxes[name][i].id == id && !w.mailboxes[name][i].read
  }

  /**
   What a member's turn does to its session besides reading the mailbox. A compaction keeps the
   latest messages, and it runs after the unread messages were acknowledged.
   */
  predicate WorkMay(ids: Ids, w: World, name: string, op: SessionOp) {
    && name in w.session && Allowed(ids.log, w.session[name], op)
    && (op.Append? ==> IdOf(op.message) == None)
    && (op.HeavyCompact? ==>
          KeepsLatest(w.session[name], op.kept) && forall id | id in Held(w, name) :: !IsUnread(w, name, id))
  }

  predicate Enabled(ids: Ids, w: World, a: Action) {
    match a
    case Post(s, e) => s < |w.outboxes| && !EventIdUsed(w, e.id) && NUL !in e.id && e.deliveredTo == []
    case SendDirect(m) => m.recipient in w.mailboxes && !ids.isDelivery(m.id) && !m.read
    case Deliver(s, k, r) => s < |w.outboxes| && k < |w.outboxes[s]| && r in w.outboxes[s][k].recipients
      && r in w.mailboxes
    case Mark(s, id, r) =>
      && s < |w.outboxes|
      && (forall k | 0 <= k < |w.outboxes[s]| && w.outboxes[s][k].id == id ::
            r in w.outboxes[s][k].recipients && Holds(w, r, DeliveryId(ids, id, r)))
    case Enter(name, id, now) => name in w.session && name in w.entered && IsUnread(w, name, id)
      && ValidTime(ids.log, now)
    case Acknowledge(name, read) =>
      name in w.mailboxes && name in w.session && forall i | 0 <= i < |read| :: read[i] in Held(w, name)
    case Work(name, op) => WorkMay(ids, w, name, op)
    case Wake(name, _, now) => name in w.session && ValidTime(ids.log, now)
  }

  function Delivered(box: seq<TeamMessage>, m: TeamMessage): seq<TeamMessage> {
    if HasId(box, m.id) then box else box + [m]
  }

  function Marked(events: seq<OutboxEvent>, id: string, r: string): (marked: seq<OutboxEvent>)
    ensures |marked| == |events|
    ensures forall k | 0 <= k < |events| ::
        marked[k] == if events[k].id == id && r !in events[k].deliveredTo
          then events[k].(deliveredTo := events[k].deliveredTo + [r]) else events[k]
  {
    seq(|events|, k requires 0 <= k < |events| =>
      if events[k].id == id && r !in events[k].deliveredTo then events[k].(deliveredTo := events[k].deliveredTo + [r])
        else events[k])
  }

  function Acknowledged(box: seq<TeamMessage>, read: seq<string>): (r: seq<TeamMessage>)
    ensures |r| == |box| && forall i | 0 <= i < |box| ::
        r[i] == if box[i].id in read then box[i].(read := true) else box[i]
  {
    seq(|box|, i requires 0 <= i < |box| => if box[i].id in read then box[i].(read := true) else box[i])
  }

  function After(ids: Ids, w: World, a: Action): World
    requires Enabled(ids, w, a)
  {
    match a
    case Post(s, e) => w.(outboxes := w.outboxes[s := w.outboxes[s] + [e]])
    case SendDirect(m) => w.(mailboxes := w.mailboxes[m.recipient := Delivered(w.mailboxes[m.recipient], m)])
    case Deliver(s, k, r) =>
      w.(mailboxes := w.mailboxes[r := Delivered(w.mailboxes[r], MessageFor(ids, w.outboxes[s][k], r))])
    case Mark(s, id, r) => w.(outboxes := w.outboxes[s := Marked(w.outboxes[s], id, r)])
    case Enter(name, id, now) =>
      if id in Held(w, name) then w
      else w.(session := w.session[name := Entered(ids, w.session[name], id, now)],
              entered := w.entered[name := w.entered[name] + [id]])
    case Acknowledge(name, read) => w.(mailboxes := w.mailboxes[name := Acknowledged(w.mailboxes[name], read)])
    case Work(name, op) => w.(session := w.session[name := Session.After(ids.log, w.session[name], op)])
    case Wake(name, text, now) => w.(session := w.session[name := Woken(ids.log, w.session[name], text, now)])
  }

  /** The session with one more message from the mailbox. */
  function Entered(ids: Ids, s: SessionState, id: string, now: string): SessionState {
    Session.After(ids.log, s, Append(FromMailbox(id, ids.render(id)), now))
  }

  // ---------------------------------------------------------------------------
  // The invariant
  // ---------------------------------------------------------------------------

  ghost predicate EventsOk(w: World) {
    && (forall s, k | 0 <= s < |w.outboxes| && 0 <= k < |w.outboxes[s]| :: NUL !in w.outboxes[s][k].id)
    && (forall s, k, t, l | 0 <= s < |w.outboxes| && 0 <= k < |w.outboxes[s]| && 0 <= t < |w.outboxes|
        && 0 <= l < |w.outboxes[t]| ::
          w.outboxes[s][k].id == w.outboxes[t][l].id ==> s == t && k == l)
  }

  ghost predicate NoTwin(box: seq<TeamMessage>) {
    forall i, j | 0 <= i < j < |box| :: box[i].id != box[j].id
  }

  /** The message was made from an event for this recipient, and says what the event says. */
  ghost predicate Genuine(ids: Ids, w: World, r: string, m: TeamMessage) {
    exists s, k :: 0 <= s < |w.outboxes| && 0 <= k < |w.outboxes[s]| && MadeFrom(ids, w.outboxes[s][k], r, m)
  }

  ghost predicate MadeFrom(ids: Ids, e: OutboxEvent, r: string, m: TeamMessage) {
    r in e.recipients && SameMessage(m, MessageFor(ids, e, r))
  }

  ghost predicate BoxOk(ids: Ids, w: World, r: string)
    requires r in w.mailboxes
  {
    && NoTwin(w.mailboxes[r])
    && (forall i | 0 <= i < |w.mailboxes[r]| && ids.isDelivery(w.mailboxes[r][i].id) ::
        Genuine(ids, w, r, w.mailboxes[r][i]))
  }

  /** Whoever an event counts as delivered to holds its message. */
  ghost predicate MarksOk(ids: Ids, w: World, e: OutboxEvent) {
    && (forall i | 0 <= i < |e.deliveredTo| ::
        e.deliveredTo[i] in e.recipients && Holds(w, e.deliveredTo[i], DeliveryId(ids, e.id, e.deliveredTo[i])))
    && (forall i, j | 0 <= i < j < |e.deliveredTo| :: e.deliveredTo[i] != e.deliveredTo[j])
  }

  function EnteredSet(w: World, name: string): set<string>
    requires name in w.entered
  {
    set id | id in w.entered[name]
  }

  /** Neither a member's session nor what its log gives back holds a message twice, or one that never entered. */
  ghost predicate MemberOk(ids: Ids, w: World, name: string)
    requires name in w.session && name in w.entered
  {
    Tidy(ids.log, w.session[name], EnteredSet(w, name))
  }

  /** What a member has read has entered its session. */
  ghost predicate ReadOk(w: World, name: string)
    requires name in w.mailboxes && name in w.entered
  {
    forall i | 0 <= i < |w.mailboxes[name]| && w.mailboxes[name][i].read :: w.mailboxes[name][i].id in w.entered[name]
  }

  ghost predicate Inv(ids: Ids, w: World) {
    && EventsOk(w)
    && (forall r | r in w.mailboxes :: BoxOk(ids, w, r))
    && (forall s, k | 0 <= s < |w.outboxes| && 0 <= k < |w.outboxes[s]| :: MarksOk(ids, w, w.outboxes[s][k]))
    && w.session.Keys == w.entered.Keys && w.mailboxes.Keys <= w.entered.Keys
    && (forall name | name in w.session :: MemberOk(ids, w, name))
    && (forall name | name in w.mailboxes :: ReadOk(w, name))
  }

  // ---------------------------------------------------------------------------
  // Every action keeps it
  // ---------------------------------------------------------------------------

  /** The events are the same but for whom they were delivered to, and new ones may follow. */
  ghost predicate SameEvents(w: World, v: World) {
    && |v.outboxes| == |w.outboxes|
    && forall s | 0 <= s < |w.outboxes| :: |w.outboxes[s]| <= |v.outboxes[s]| && SameAll(w.outboxes[s], v.outboxes[s])
  }

  ghost predicate SameAll(a: seq<OutboxEvent>, b: seq<OutboxEvent>)
    requires |a| <= |b|
  {
    forall k | 0 <= k < |a| :: SameEvent(a[k], b[k])
  }

  predicate SameEvent(a: OutboxEvent, b: OutboxEvent) {
    b == a.(deliveredTo := b.deliveredTo)
  }

  lemma GenuineStays(ids: Ids, w: World, v: World, r: string, m: TeamMessage)
    requires Genuine(ids, w, r, m) && SameEvents(w, v)
    ensures Genuine(ids, v, r, m)
  {
    var s, k :| 0 <= s < |w.outboxes| && 0 <= k < |w.outboxes[s]| && MadeFrom(ids, w.outboxes[s][k], r, m);
    assert SameAll(w.outboxes[s], v.outboxes[s]) && SameEvent(w.outboxes[s][k], v.outboxes[s][k]);
    assert MadeFrom(ids, v.outboxes[s][k], r, m);
  }

  lemma BoxesStay(ids: Ids, w: World, v: World)
    requires forall r | r in w.mailboxes :: BoxOk(ids, w, r)
    requires SameEvents(w, v) && v.mailboxes == w.mailboxes
    ensures forall r | r in v.mailboxes :: BoxOk(ids, v, r)
  {
    forall r | r in v.mailboxes ensures BoxOk(ids, v, r) {
      assert BoxOk(ids, w, r);
      forall i | 0 <= i < |v.mailboxes[r]| && ids.isDelivery(v.mailboxes[r][i].id)
        ensures Genuine(ids, v, r, v.mailboxes[r][i])
      {
        GenuineStays(ids, w, v, r, w.mailboxes[r][i]);
      }
    }
  }

  /** Nobody loses a message. */
  ghost predicate KeepsHeld(w: World, v: World) {
    forall r, id | Holds(w, r, id) :: Holds(v, r, id)
  }

  lemma MarksStay(ids: Ids, w: World, v: World)
    requires forall s, k | 0 <= s < |w.outboxes| && 0 <= k < |w.outboxes[s]| :: MarksOk(ids, w, w.outboxes[s][k])
    requires v.outboxes == w.outboxes && KeepsHeld(w, v)
    ensures forall s, k | 0 <= s < |v.outboxes| && 0 <= k < |v.outboxes[s]| :: MarksOk(ids, v, v.outboxes[s][k])
  {
    forall s, k | 0 <= s < |v.outboxes| && 0 <= k < |v.outboxes[s]| ensures MarksOk(ids, v, v.outboxes[s][k]) {
      assert MarksOk(ids, w, w.outboxes[s][k]);
    }
  }

  lemma MembersStay(ids: Ids, w: World, v: World)
    requires w.session.Keys == w.entered.Keys && v.session == w.session && v.entered == w.entered
    requires forall name | name in w.session :: MemberOk(ids, w, name)
    ensures forall name | name in v.session :: MemberOk(ids, v, name)
  {
    forall name | name in v.session ensures MemberOk(ids, v, name) { assert MemberOk(ids, w, name); }
  }

  lemma PostKeeps(ids: Ids, w: World, a: Action)
    requires a.Post? && Inv(ids, w) && Enabled(ids, w, a)
    ensures Inv(ids, After(ids, w, a))
  {
    var v := After(ids, w, a);
    assert forall s | 0 <= s < |w.outboxes| :: SameAll(w.outboxes[s], v.outboxes[s]);
    hide MemberOk;
    BoxesStay(ids, w, v);
    MembersStay(ids, w, v);
    forall s, k | 0 <= s < |v.outboxes| && 0 <= k < |v.outboxes[s]| ensures MarksOk(ids, v, v.outboxes[s][k]) {
      if k < |w.outboxes[s]| { MarksStayOk(ids, w, v, w.outboxes[s][k]); }
    }
    forall name | name in v.mailboxes ensures ReadOk(v, name) { assert ReadOk(w, name); }
  }

  lemma HeldAfterDelivery(w: World, v: World, r: string, m: TeamMessage)
    requires r in w.mailboxes && v.mailboxes == w.mailboxes[r := Delivered(w.mailboxes[r], m)]
    ensures KeepsHeld(w, v) && Holds(v, r, m.id)
  {
    if !HasId(w.mailboxes[r], m.id) { assert v.mailboxes[r][|w.mailboxes[r]|] == m; }
    forall q, id | Holds(w, q, id) ensures Holds(v, q, id) {
      var i :| 0 <= i < |w.mailboxes[q]| && w.mailboxes[q][i].id == id;
      assert v.mailboxes[q][i].id == id;
    }
  }

  lemma BoxAfterDelivery(ids: Ids, w: World, v: World, r: string, m: TeamMessage, q: string)
    requires r in w.mailboxes && v == w.(mailboxes := w.mailboxes[r := Delivered(w.mailboxes[r], m)])
    requires !m.read && (ids.isDelivery(m.id) ==> Genuine(ids, w, r, m))
    requires q in w.mailboxes && q in w.entered && BoxOk(ids, w, q) && ReadOk(w, q)
    ensures BoxOk(ids, v, q) && ReadOk(v, q)
  {
    assert forall s | 0 <= s < |w.outboxes| :: SameAll(w.outboxes[s], v.outboxes[s]);
    forall i | 0 <= i < |v.mailboxes[q]| && ids.isDelivery(v.mailboxes[q][i].id)
      ensures Genuine(ids, v, q, v.mailboxes[q][i])
    {
      GenuineStays(ids, w, v, q, v.mailboxes[q][i]);
    }
  }

  /** An unread message is put into one mailbox, unless one with its id is there. */
  lemma DeliveryKeeps(ids: Ids, w: World, v: World, r: string, m: TeamMessage)
    requires Inv(ids, w) && r in w.mailboxes && v == w.(mailboxes := w.mailboxes[r := Delivered(w.mailboxes[r], m)])
    requires !m.read && (ids.isDelivery(m.id) ==> Genuine(ids, w, r, m))
    ensures Inv(ids, v)
  {
    HeldAfterDelivery(w, v, r, m);
    MarksStay(ids, w, v);
    MembersStay(ids, w, v);
    forall q | q in v.mailboxes ensures BoxOk(ids, v, q) && ReadOk(v, q) {
      BoxAfterDelivery(ids, w, v, r, m, q);
    }
  }

  lemma DeliverKeeps(ids: Ids, w: World, a: Action)
    requires a.Deliver? || a.SendDirect?
    requires Inv(ids, w) && Enabled(ids, w, a)
    ensures Inv(ids, After(ids, w, a))
  {
    if a.SendDirect? {
      DeliveryKeeps(ids, w, After(ids, w, a), a.message.recipient, a.message);
    } else {
      var m := MessageFor(ids, w.outboxes[a.from][a.index], a.recipient);
      assert MadeFrom(ids, w.outboxes[a.from][a.index], a.recipient, m);
      DeliveryKeeps(ids, w, After(ids, w, a), a.recipient, m);
    }
  }

  /** A mark adds the recipient to the events with its id, and changes nothing else. */
  lemma MarkAdds(ids: Ids, w: World, a: Action, v: World)
    requires a.Mark? && Enabled(ids, w, a) && v == After(ids, w, a)
    ensures v == w.(outboxes := v.outboxes) && |v.outboxes| == |w.outboxes|
    ensures forall s | 0 <= s < |w.outboxes| :: |v.outboxes[s]| == |w.outboxes[s]|
    ensures forall s, k | 0 <= s < |w.outboxes| && 0 <= k < |w.outboxes[s]| ::
        v.outboxes[s][k] == w.outboxes[s][k]
        || (v.outboxes[s][k] == w.outboxes[s][k].(deliveredTo := w.outboxes[s][k].deliveredTo + [a.recipient])
            && a.recipient !in w.outboxes[s][k].deliveredTo && a.recipient in w.outboxes[s][k].recipients
            && Holds(w, a.recipient, DeliveryId(ids, w.outboxes[s][k].id, a.recipient)))
  {
  }

  lemma MarkedIsOk(ids: Ids, w: World, v: World, e: OutboxEvent, r: string)
    requires MarksOk(ids, w, e) && v.mailboxes == w.mailboxes && r !in e.deliveredTo && r in e.recipients
    requires Holds(w, r, DeliveryId(ids, e.id, r))
    ensures MarksOk(ids, v, e.(deliveredTo := e.deliveredTo + [r]))
  {
  }

  lemma MarkKeeps(ids: Ids, w: World, a: Action)
    requires a.Mark? && Inv(ids, w) && Enabled(ids, w, a)
    ensures Inv(ids, After(ids, w, a))
  {
    var v := After(ids, w, a);
    MarkAdds(ids, w, a, v);
    hide After, Enabled, MemberOk, Holds, DeliveryId;
    assert SameEvents(w, v) by {
      forall s | 0 <= s < |w.outboxes| ensures SameAll(w.outboxes[s], v.outboxes[s]) { }
    }
    BoxesStay(ids, w, v);
    MembersStay(ids, w, v);
    MarkKeepsEvents(w, v);
    forall s, k | 0 <= s < |v.outboxes| && 0 <= k < |v.outboxes[s]| ensures MarksOk(ids, v, v.outboxes[s][k]) {
      assert MarksOk(ids, w, w.outboxes[s][k]);
      if v.outboxes[s][k] != w.outboxes[s][k] {
        MarkedIsOk(ids, w, v, w.outboxes[s][k], a.recipient);
      } else {
        MarksStayOk(ids, w, v, w.outboxes[s][k]);
      }
    }
    forall name | name in v.mailboxes ensures ReadOk(v, name) { assert ReadOk(w, name); }
  }

  lemma MarksStayOk(ids: Ids, w: World, v: World, e: OutboxEvent)
    requires MarksOk(ids, w, e) && v.mailboxes == w.mailboxes
    ensures MarksOk(ids, v, e)
  {
  }

  lemma MarkKeepsEvents(w: World, v: World)
    requires EventsOk(w) && SameEvents(w, v) && forall s | 0 <= s < |w.outboxes| :: |v.outboxes[s]| == |w.outboxes[s]|
    ensures EventsOk(v)
  {
    forall s, k | 0 <= s < |v.outboxes| && 0 <= k < |v.outboxes[s]| ensures v.outboxes[s][k].id == w.outboxes[s][k].id {
      assert SameAll(w.outboxes[s], v.outboxes[s]) && SameEvent(w.outboxes[s][k], v.outboxes[s][k]);
    }
  }

  lemma SameBoxesKeepHeld(w: World, v: World)
    requires v.mailboxes == w.mailboxes
    ensures KeepsHeld(w, v)
  {
  }

  lemma MemberStays(ids: Ids, w: World, v: World, name: string)
    requires name in w.session && name in w.entered && MemberOk(ids, w, name)
    requires name in v.session && name in v.entered && v.session[name] == w.session[name]
        && v.entered[name] == w.entered[name]
    ensures MemberOk(ids, v, name)
  {
    assert EnteredSet(v, name) == EnteredSet(w, name);
  }

  /** Only one member's session changes, and it is tidy afterwards. */
  lemma SessionChangeKeeps(ids: Ids, w: World, v: World, name: string)
    requires Inv(ids, w) && name in w.session && name in v.session && name in v.entered
    requires v == w.(session := w.session[name := v.session[name]], entered := w.entered[name := v.entered[name]])
    requires w.entered[name] <= v.entered[name] && MemberOk(ids, v, name)
    ensures Inv(ids, v)
  {
    hide MemberOk, MarksOk, BoxOk, Holds;
    assert forall s | 0 <= s < |w.outboxes| :: SameAll(w.outboxes[s], v.outboxes[s]);
    BoxesStay(ids, w, v);
    SameBoxesKeepHeld(w, v);
    MarksStay(ids, w, v);
    forall other | other in v.session ensures MemberOk(ids, v, other) {
      if other != name { MemberStays(ids, w, v, other); }
    }
    forall other | other in v.mailboxes ensures ReadOk(v, other) { assert ReadOk(w, other); }
  }

  lemma EnteringKeepsTidy(ids: Ids, s: SessionState, id: string, now: string, before: set<string>, after: set<string>)
    requires Tidy(ids.log, s, before) && ValidTime(ids.log, now) && before <= after && id in after
    requires id !in DeliveredIds(s.messages)
    ensures Tidy(ids.log, Entered(ids, s, id, now), after)
    ensures DeliveredIds(Entered(ids, s, id, now).messages) == DeliveredIds(s.messages) + [id]
  {
    var m := FromMailbox(id, ids.render(id));
    assert IdOf(m) == Some(id);
    hide Tidy, DeliveredIds, IdOf, FromMailbox;
    AppendKeepsTidy(ids.log, s, m, now, before, after);
  }

  lemma EnterKeepsMember(ids: Ids, w: World, v: World, a: Action)
    requires a.Enter? && Inv(ids, w) && Enabled(ids, w, a) && v == After(ids, w, a) && a.id !in Held(w, a.name)
    ensures MemberOk(ids, v, a.name) && Held(v, a.name) == Held(w, a.name) + [a.id]
  {
    assert MemberOk(ids, w, a.name);
    hide Inv, Tidy, DeliveredIds, Entered;
    assert a.id in v.entered[a.name];
    EnteringKeepsTidy(ids, w.session[a.name], a.id, a.now, EnteredSet(w, a.name), EnteredSet(v, a.name));
  }

  lemma EnterKeeps(ids: Ids, w: World, a: Action)
    requires a.Enter? && Inv(ids, w) && Enabled(ids, w, a)
    ensures Inv(ids, After(ids, w, a))
  {
    var v := After(ids, w, a);
    if a.id !in Held(w, a.name) {
      EnterKeepsMember(ids, w, v, a);
      SessionChangeKeeps(ids, w, v, a.name);
    }
  }

  lemma WorkKeepsMember(ids: Ids, w: World, v: World, a: Action)
    requires a.Work? && Inv(ids, w) && Enabled(ids, w, a) && v == After(ids, w, a)
    ensures MemberOk(ids, v, a.name)
    ensures !a.op.HeavyCompact? ==> Held(v, a.name) == Held(w, a.name)
  {
    var s, entered := w.session[a.name], EnteredSet(w, a.name);
    assert MemberOk(ids, w, a.name) && EnteredSet(v, a.name) == entered;
    if a.op.Append? {
      AppendKeepsTidy(ids.log, s, a.op.message, a.op.now, entered, entered);
    } else if WritesCheckpoint(a.op) {
      CheckpointKeepsTidy(ids.log, s, a.op, entered);
    } else {
      LightCompactionKeepsTidy(ids.log, s, a.op, entered);
    }
  }

  lemma WakeKeepsMember(ids: Ids, w: World, v: World, a: Action)
    requires a.Wake? && Inv(ids, w) && Enabled(ids, w, a) && v == After(ids, w, a)
    ensures MemberOk(ids, v, a.name)
  {
    assert MemberOk(ids, w, a.name) && EnteredSet(v, a.name) == EnteredSet(w, a.name);
    WakingKeepsTidy(ids.log, w.session[a.name], a.text, a.now, EnteredSet(w, a.name));
  }

  lemma WorkKeeps(ids: Ids, w: World, a: Action)
    requires a.Work? && Inv(ids, w) && Enabled(ids, w, a)
    ensures Inv(ids, After(ids, w, a))
  {
    var v := After(ids, w, a);
    assert a.name in w.session && a.name in w.entered && v.entered == w.entered[a.name := v.entered[a.name]];
    hide Inv, MemberOk, Held, WorkMay;
    WorkKeepsMember(ids, w, v, a);
    SessionChangeKeeps(ids, w, v, a.name);
  }

  lemma WakeKeeps(ids: Ids, w: World, a: Action)
    requires a.Wake? && Inv(ids, w) && Enabled(ids, w, a)
    ensures Inv(ids, After(ids, w, a))
  {
    var v := After(ids, w, a);
    assert a.name in w.session && a.name in w.entered && v.entered == w.entered[a.name := v.entered[a.name]];
    hide Inv, MemberOk, Held, WorkMay;
    WakeKeepsMember(ids, w, v, a);
    SessionChangeKeeps(ids, w, v, a.name);
  }

  lemma HeldHasEntered(ids: Ids, w: World, name: string, id: string)
    requires Inv(ids, w) && name in w.session && id in Held(w, name)
    ensures name in w.entered && id in w.entered[name]
  {
    assert MemberOk(ids, w, name);
    var i :| 0 <= i < |Held(w, name)| && Held(w, name)[i] == id;
    assert Held(w, name)[i] in EnteredSet(w, name);
  }

  lemma AcknowledgeKeepsHeld(w: World, v: World, name: string, read: seq<string>)
    requires name in w.mailboxes && v.mailboxes == w.mailboxes[name := Acknowledged(w.mailboxes[name], read)]
    ensures KeepsHeld(w, v)
  {
    forall q, id | Holds(w, q, id) ensures Holds(v, q, id) {
      var i :| 0 <= i < |w.mailboxes[q]| && w.mailboxes[q][i].id == id;
      assert v.mailboxes[q][i].id == id;
    }
  }

  lemma AcknowledgedBoxesStay(ids: Ids, w: World, v: World, name: string, read: seq<string>)
    requires forall r | r in w.mailboxes :: BoxOk(ids, w, r)
    requires name in w.mailboxes && v == w.(mailboxes := w.mailboxes[name := Acknowledged(w.mailboxes[name], read)])
    ensures forall r | r in v.mailboxes :: BoxOk(ids, v, r)
  {
    forall q | q in v.mailboxes ensures BoxOk(ids, v, q) {
      assert BoxOk(ids, w, q);
      forall i | 0 <= i < |v.mailboxes[q]| && ids.isDelivery(v.mailboxes[q][i].id)
        ensures Genuine(ids, v, q, v.mailboxes[q][i])
      {
        ReadGenuine(ids, w, v, q, w.mailboxes[q][i], v.mailboxes[q][i]);
      }
    }
  }

  /** What is acknowledged is in the session, so it has entered. */
  lemma AcknowledgedHasEntered(ids: Ids, w: World, v: World, name: string, read: seq<string>)
    requires Inv(ids, w) && name in w.mailboxes && name in w.session && forall i | 0 <= i < |read| ::
        read[i] in Held(w, name)
    requires v == w.(mailboxes := w.mailboxes[name := Acknowledged(w.mailboxes[name], read)])
    ensures forall q | q in v.mailboxes :: ReadOk(v, q)
  {
    forall i | 0 <= i < |read| ensures read[i] in w.entered[name] { HeldHasEntered(ids, w, name, read[i]); }
    forall q | q in v.mailboxes ensures ReadOk(v, q) { assert ReadOk(w, q); }
  }

  lemma AcknowledgeKeeps(ids: Ids, w: World, a: Action)
    requires a.Acknowledge? && Inv(ids, w) && Enabled(ids, w, a)
    ensures Inv(ids, After(ids, w, a))
  {
    var v := After(ids, w, a);
    AcknowledgeKeepsHeld(w, v, a.name, a.read);
    MarksStay(ids, w, v);
    MembersStay(ids, w, v);
    AcknowledgedBoxesStay(ids, w, v, a.name, a.read);
    AcknowledgedHasEntered(ids, w, v, a.name, a.read);
  }

  lemma ReadGenuine(ids: Ids, w: World, v: World, r: string, m: TeamMessage, m': TeamMessage)
    requires Genuine(ids, w, r, m) && v.outboxes == w.outboxes && SameMessage(m, m')
    ensures Genuine(ids, v, r, m')
  {
    var s, k :| 0 <= s < |w.outboxes| && 0 <= k < |w.outboxes[s]| && MadeFrom(ids, w.outboxes[s][k], r, m);
    assert MadeFrom(ids, v.outboxes[s][k], r, m');
  }

  lemma ActionKeepsInv(ids: Ids, w: World, a: Action)
    requires Inv(ids, w) && Enabled(ids, w, a)
    ensures Inv(ids, After(ids, w, a))
  {
    if a.Post? { PostKeeps(ids, w, a); }
    else if a.Deliver? || a.SendDirect? { DeliverKeeps(ids, w, a); }
    else if a.Mark? { MarkKeeps(ids, w, a); }
    else if a.Enter? { EnterKeeps(ids, w, a); }
    else if a.Acknowledge? { AcknowledgeKeeps(ids, w, a); }
    else if a.Work? { WorkKeeps(ids, w, a); }
    else { WakeKeeps(ids, w, a); }
  }

  // ---------------------------------------------------------------------------
  // Every run
  // ---------------------------------------------------------------------------

  /** A team that has just been made: nothing posted, empty mailboxes and sessions. */
  ghost predicate Initial(w: World) {
    && (forall s | 0 <= s < |w.outboxes| :: w.outboxes[s] == [])
    && (forall r | r in w.mailboxes :: w.mailboxes[r] == [])
    && w.session.Keys == w.entered.Keys && w.mailboxes.Keys <= w.entered.Keys
    && (forall name | name in w.session :: w.session[name] == SessionState([], None, []) && w.entered[name] == [])
  }

  ghost predicate Steps(ids: Ids, w: World, a: Action, v: World) {
    Enabled(ids, w, a) && v == After(ids, w, a)
  }

  ghost predicate FromStart(ids: Ids, worlds: seq<World>, actions: seq<Action>) {
    && |worlds| == |actions| + 1 && Initial(worlds[0])
    && forall k | 0 <= k < |actions| :: Steps(ids, worlds[k], actions[k], worlds[k + 1])
  }

  lemma InitialIsOk(ids: Ids, w: World)
    requires Initial(w)
    ensures Inv(ids, w)
  {
    forall name | name in w.session ensures MemberOk(ids, w, name) {
      SameForms(ids.log, []);
      ReplayableIsTidy(ids.log, SessionState([], None, []), EnteredSet(w, name));
    }
  }

  /** Wherever dispatchers and members stop and whatever interleaves, every world of every run is in order. */
  lemma {:induction false} RunKeepsInv(ids: Ids, worlds: seq<World>, actions: seq<Action>, k: nat)
    requires FromStart(ids, worlds, actions) && k < |worlds|
    ensures Inv(ids, worlds[k])
  {
    if k == 0 {
      InitialIsOk(ids, worlds[0]);
    } else {
      RunKeepsInv(ids, worlds, actions, k - 1);
      assert Steps(ids, worlds[k - 1], actions[k - 1], worlds[k]);
      ActionKeepsInv(ids, worlds[k - 1], actions[k - 1]);
    }
  }

  /** Some run leads to this world. */
  ghost predicate Reachable(ids: Ids, w: World) {
    exists worlds, actions :: FromStart(ids, worlds, actions) && worlds[|actions|] == w
  }

  lemma ReachableIsOk(ids: Ids, w: World)
    requires Reachable(ids, w)
    ensures Inv(ids, w)
  {
    var worlds, actions :| FromStart(ids, worlds, actions) && worlds[|actions|] == w;
    RunKeepsInv(ids, worlds, actions, |actions|);
  }

  lemma StartIsReachable(ids: Ids, w: World)
    requires Initial(w)
    ensures Reachable(ids, w)
  {
    assert FromStart(ids, [w], []);
  }

  lemma NextIsReachable(ids: Ids, w: World, a: Action)
    requires Reachable(ids, w) && Enabled(ids, w, a)
    ensures Reachable(ids, After(ids, w, a))
  {
    var worlds, actions :| FromStart(ids, worlds, actions) && worlds[|actions|] == w;
    var ws, acts := worlds + [After(ids, w, a)], actions + [a];
    forall k | 0 <= k < |acts| ensures Steps(ids, ws[k], acts[k], ws[k + 1]) {
      if k < |actions| { assert Steps(ids, worlds[k], actions[k], worlds[k + 1]); }
    }
    assert FromStart(ids, ws, acts);
  }

  // ---------------------------------------------------------------------------
  // What it is for
  // ---------------------------------------------------------------------------

  /** The one message of an event in a mailbox. */
  ghost predicate IsTheMessage(ids: Ids, box: seq<TeamMessage>, i: nat, e: OutboxEvent, r: string) {
    && i < |box| && SameMessage(box[i], MessageFor(ids, e, r))
    && forall j | 0 <= j < |box| && box[j].id == DeliveryId(ids, e.id, r) :: j == i
  }

  lemma GenuineIsFromEvent(ids: Ids, w: World, s: nat, k: nat, r: string, m: TeamMessage)
    requires IdsOk(ids) && EventsOk(w) && s < |w.outboxes| && k < |w.outboxes[s]|
    requires Genuine(ids, w, r, m) && m.id == DeliveryId(ids, w.outboxes[s][k].id, r)
    ensures SameMessage(m, MessageFor(ids, w.outboxes[s][k], r))
  {
    var t, l :| 0 <= t < |w.outboxes| && 0 <= l < |w.outboxes[t]| && MadeFrom(ids, w.outboxes[t][l], r, m);
    DeliveryIdsDiffer(ids, w.outboxes[s][k].id, r, w.outboxes[t][l].id, r);
  }

  /** A recipient that an event counts as delivered to holds the event's message, unaltered and exactly once. */
  lemma DeliveredExactlyOnce(ids: Ids, w: World, s: nat, k: nat, r: string) returns (i: nat)
    requires IdsOk(ids) && Reachable(ids, w) && s < |w.outboxes| && k < |w.outboxes[s]|
        && r in w.outboxes[s][k].deliveredTo
    ensures r in w.mailboxes && IsTheMessage(ids, w.mailboxes[r], i, w.outboxes[s][k], r)
  {
    ReachableIsOk(ids, w);
    var e := w.outboxes[s][k];
    assert MarksOk(ids, w, e);
    var j :| 0 <= j < |e.deliveredTo| && e.deliveredTo[j] == r;
    assert Holds(w, e.deliveredTo[j], DeliveryId(ids, e.id, e.deliveredTo[j]));
    i :| 0 <= i < |w.mailboxes[r]| && w.mailboxes[r][i].id == DeliveryId(ids, e.id, r);
    assert BoxOk(ids, w, r);
    GenuineIsFromEvent(ids, w, s, k, r, w.mailboxes[r][i]);
  }

  /** Even before it is marked, no mailbox ever holds two messages of one event. */
  lemma NeverTwice(ids: Ids, w: World, r: string, i: nat, j: nat, e: OutboxEvent)
    requires Reachable(ids, w) && r in w.mailboxes && i < |w.mailboxes[r]| && j < |w.mailboxes[r]|
    requires SameMessage(w.mailboxes[r][i], MessageFor(ids, e, r))
        && SameMessage(w.mailboxes[r][j], MessageFor(ids, e, r))
    ensures i == j
  {
    ReachableIsOk(ids, w);
    assert BoxOk(ids, w, r);
  }

  // ---------------------------------------------------------------------------
  // Nothing is taken back
  // ---------------------------------------------------------------------------

  predicate BoxGrows(a: seq<TeamMessage>, b: seq<TeamMessage>) {
    |a| <= |b| && forall i | 0 <= i < |a| :: SameMessage(a[i], b[i]) && (a[i].read ==> b[i].read)
  }

  ghost predicate BoxesGrow(w: World, v: World) {
    v.mailboxes.Keys == w.mailboxes.Keys && forall r | r in w.mailboxes :: BoxGrows(w.mailboxes[r], v.mailboxes[r])
  }

  predicate EventGrows(a: OutboxEvent, b: OutboxEvent) {
    SameEvent(a, b) && a.deliveredTo <= b.deliveredTo
  }

  ghost predicate EventsGrow(w: World, v: World) {
    && |v.outboxes| == |w.outboxes|
    && (forall s | 0 <= s < |w.outboxes| :: |w.outboxes[s]| <= |v.outboxes[s]|)
    && (forall s, k | 0 <= s < |w.outboxes| && 0 <= k < |w.outboxes[s]| ::
        EventGrows(w.outboxes[s][k], v.outboxes[s][k]))
  }

  ghost predicate EnteredGrows(w: World, v: World) {
    && v.entered.Keys == w.entered.Keys && v.session.Keys == w.session.Keys
    && forall name | name in w.entered :: w.entered[name] <= v.entered[name]
  }

  /** Messages stay in place and unaltered, a read one stays read, and a marked delivery stays marked. */
  ghost predicate Grows(w: World, v: World) {
    BoxesGrow(w, v) && EventsGrow(w, v) && EnteredGrows(w, v)
  }

  lemma ActionGrowsBoxes(ids: Ids, w: World, a: Action)
    requires Enabled(ids, w, a)
    ensures BoxesGrow(w, After(ids, w, a))
  {
  }

  lemma ActionGrowsEvents(ids: Ids, w: World, a: Action)
    requires Enabled(ids, w, a)
    ensures EventsGrow(w, After(ids, w, a))
  {
  }

  lemma ActionGrows(ids: Ids, w: World, a: Action)
    requires Enabled(ids, w, a)
    ensures Grows(w, After(ids, w, a))
  {
    ActionGrowsBoxes(ids, w, a);
    ActionGrowsEvents(ids, w, a);
  }

  lemma GrowsFurther(u: World, v: World, w: World)
    requires Grows(u, v) && Grows(v, w)
    ensures Grows(u, w)
  {
    forall r | r in u.mailboxes ensures BoxGrows(u.mailboxes[r], w.mailboxes[r]) {
      assert BoxGrows(u.mailboxes[r], v.mailboxes[r]) && BoxGrows(v.mailboxes[r], w.mailboxes[r]);
    }
    forall s, k | 0 <= s < |u.outboxes| && 0 <= k < |u.outboxes[s]|
      ensures EventGrows(u.outboxes[s][k], w.outboxes[s][k])
    {
      assert EventGrows(u.outboxes[s][k], v.outboxes[s][k]) && EventGrows(v.outboxes[s][k], w.outboxes[s][k]);
    }
  }

  lemma GrowthKeepsHeld(u: World, v: World, r: string, id: string)
    requires BoxesGrow(u, v) && Holds(u, r, id)
    ensures Holds(v, r, id)
  {
    var i :| 0 <= i < |u.mailboxes[r]| && u.mailboxes[r][i].id == id;
    assert BoxGrows(u.mailboxes[r], v.mailboxes[r]);
    assert v.mailboxes[r][i].id == id;
  }

  // ---------------------------------------------------------------------------
  // How often a message enters its member's session
  // ---------------------------------------------------------------------------

  lemma UnreadIsOld(ids: Ids, w: World, v: World, name: string, id: string)
    requires Grows(w, v) && Inv(ids, v) && Holds(w, name, id) && IsUnread(v, name, id)
    ensures IsUnread(w, name, id)
  {
    var i :| 0 <= i < |w.mailboxes[name]| && w.mailboxes[name][i].id == id;
    var j :| 0 <= j < |v.mailboxes[name]| && v.mailboxes[name][j].id == id && !v.mailboxes[name][j].read;
    assert BoxGrows(w.mailboxes[name], v.mailboxes[name]) && BoxOk(ids, v, name);
    assert v.mailboxes[name][i].id == id;
    assert i == j;
  }

  predicate InSession(w: World, name: string, id: string) {
    name in w.session && id in Held(w, name)
  }

  /** The step puts the message into the session. */
  predicate Enters(w: World, a: Action, name: string, id: string) {
    a.Enter? && a.name == name && a.id == id && !InSession(w, name, id)
  }

  /** The step drops the message from the session although it was not acknowledged. */
  predicate ForgetsUnread(w: World, v: World, name: string, id: string) {
    InSession(w, name, id) && !InSession(v, name, id) && IsUnread(v, name, id)
  }

  /** A turn changes no other member's session, and no mailbox. */
  lemma TurnElsewhere(ids: Ids, w: World, a: Action, v: World, name: string)
    requires Steps(ids, w, a, v) && (a.Work? || a.Wake?)
    ensures v.mailboxes == w.mailboxes && a.name in w.session && v.session.Keys == w.session.Keys
    ensures name != a.name && name in w.session ==> v.session[name] == w.session[name]
  {
  }

  /** What a member's work leaves of the mailbox messages in its session. */
  lemma WorkLeaves(ids: Ids, w: World, a: Action, v: World, id: string)
    requires Inv(ids, w) && Steps(ids, w, a, v) && a.Work?
    ensures a.name in w.session && a.name in v.session
    ensures id in Held(v, a.name) <==> id in if a.op.HeavyCompact? then DeliveredIds(a.op.kept) else Held(w, a.name)
    ensures id in Held(v, a.name) ==> id in Held(w, a.name)
  {
    hide DeliveredIds, Tidy;
    WorkKeepsMember(ids, w, v, a);
    if a.op.HeavyCompact? && id in DeliveredIds(a.op.kept) { KeptIsPart(w.session[a.name], a.op.kept, id); }
  }

  lemma WakeHoldsNoMore(ids: Ids, w: World, a: Action, v: World, id: string)
    requires Inv(ids, w) && Steps(ids, w, a, v) && a.Wake?
    ensures a.name in w.session && a.name in v.session
    ensures id in Held(v, a.name) ==> id in Held(w, a.name)
  {
    assert MemberOk(ids, w, a.name);
    hide DeliveredIds, Inv;
    WakingKeepsTidy(ids.log, w.session[a.name], a.text, a.now, EnteredSet(w, a.name));
  }

  lemma InLonger(xs: seq<string>, x: string, id: string)
    ensures id in xs + [x] <==> id in xs || id == x
  {
  }

  lemma PresenceByEnter(ids: Ids, w: World, a: Action, v: World, name: string, id: string)
    requires Inv(ids, w) && Steps(ids, w, a, v) && a.Enter?
    ensures InSession(v, name, id) <==> InSession(w, name, id) || Enters(w, a, name, id)
  {
    if a.name == name && a.id !in Held(w, name) {
      EnterKeepsMember(ids, w, v, a);
      hide Inv, MemberOk, DeliveredIds;
      InLonger(Held(w, name), a.id, id);
    } else {
      EnterElsewhere(ids, w, a, v, name);
    }
  }

  lemma EnterElsewhere(ids: Ids, w: World, a: Action, v: World, name: string)
    requires Steps(ids, w, a, v) && a.Enter? && (a.name != name || a.id in Held(w, name))
    ensures name in v.session <==> name in w.session
    ensures name in w.session ==> v.session[name] == w.session[name]
  {
  }

  lemma PresenceByTurn(ids: Ids, w: World, a: Action, v: World, name: string, id: string)
    requires Inv(ids, w) && Steps(ids, w, a, v) && (a.Work? || a.Wake?)
    ensures InSession(v, name, id) ==> InSession(w, name, id)
  {
    hide Inv, Steps, DeliveredIds;
    TurnElsewhere(ids, w, a, v, name);
    if a.Work? { WorkLeaves(ids, w, a, v, id); } else { WakeHoldsNoMore(ids, w, a, v, id); }
  }

  lemma PresenceElsewhere(ids: Ids, w: World, a: Action, v: World)
    requires Steps(ids, w, a, v) && !a.Enter? && !a.Work? && !a.Wake?
    ensures v.session == w.session
  {
  }

  /** What one step does to the presence of the message in the session. */
  lemma PresenceStep(ids: Ids, w: World, a: Action, v: World, name: string, id: string)
    requires Inv(ids, w) && Steps(ids, w, a, v)
    ensures !InSession(w, name, id) ==> (InSession(v, name, id) <==> Enters(w, a, name, id))
    ensures IsUnread(v, name, id) && Holds(w, name, id) ==> IsUnread(w, name, id)
  {
    hide Inv, Steps;
    StaysRead(ids, w, a, v, name, id);
    if a.Enter? { PresenceByEnter(ids, w, a, v, name, id); }
    else if a.Work? || a.Wake? { PresenceByTurn(ids, w, a, v, name, id); }
    else { PresenceElsewhere(ids, w, a, v); }
  }

  lemma StaysRead(ids: Ids, w: World, a: Action, v: World, name: string, id: string)
    requires Inv(ids, w) && Steps(ids, w, a, v)
    ensures IsUnread(v, name, id) && Holds(w, name, id) ==> IsUnread(w, name, id)
  {
    ActionKeepsInv(ids, w, a);
    ActionGrows(ids, w, a);
    hide Inv;
    if IsUnread(v, name, id) && Holds(w, name, id) { UnreadIsOld(ids, w, v, name, id); }
  }

  /** A compaction replaces only what was acknowledged. */
  lemma WorkForgetsRead(ids: Ids, w: World, a: Action, v: World, id: string)
    requires Steps(ids, w, a, v) && a.Work? && a.op.HeavyCompact? && InSession(w, a.name, id)
    ensures !IsUnread(v, a.name, id)
  {
    assert v.mailboxes == w.mailboxes;
  }

  /** Loading the member's log gives the message back. */
  predicate GivenBack(ids: Ids, w: World, name: string, id: string) {
    name in w.session && id in DeliveredIds(Restored(ids.log, w.session[name].log).messages)
  }

  /** Waking up leaves exactly what the log gives back. */
  lemma WakingLeaves(ids: Ids, w: World, a: Action, v: World, id: string)
    requires Steps(ids, w, a, v) && a.Wake?
    ensures InSession(v, a.name, id) <==> GivenBack(ids, w, a.name, id)
  {
    hide DeliveredIds, Restored;
    WakingForgetsIff(ids.log, w.session[a.name], a.text, a.now, id);
  }

  /** The member's heavy compaction keeps neither the message nor what comes before it. */
  predicate SummarisedAway(a: Action, name: string, id: string) {
    a.Work? && a.name == name && a.op.HeavyCompact? && id !in DeliveredIds(a.op.kept)
  }

  /** A message leaves the session exactly by waking up without it or by a heavy compaction without it. */
  lemma LeavesIff(ids: Ids, w: World, a: Action, v: World, name: string, id: string)
    requires Inv(ids, w) && Steps(ids, w, a, v) && InSession(w, name, id)
    ensures !InSession(v, name, id)
       <==> (a.Wake? && a.name == name && !GivenBack(ids, w, name, id)) || SummarisedAway(a, name, id)
  {
    hide Inv, Steps, DeliveredIds, GivenBack;
    if a.Enter? {
      PresenceByEnter(ids, w, a, v, name, id);
    } else if a.Work? || a.Wake? {
      TurnElsewhere(ids, w, a, v, name);
      if a.Work? { WorkLeaves(ids, w, a, v, id); } else { WakingLeaves(ids, w, a, v, id); }
    } else {
      PresenceElsewhere(ids, w, a, v);
    }
  }

  /** The member is woken up while the message is in its session unread, from a log that does not give it back. */
  predicate ForgetfulWake(ids: Ids, w: World, a: Action, name: string, id: string) {
    a.Wake? && a.name == name && InSession(w, name, id) && IsUnread(w, name, id) && !GivenBack(ids, w, name, id)
  }

  /** Exactly such a wake makes a session forget what was not acknowledged. */
  lemma ForgetsUnreadIff(ids: Ids, w: World, a: Action, v: World, name: string, id: string)
    requires Inv(ids, w) && Steps(ids, w, a, v)
    ensures ForgetsUnread(w, v, name, id) <==> ForgetfulWake(ids, w, a, name, id)
  {
    hide Inv, Steps, DeliveredIds, GivenBack;
    if InSession(w, name, id) {
      LeavesIff(ids, w, a, v, name, id);
      if a.Wake? { TurnElsewhere(ids, w, a, v, name); }
      if SummarisedAway(a, name, id) { WorkForgetsRead(ids, w, a, v, id); }
    }
  }

  /** The message may enter now: it is unread and not in the session. */
  predicate MayEnter(w: World, name: string, id: string) {
    IsUnread(w, name, id) && !InSession(w, name, id)
  }

  /** Right after it has entered, the message is in the session and in the mailbox. */
  lemma EnteringPuts(ids: Ids, w: World, a: Action, v: World, name: string, id: string)
    requires Inv(ids, w) && Steps(ids, w, a, v) && Enters(w, a, name, id)
    ensures InSession(v, name, id) && Holds(v, name, id)
    ensures name in w.entered && name in v.entered && v.entered[name] == w.entered[name] + [id]
  {
    EnterKeepsMember(ids, w, v, a);
    assert Held(v, name)[|Held(w, name)|] == id;
    var i :| 0 <= i < |w.mailboxes[name]| && w.mailboxes[name][i].id == id && !w.mailboxes[name][i].read;
    assert v.mailboxes == w.mailboxes;
  }

  // ---------------------------------------------------------------------------
  // The record of what entered
  // ---------------------------------------------------------------------------

  predicate HasEntered(w: World, name: string, id: string) {
    name in w.entered && id in w.entered[name]
  }

  predicate EnteredTwice(w: World, name: string, id: string) {
    name in w.entered && exists i, j :: 0 <= i < j < |w.entered[name]| && w.entered[name][i] == id == w.entered[name][j]
  }

  /** What a step adds to the record of one message. */
  lemma RecordStep(ids: Ids, w: World, a: Action, v: World, name: string, id: string)
    requires Inv(ids, w) && Steps(ids, w, a, v)
    ensures HasEntered(v, name, id) <==> HasEntered(w, name, id) || Enters(w, a, name, id)
    ensures EnteredTwice(v, name, id)
       <==> EnteredTwice(w, name, id) || (HasEntered(w, name, id) && Enters(w, a, name, id))
  {
    if a.Enter? && a.name == name && !InSession(w, name, a.id) {
      EnteringPuts(ids, w, a, v, name, a.id);
      hide Inv, Steps;
      LongerRecord(w, v, name, a.id, id);
    } else {
      RecordElsewhere(ids, w, a, v, name);
    }
  }

  lemma RecordElsewhere(ids: Ids, w: World, a: Action, v: World, name: string)
    requires Steps(ids, w, a, v) && !(a.Enter? && a.name == name && !InSession(w, name, a.id))
    ensures name in v.entered <==> name in w.entered
    ensures name in w.entered ==> v.entered[name] == w.entered[name]
  {
  }

  lemma LongerRecord(w: World, v: World, name: string, last: string, id: string)
    requires name in w.entered && name in v.entered && v.entered[name] == w.entered[name] + [last]
    ensures HasEntered(v, name, id) <==> HasEntered(w, name, id) || last == id
    ensures EnteredTwice(v, name, id) <==> EnteredTwice(w, name, id) || (HasEntered(w, name, id) && last == id)
  {
    var before, after := w.entered[name], v.entered[name];
    assert after[|before|] == last && forall i | 0 <= i < |before| :: after[i] == before[i];
    if EnteredTwice(w, name, id) {
      var i, j :| 0 <= i < j < |before| && before[i] == id == before[j];
      assert after[i] == id == after[j];
    }
    if HasEntered(w, name, id) && last == id {
      var i :| 0 <= i < |before| && before[i] == id;
      assert after[i] == id == after[|before|];
    }
  }

  /** What was not acknowledged stays so until it is in the session. */
  lemma UnreadStays(ids: Ids, w: World, a: Action, v: World, name: string, id: string)
    requires Steps(ids, w, a, v) && MayEnter(w, name, id)
    ensures IsUnread(v, name, id)
  {
    var i :| 0 <= i < |w.mailboxes[name]| && w.mailboxes[name][i].id == id && !w.mailboxes[name][i].read;
    assert v.mailboxes[name][i].id == id;
  }

  /** How the record of one message stands, depending on whether a wake has forgotten it unread. */
  ghost predicate EntriesOk(w: World, name: string, id: string, forgotten: bool) {
    && (HasEntered(w, name, id) ==> Holds(w, name, id))
    && (if forgotten then HasEntered(w, name, id) && (EnteredTwice(w, name, id) || MayEnter(w, name, id))
        else !EnteredTwice(w, name, id) && !(HasEntered(w, name, id) && MayEnter(w, name, id)))
  }

  lemma EntriesHeld(ids: Ids, w: World, a: Action, v: World, name: string, id: string)
    requires Inv(ids, w) && Steps(ids, w, a, v) && (HasEntered(w, name, id) ==> Holds(w, name, id))
    ensures HasEntered(v, name, id) ==> Holds(v, name, id)
  {
    RecordStep(ids, w, a, v, name, id);
    if Enters(w, a, name, id) {
      EnteringPuts(ids, w, a, v, name, id);
    } else if HasEntered(w, name, id) {
      ActionGrows(ids, w, a);
      GrowthKeepsHeld(w, v, name, id);
    }
  }

  lemma EntriesStep(ids: Ids, w: World, a: Action, v: World, name: string, id: string, forgotten: bool)
    requires Inv(ids, w) && Steps(ids, w, a, v) && EntriesOk(w, name, id, forgotten)
    ensures EntriesOk(v, name, id, forgotten || ForgetfulWake(ids, w, a, name, id))
  {
    EntriesHeld(ids, w, a, v, name, id);
    RecordStep(ids, w, a, v, name, id);
    PresenceStep(ids, w, a, v, name, id);
    ForgetsUnreadIff(ids, w, a, v, name, id);
    if InSession(w, name, id) { HeldHasEntered(ids, w, name, id); }
    if Enters(w, a, name, id) { EnteringPuts(ids, w, a, v, name, id); }
    if MayEnter(w, name, id) { UnreadStays(ids, w, a, v, name, id); }
  }

  /** Before step `k`, some wake has forgotten the message unread. */
  ghost predicate WasForgotten(ids: Ids, worlds: seq<World>, actions: seq<Action>, k: nat, name: string, id: string)
    requires |worlds| == |actions| + 1 && k < |worlds|
  {
    exists m :: 0 <= m < k && ForgetfulWake(ids, worlds[m], actions[m], name, id)
  }

  lemma {:induction false} EntriesRun(ids: Ids, worlds: seq<World>, actions: seq<Action>, k: nat, name: string,
                                      id: string)
    requires FromStart(ids, worlds, actions) && k < |worlds|
    ensures EntriesOk(worlds[k], name, id, WasForgotten(ids, worlds, actions, k, name, id))
  {
    hide Inv, Steps, ForgetfulWake;
    if k > 0 {
      EntriesRun(ids, worlds, actions, k - 1, name, id);
      RunKeepsInv(ids, worlds, actions, k - 1);
      assert Steps(ids, worlds[k - 1], actions[k - 1], worlds[k]);
      EntriesStep(ids, worlds[k - 1], actions[k - 1], worlds[k], name, id,
                  WasForgotten(ids, worlds, actions, k - 1, name, id));
    }
  }

  /**
   In every run, a message has entered its member's session twice, or can do so now, exactly when the
   member was woken up while the message was in its session unread, from a log that does not give it
   back.
   */
  lemma EntersAgainIff(ids: Ids, worlds: seq<World>, actions: seq<Action>, k: nat, name: string, id: string)
    requires FromStart(ids, worlds, actions) && k < |worlds|
    ensures EnteredTwice(worlds[k], name, id) || (HasEntered(worlds[k], name, id) && MayEnter(worlds[k], name, id))
       <==> WasForgotten(ids, worlds, actions, k, name, id)
  {
    EntriesRun(ids, worlds, actions, k, name, id);
  }

  /** So all messages have entered once, and none can enter again, exactly when no such wake has happened. */
  lemma EnteredOnceIff(ids: Ids, worlds: seq<World>, actions: seq<Action>, k: nat, name: string)
    requires FromStart(ids, worlds, actions) && k < |worlds| && name in worlds[k].entered
    ensures
      && Distinct(worlds[k].entered[name])
      && (forall id | id in worlds[k].entered[name] :: !MayEnter(worlds[k], name, id))
      <==> forall id :: !WasForgotten(ids, worlds, actions, k, name, id)
  {
    var record := worlds[k].entered[name];
    forall id
      ensures EnteredTwice(worlds[k], name, id) || (HasEntered(worlds[k], name, id) && MayEnter(worlds[k], name, id))
         <==> WasForgotten(ids, worlds, actions, k, name, id)
    {
      EntersAgainIff(ids, worlds, actions, k, name, id);
    }
    if !Distinct(record) {
      var i, j :| 0 <= i < j < |record| && record[i] == record[j];
      assert EnteredTwice(worlds[k], name, record[i]);
    }
  }

  /** Right after such a wake the message can enter, and does so for the second time. */
  lemma ForgottenEntersTwice(ids: Ids, w: World, a: Action, v: World, name: string, id: string, now: string)
    requires Inv(ids, w) && Steps(ids, w, a, v) && ForgetfulWake(ids, w, a, name, id) && ValidTime(ids.log, now)
    ensures Enabled(ids, v, Enter(name, id, now)) && EnteredTwice(After(ids, v, Enter(name, id, now)), name, id)
  {
    ForgetsUnreadIff(ids, w, a, v, name, id);
    HeldHasEntered(ids, w, name, id);
    ActionKeepsInv(ids, w, a);
    RecordStep(ids, w, a, v, name, id);
    var b := Enter(name, id, now);
    assert v.session.Keys == v.entered.Keys;
    assert Steps(ids, v, b, After(ids, v, b));
    RecordStep(ids, v, b, After(ids, v, b), name, id);
  }

  // ---------------------------------------------------------------------------
  // Messages that are lost
  // ---------------------------------------------------------------------------

  /** The message was delivered and acknowledged, and is not in the session. */
  predicate Lost(w: World, name: string, id: string) {
    Holds(w, name, id) && !IsUnread(w, name, id) && !InSession(w, name, id)
  }

  /** An acknowledged message is dropped: the log does not give it back, or a summary takes its place. */
  predicate LosesRead(ids: Ids, w: World, a: Action, name: string, id: string) {
    && InSession(w, name, id) && Holds(w, name, id) && !IsUnread(w, name, id)
    && ((a.Wake? && a.name == name && !GivenBack(ids, w, name, id)) || SummarisedAway(a, name, id))
  }

  lemma AcknowledgingAddsNothing(ids: Ids, w: World, a: Action, v: World, name: string, id: string)
    requires Steps(ids, w, a, v) && a.Acknowledge? && Holds(v, name, id)
    ensures Holds(w, name, id)
  {
    var i :| 0 <= i < |v.mailboxes[name]| && v.mailboxes[name][i].id == id;
    assert w.mailboxes[name][i].id == id;
  }

  /** A message arrives unread. */
  lemma ArrivesUnread(ids: Ids, w: World, a: Action, v: World, name: string, id: string)
    requires Steps(ids, w, a, v) && Holds(v, name, id) && !Holds(w, name, id)
    ensures IsUnread(v, name, id)
  {
    var i :| 0 <= i < |v.mailboxes[name]| && v.mailboxes[name][i].id == id;
    if a.Acknowledge? { AcknowledgingAddsNothing(ids, w, a, v, name, id); }
  }

  lemma TurnsKeepMail(ids: Ids, w: World, a: Action, v: World, name: string, id: string)
    requires Steps(ids, w, a, v) && (a.Wake? || SummarisedAway(a, name, id))
    ensures IsUnread(v, name, id) <==> IsUnread(w, name, id)
  {
    hide Steps, DeliveredIds;
    TurnElsewhere(ids, w, a, v, name);
  }

  lemma StaysHeld(ids: Ids, w: World, a: Action, v: World, name: string, id: string)
    requires Steps(ids, w, a, v) && Holds(w, name, id)
    ensures Holds(v, name, id)
  {
    ActionGrows(ids, w, a);
    GrowthKeepsHeld(w, v, name, id);
  }

  lemma LostStepIff(ids: Ids, w: World, a: Action, v: World, name: string, id: string)
    requires Inv(ids, w) && Steps(ids, w, a, v)
    ensures Lost(v, name, id) <==> Lost(w, name, id) || LosesRead(ids, w, a, name, id)
  {
    hide Inv, DeliveredIds, GivenBack, SummarisedAway, IsUnread, Holds;
    PresenceStep(ids, w, a, v, name, id);
    if Holds(w, name, id) {
      StaysHeld(ids, w, a, v, name, id);
      if InSession(w, name, id) {
        LeavesIff(ids, w, a, v, name, id);
        if a.Wake? || SummarisedAway(a, name, id) { TurnsKeepMail(ids, w, a, v, name, id); }
      }
      if MayEnter(w, name, id) { UnreadStays(ids, w, a, v, name, id); }
    } else if Holds(v, name, id) {
      ArrivesUnread(ids, w, a, v, name, id);
    }
  }

  /**
   In every run, an acknowledged message is missing from its member's session exactly when some
   earlier wake or heavy compaction has dropped it after it was acknowledged. It never comes back.
   */
  lemma {:induction false} LostIff(ids: Ids, worlds: seq<World>, actions: seq<Action>, k: nat, name: string, id: string)
    requires FromStart(ids, worlds, actions) && k < |worlds|
    ensures Lost(worlds[k], name, id)
       <==> exists m :: 0 <= m < k && LosesRead(ids, worlds[m], actions[m], name, id)
  {
    hide Inv, Steps, LosesRead;
    if k > 0 {
      LostIff(ids, worlds, actions, k - 1, name, id);
      RunKeepsInv(ids, worlds, actions, k - 1);
      assert Steps(ids, worlds[k - 1], actions[k - 1], worlds[k]);
      LostStepIff(ids, worlds[k - 1], actions[k - 1], worlds[k], name, id);
    }
  }

  /** What is lost stays lost. */
  lemma AcknowledgedIsLost(ids: Ids, worlds: seq<World>, actions: seq<Action>, j: nat, k: nat, name: string, id: string)
    requires FromStart(ids, worlds, actions) && j <= k < |worlds| && Lost(worlds[j], name, id)
    ensures Lost(worlds[k], name, id)
  {
    hide Inv, Steps, LosesRead, Lost;
    LostIff(ids, worlds, actions, j, name, id);
    LostIff(ids, worlds, actions, k, name, id);
  }
}
