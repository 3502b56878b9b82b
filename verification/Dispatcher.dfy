/**
 The dispatcher and the member loop over the shared files: `TeamOutboxDispatcher.flush` and
 `TeamMemberLoopController.before_iteration`. Others act between any two of their file accesses.
 */
module Dispatcher {
  import opened Wrappers
  import opened Session
  import opened Delivery

  /** The actions that only the member itself, which holds its lease, performs. */
  predicate IsOwn(a: Action, name: string) {
    (a.Enter? || a.Acknowledge? || a.Work? || a.Wake?) && a.name == name
  }

  class TeamFiles {
    const ids: Ids
    const now: string
    var world: World

    /** The world is one that some run from a new team leads to. */
    ghost predicate Valid()
      reads this
    {
      IdsOk(ids) && ValidTime(ids.log, now) && Reachable(ids, world)
    }

    /** Wherever the run has led, the invariant holds. */
    lemma Sound()
      requires Valid()
      ensures Inv(ids, world)
    {
      ReachableIsOk(ids, world);
    }

    constructor (ids: Ids, now: string, w: World)
      requires IdsOk(ids) && ValidTime(ids.log, now) && Reachable(ids, w)
      ensures Valid() && world == w && this.ids == ids
    {
      this.ids, this.now, world := ids, now, w;
    }

    /** One locked change of one file. */
    method Do(a: Action)
      requires Valid() && Enabled(ids, world, a)
      modifies this
      ensures Valid() && world == Delivery.After(ids, old(world), a) && Grows(old(world), world)
    {
      ActionGrows(ids, world, a);
      NextIsReachable(ids, world, a);
      world := Delivery.After(ids, world, a);
    }

    /** Any number of actions by others; `owner`, if there is one, is the member that this process runs. */
    method LetOthersAct(owner: Option<string>)
      requires Valid()
      modifies this
      ensures Valid() && Grows(old(world), world)
      ensures owner.Some? ==> OwnKept(old(world), world, owner.value)
    {
      var n: nat := *;
      while n > 0
        invariant Valid() && Grows(old(world), world)
        invariant owner.Some? ==> OwnKept(old(world), world, owner.value)
      {
        var a: Action := *;
        if Enabled(ids, world, a) && (owner.None? || !IsOwn(a, owner.value)) {
          ghost var before := world;
          if owner.Some? { OthersKeepOwn(ids, world, a, owner.value); }
          Do(a);
          GrowsFurther(old(world), before, world);
          if owner.Some? { OwnKeptFurther(old(world), before, world, owner.value); }
        }
        n := n - 1;
      }
    }

    // -------------------------------------------------------------------------
    // Dispatching
    // -------------------------------------------------------------------------

    /** `deliver_message`, preceded and followed by whatever others do; it may fail. */
    method DeliverOne(s: nat, k: nat, r: string) returns (ok: bool)
      requires Valid() && s < |world.outboxes| && k < |world.outboxes[s]| && r in world.outboxes[s][k].recipients
      modifies this
      ensures Valid() && Grows(old(world), world)
      ensures ok ==> Holds(world, r, DeliveryId(ids, old(world).outboxes[s][k].id, r))
    {
      var e := world.outboxes[s][k];
      LetOthersAct(None);
      EventStays(old(world), world, s, k);
      ghost var w1 := world;
      var fails: bool := *;
      if fails || r !in world.mailboxes { return false; }
      Do(Deliver(s, k, r));
      HeldAfterDelivery(w1, world, r, MessageFor(ids, w1.outboxes[s][k], r));
      GrowsFurther(old(world), w1, world);
      return true;
    }

    /** `mark_delivered`, preceded by whatever others do; it may fail. */
    method MarkOne(s: nat, k: nat, r: string) returns (ok: bool)
      requires Valid() && s < |world.outboxes| && k < |world.outboxes[s]| && r in world.outboxes[s][k].recipients
      requires Holds(world, r, DeliveryId(ids, world.outboxes[s][k].id, r))
      modifies this
      ensures Valid() && Grows(old(world), world)
      ensures ok ==> s < |world.outboxes| && k < |world.outboxes[s]| && r in world.outboxes[s][k].deliveredTo
    {
      var id := world.outboxes[s][k].id;
      LetOthersAct(None);
      ghost var w1 := world;
      var fails: bool := *;
      if fails { return false; }
      Sound();
      MarkIsEnabled(ids, old(world), w1, s, k, r);
      Do(Mark(s, id, r));
      GrowsFurther(old(world), w1, world);
      return true;
    }

    /** Delivers one message and marks it. It may stop before, between or after the two. */
    method TryDeliver(s: nat, k: nat, r: string) returns (ok: bool)
      requires Valid() && s < |world.outboxes| && k < |world.outboxes[s]| && r in world.outboxes[s][k].recipients
      modifies this
      ensures Valid() && Grows(old(world), world)
      ensures ok ==> s < |world.outboxes| && k < |world.outboxes[s]| && r in world.outboxes[s][k].deliveredTo
    {
      ok := DeliverOne(s, k, r);
      if !ok { return; }
      ghost var w1 := world;
      EventStays(old(world), w1, s, k);
      ok := MarkOne(s, k, r);
      GrowsFurther(old(world), w1, world);
    }

    /** One event of the snapshot: every recipient it was not yet delivered to is tried. */
    method FlushEvent(s: nat, k: nat, e: OutboxEvent) returns (delivered: seq<string>, failed: seq<string>)
      requires Valid() && s < |world.outboxes| && k < |world.outboxes[s]| && EventGrows(e, world.outboxes[s][k])
      modifies this
      ensures Valid() && Grows(old(world), world)
      ensures failed == [] ==> AllMarked(world, s, k)
      ensures |delivered| + |failed| <= |e.recipients|
    {
      delivered, failed := [], [];
      ghost var w0 := world;
      GrowsNothing(w0);
      for i := 0 to |e.recipients|
        invariant Valid() && FlushedUpTo(w0, world, s, k, e, i, failed == [])
        invariant |delivered| + |failed| <= i
      {
        var r := e.recipients[i];
        ghost var before := world;
        if r in e.deliveredTo {
          GrowsNothing(world);
          FlushedOneMore(w0, before, world, s, k, e, i, failed == [], true);
          continue;
        }
        var ok := TryDeliver(s, k, r);
        FlushedOneMore(w0, before, world, s, k, e, i, failed == [], ok);
        if ok { delivered := delivered + [DeliveryId(ids, e.id, r)]; }
          else { failed := failed + [DeliveryId(ids, e.id, r)]; }
      }
    }

    /** One outbox: the events it held when it was read. */
    method FlushSource(s: nat) returns (delivered: seq<string>, failed: seq<string>)
      requires Valid() && s < |world.outboxes|
      modifies this
      ensures Valid() && Grows(old(world), world)
      ensures failed == [] ==> MarkedBelow(world, s, |old(world).outboxes[s]|)
    {
      delivered, failed := [], [];
      ghost var w0 := world;
      LetOthersAct(None);
      var events := world.outboxes[s];
      ghost var w1 := world;
      FlushingStarts(w0, w1, s);
      for k := 0 to |events|
        invariant Valid() && FlushedBelow(w0, w1, world, s, k, failed == [])
      {
        ghost var before := world;
        EventStays(w1, world, s, k);
        var some, bad := FlushEvent(s, k, events[k]);
        FlushedOneMoreEvent(w0, w1, before, world, s, k, failed == [], bad == []);
        delivered, failed := delivered + some, failed + bad;
      }
    }

    /** `flush`: if nothing failed, every event that was there when it began is delivered to every recipient. */
    method Flush() returns (delivered: seq<string>, failed: seq<string>)
      requires Valid()
      modifies this
      ensures Valid() && Grows(old(world), world)
      ensures failed == [] ==> forall s, k | 0 <= s < |old(world).outboxes| && 0 <= k < |old(world).outboxes[s]| ::
          AllMarked(world, s, k)
    {
      delivered, failed := [], [];
      ghost var w0 := world;
      GrowsNothing(w0);
      for s := 0 to |world.outboxes|
        invariant Valid() && Grows(w0, world)
        invariant failed == [] ==> forall t, k | 0 <= t < s && 0 <= k < |w0.outboxes[t]| :: AllMarked(world, t, k)
      {
        ghost var before := world;
        var some, bad := FlushSource(s);
        GrowsFurther(w0, before, world);
        forall t, k | 0 <= t < s && 0 <= k < |w0.outboxes[t]| && AllMarked(before, t, k)
          ensures AllMarked(world, t, k)
        {
          MarkedStays(before, world, t, k);
        }
        delivered, failed := delivered + some, failed + bad;
      }
    }

    // -------------------------------------------------------------------------
    // Receiving
    // -------------------------------------------------------------------------

    /** `unread`: the ids of the messages not yet acknowledged, in order. */
    method Unread(name: string) returns (unread: seq<string>)
      requires Valid() && name in world.mailboxes
      ensures forall id :: id in unread <==> IsUnread(world, name, id)
    {
      unread := [];
      for i := 0 to |world.mailboxes[name]|
        invariant forall id :: id in unread <==>
          exists j :: 0 <= j < i && world.mailboxes[name][j].id == id && !world.mailboxes[name][j].read
      {
        if !world.mailboxes[name][i].read { unread := unread + [world.mailboxes[name][i].id]; }
      }
    }

    /** `append_external_message`, preceded by whatever others do. */
    method EnterOne(name: string, id: string)
      requires Valid() && name in world.session && IsUnread(world, name, id)
      modifies this
      ensures Valid() && Grows(old(world), world)
      ensures name in world.session && (forall x | x in Held(old(world), name) :: x in Held(world, name))
          && id in Held(world, name)
      ensures forall x | IsUnread(old(world), name, x) :: IsUnread(world, name, x)
    {
      LetOthersAct(Some(name));
      ghost var w1 := world;
      Sound();
      EnteringHolds(ids, w1, name, id, now);
      Do(Enter(name, id, now));
      GrowsFurther(old(world), w1, world);
    }

    /** Every one of the unread messages is put into the session unless it is there. */
    method EnterAll(name: string, unread: seq<string>)
      requires Valid() && name in world.session && forall i | 0 <= i < |unread| :: IsUnread(world, name, unread[i])
      modifies this
      ensures Valid() && Grows(old(world), world) && name in world.session
      ensures forall i | 0 <= i < |unread| :: unread[i] in Held(world, name) && IsUnread(world, name, unread[i])
    {
      ghost var w0 := world;
      GrowsNothing(w0);
      for i := 0 to |unread|
        invariant Valid() && Entering(w0, world, name, unread, i)
      {
        ghost var before := world;
        EnterOne(name, unread[i]);
        EnteredOneMore(w0, before, world, name, unread, i);
      }
    }

    /**
     `before_iteration`: every unread message is appended to the session unless it is there, and
     only then acknowledged. If it stops before the acknowledgement, nothing was marked read.
     */
    method BeforeIteration(name: string) returns (acknowledged: bool)
      requires Valid() && name in world.mailboxes && name in world.session
      modifies this
      ensures Valid() && Grows(old(world), world) && name in world.session
      ensures forall id | IsUnread(old(world), name, id) :: id in Held(world, name)
      ensures forall id | IsUnread(old(world), name, id) :: IsUnread(world, name, id) <==> !acknowledged
    {
      var unread := Unread(name);
      acknowledged := Receive(name, unread);
    }

    /** Appends first and acknowledges afterwards; it may stop in between. */
    method Receive(name: string, unread: seq<string>) returns (acknowledged: bool)
      requires Valid() && name in world.mailboxes && name in world.session && forall i | 0 <= i < |unread| ::
          IsUnread(world, name, unread[i])
      modifies this
      ensures Valid() && Grows(old(world), world) && name in world.session
      ensures forall i | 0 <= i < |unread| :: unread[i] in Held(world, name)
      ensures forall i | 0 <= i < |unread| :: IsUnread(world, name, unread[i]) <==> !acknowledged
    {
      EnterAll(name, unread);
      acknowledged := *;
      if !acknowledged || unread == [] { return; }
      ghost var w1 := world;
      AcknowledgeAll(name, unread);
      GrowsFurther(old(world), w1, world);
    }

    /** `acknowledge` */
    method AcknowledgeAll(name: string, read: seq<string>)
      requires Valid() && name in world.mailboxes && name in world.session
      requires forall i | 0 <= i < |read| :: read[i] in Held(world, name)
      modifies this
      ensures Valid() && Grows(old(world), world) && world.session == old(world).session
      ensures forall id | id in read :: !IsUnread(world, name, id)
    {
      Do(Acknowledge(name, read));
    }
  }

  /** What others leave alone: the member's session, and what it has not read. */
  ghost predicate OwnKept(w: World, v: World, name: string) {
    && (name in w.session && name in v.session ==> v.session[name] == w.session[name])
    && (forall id | IsUnread(w, name, id) :: IsUnread(v, name, id))
  }

  lemma OthersKeepOwn(ids: Ids, w: World, a: Action, name: string)
    requires Enabled(ids, w, a) && !IsOwn(a, name)
    ensures OwnKept(w, Delivery.After(ids, w, a), name)
  {
    var v := Delivery.After(ids, w, a);
    forall id | IsUnread(w, name, id) ensures IsUnread(v, name, id) {
      var i :| 0 <= i < |w.mailboxes[name]| && w.mailboxes[name][i].id == id && !w.mailboxes[name][i].read;
      assert v.mailboxes[name][i].id == id && !v.mailboxes[name][i].read;
    }
  }

  lemma OwnKeptFurther(u: World, v: World, w: World, name: string)
    requires OwnKept(u, v, name) && OwnKept(v, w, name) && v.session.Keys == u.session.Keys
    ensures OwnKept(u, w, name)
  {
  }

  lemma GrowsNothing(w: World)
    ensures Grows(w, w)
  {
  }

  /** The event counts as delivered to all its recipients. */
  ghost predicate AllMarked(w: World, s: nat, k: nat) {
    && s < |w.outboxes| && k < |w.outboxes[s]|
    && forall i | 0 <= i < |w.outboxes[s][k].recipients| ::
         w.outboxes[s][k].recipients[i] in w.outboxes[s][k].deliveredTo
  }

  ghost predicate MarkedBelow(w: World, s: nat, k: nat) {
    forall j | 0 <= j < k :: AllMarked(w, s, j)
  }

  lemma MarkedBelowStays(w: World, v: World, s: nat, k: nat)
    requires Grows(w, v) && MarkedBelow(w, s, k)
    ensures MarkedBelow(v, s, k)
  {
    forall j | 0 <= j < k ensures AllMarked(v, s, j) { MarkedStays(w, v, s, j); }
  }

  /** Since the outbox was read, the first `k` events were tried; if all went well they are marked. */
  ghost predicate FlushedBelow(w0: World, w1: World, w: World, s: nat, k: nat, allWell: bool) {
    && Grows(w0, w) && Grows(w1, w) && s < |w0.outboxes| && s < |w1.outboxes|
    && |w0.outboxes[s]| <= |w1.outboxes[s]|
    && (allWell ==> MarkedBelow(w, s, k))
  }

  lemma FlushingStarts(w0: World, w1: World, s: nat)
    requires Grows(w0, w1) && s < |w0.outboxes|
    ensures FlushedBelow(w0, w1, w1, s, 0, true)
  {
    GrowsNothing(w1);
  }

  lemma FlushedOneMoreEvent(w0: World, w1: World, w: World, v: World, s: nat, k: nat, allWell: bool, ok: bool)
    requires FlushedBelow(w0, w1, w, s, k, allWell) && Grows(w, v) && (ok ==> AllMarked(v, s, k))
    ensures FlushedBelow(w0, w1, v, s, k + 1, allWell && ok)
  {
    GrowsFurther(w0, w, v);
    GrowsFurther(w1, w, v);
    if allWell { MarkedBelowStays(w, v, s, k); }
  }

  ghost predicate MarkedUpTo(w: World, s: nat, k: nat, n: nat) {
    && s < |w.outboxes| && k < |w.outboxes[s]| && n <= |w.outboxes[s][k].recipients|
    && forall i | 0 <= i < n :: w.outboxes[s][k].recipients[i] in w.outboxes[s][k].deliveredTo
  }

  /** The first `i` messages are in the session, and none of them was acknowledged. */
  ghost predicate Entering(w0: World, w: World, name: string, unread: seq<string>, i: nat) {
    && Grows(w0, w) && name in w.session && i <= |unread|
    && (forall j | 0 <= j < |unread| :: IsUnread(w, name, unread[j]))
    && (forall j | 0 <= j < i :: unread[j] in Held(w, name))
  }

  lemma EnteredOneMore(w0: World, w: World, v: World, name: string, unread: seq<string>, i: nat)
    requires Entering(w0, w, name, unread, i) && i < |unread| && Grows(w, v)
    requires name in v.session && (forall x | x in Held(w, name) :: x in Held(v, name)) && unread[i] in Held(v, name)
    requires forall x | IsUnread(w, name, x) :: IsUnread(v, name, x)
    ensures Entering(w0, v, name, unread, i + 1)
  {
    GrowsFurther(w0, w, v);
  }

  /** Event `k` is still the one that was read. */
  ghost predicate Snapshot(w: World, s: nat, k: nat, e: OutboxEvent) {
    s < |w.outboxes| && k < |w.outboxes[s]| && EventGrows(e, w.outboxes[s][k])
  }

  lemma EventStays(w: World, v: World, s: nat, k: nat)
    requires Grows(w, v) && s < |w.outboxes| && k < |w.outboxes[s]|
    ensures s < |v.outboxes| && k < |v.outboxes[s]| && EventGrows(w.outboxes[s][k], v.outboxes[s][k])
  {
  }

  /** The first `i` recipients were tried; if all went well they are marked. */
  ghost predicate FlushedUpTo(w0: World, w: World, s: nat, k: nat, e: OutboxEvent, i: nat, allWell: bool) {
    Grows(w0, w) && Snapshot(w, s, k, e) && (allWell ==> MarkedUpTo(w, s, k, i))
  }

  lemma FlushedOneMore(w0: World, w: World, v: World, s: nat, k: nat, e: OutboxEvent, i: nat, allWell: bool, ok: bool)
    requires FlushedUpTo(w0, w, s, k, e, i, allWell) && Grows(w, v) && i < |e.recipients|
    requires ok ==> e.recipients[i] in e.deliveredTo
                    || (s < |v.outboxes| && k < |v.outboxes[s]| && e.recipients[i] in v.outboxes[s][k].deliveredTo)
    ensures FlushedUpTo(w0, v, s, k, e, i + 1, allWell && ok)
  {
    GrowsFurther(w0, w, v);
    EventStays(w, v, s, k);
  }

  lemma MarkedStays(w: World, v: World, s: nat, k: nat)
    requires Grows(w, v) && AllMarked(w, s, k)
    ensures AllMarked(v, s, k)
  {
    assert EventGrows(w.outboxes[s][k], v.outboxes[s][k]);
  }

  lemma MarkIsEnabled(ids: Ids, w: World, v: World, s: nat, k: nat, r: string)
    requires Grows(w, v) && Inv(ids, v) && s < |w.outboxes| && k < |w.outboxes[s]| && r in w.outboxes[s][k].recipients
    requires Holds(w, r, DeliveryId(ids, w.outboxes[s][k].id, r))
    ensures Enabled(ids, v, Mark(s, w.outboxes[s][k].id, r))
    ensures
      var u := Delivery.After(ids, v, Mark(s, w.outboxes[s][k].id, r));
      s < |u.outboxes| && k < |u.outboxes[s]| && r in u.outboxes[s][k].deliveredTo
  {
    GrowthKeepsHeld(w, v, r, DeliveryId(ids, w.outboxes[s][k].id, r));
    EventStays(w, v, s, k);
    forall l | 0 <= l < |v.outboxes[s]| && v.outboxes[s][l].id == w.outboxes[s][k].id ensures l == k {
      assert v.outboxes[s][k].id == v.outboxes[s][l].id;
    }
  }

  /** Putting a message into the session keeps what is there. */
  lemma EnteringHolds(ids: Ids, w: World, name: string, id: string, now: string)
    requires Inv(ids, w) && Enabled(ids, w, Enter(name, id, now))
    ensures
      var v := Delivery.After(ids, w, Enter(name, id, now));
      name in v.session && id in Held(v, name) && forall x | x in Held(w, name) :: x in Held(v, name)
  {
    var a := Enter(name, id, now);
    if id !in Held(w, name) { EnterKeepsMember(ids, w, Delivery.After(ids, w, a), a); }
  }

  /** After a flush without failures, every recipient of every event that was there holds its message exactly once. */
  lemma FlushedExactlyOnce(ids: Ids, w: World, s: nat, k: nat, r: string) returns (i: nat)
    requires IdsOk(ids) && Reachable(ids, w) && AllMarked(w, s, k) && r in w.outboxes[s][k].recipients
    ensures r in w.mailboxes && IsTheMessage(ids, w.mailboxes[r], i, w.outboxes[s][k], r)
  {
    var j :| 0 <= j < |w.outboxes[s][k].recipients| && w.outboxes[s][k].recipients[j] == r;
    i := DeliveredExactlyOnce(ids, w, s, k, r);
  }
}
