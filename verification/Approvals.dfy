/**
 Plan approvals (`ApprovalService`): one document holds the approvals and the events that announce
 them, and every request, decision and delivery mark is one locked change of it.
 */
module Approvals {
  import opened Wrappers
  import D = Delivery
  import opened TeamModels

  datatype ApprovalStatus = Pending | Approved | Rejected

  datatype ApprovalRecord = ApprovalRecord(
    id: string, taskId: string, memberName: string, plan: string, planVersion: int, status: ApprovalStatus,
    requestedAt: string, decidedAt: Option<string>, decidedBy: Option<string>, reason: Option<string>)

  datatype Document = Document(approvals: seq<ApprovalRecord>, outbox: seq<D.OutboxEvent>)

  datatype Refusal = NotAllowed | BlankText | AlreadyPending | UnknownApproval | WrongVersion | AlreadyDecided

  const PLAN_REQUEST := "plan_request"
  const PLAN_APPROVED := "plan_approved"
  const PLAN_REJECTED := "plan_rejected"

  predicate For(a: ApprovalRecord, taskId: string, memberName: string) {
    a.taskId == taskId && a.memberName == memberName
  }

  /** The versions of one member's plans for one task, in the order in which they were requested. */
  function VersionsOf(approvals: seq<ApprovalRecord>, taskId: string, memberName: string): seq<int> {
    if approvals == [] then []
    else
      var rest, last := VersionsOf(approvals[..|approvals| - 1], taskId, memberName), approvals[|approvals| - 1];
      if For(last, taskId, memberName) then rest + [last.planVersion] else rest
  }

  function CountingUp(n: nat): seq<int> {
    if n == 0 then [] else CountingUp(n - 1) + [n]
  }

  predicate HasPending(approvals: seq<ApprovalRecord>, taskId: string, memberName: string) {
    exists i :: 0 <= i < |approvals| && For(approvals[i], taskId, memberName) && approvals[i].status == Pending
  }

  /** The protocols of the events about one approval, oldest first. */
  function StoryOf(outbox: seq<D.OutboxEvent>, id: string): seq<string> {
    if outbox == [] then []
    else
      var rest, last := StoryOf(outbox[..|outbox| - 1], id), outbox[|outbox| - 1];
      if last.approvalId == Some(id) then rest + [last.protocol] else rest
  }

  function StoryFor(status: ApprovalStatus): seq<string> {
    match status
    case Pending => [PLAN_REQUEST]
    case Approved => [PLAN_REQUEST, PLAN_APPROVED]
    case Rejected => [PLAN_REQUEST, PLAN_REJECTED]
  }

  // ---------------------------------------------------------------------------
  // The changes
  // ---------------------------------------------------------------------------

  function RequestEvent(eventId: string, a: ApprovalRecord, summary: string, now: string): D.OutboxEvent {
    D.OutboxEvent(eventId, a.memberName, PLAN_REQUEST, ["lead"], a.plan, summary, Some(a.taskId), Some(a.id),
                  Some(a.planVersion), now, [])
  }

  function DecisionEvent(eventId: string, a: ApprovalRecord, body: string, now: string): D.OutboxEvent {
    D.OutboxEvent(eventId, "lead", if a.status == Approved then PLAN_APPROVED else PLAN_REJECTED, [a.memberName], body,
                  body, Some(a.taskId), Some(a.id), Some(a.planVersion), now, [])
  }

  function Requested(d: Document, a: ApprovalRecord, e: D.OutboxEvent): Document {
    Document(d.approvals + [a], d.outbox + [e])
  }

  function Decided(d: Document, i: nat, a: ApprovalRecord, e: D.OutboxEvent): Document
    requires i < |d.approvals|
  {
    Document(d.approvals[i := a], d.outbox + [e])
  }

  predicate FreshId(d: Document, id: string) {
    && (forall i | 0 <= i < |d.approvals| :: d.approvals[i].id != id)
    && (forall k | 0 <= k < |d.outbox| :: d.outbox[k].approvalId != Some(id))
  }

  /** `a` is a new plan of its member for its task. */
  ghost predicate MayRequest(d: Document, a: ApprovalRecord) {
    && FreshId(d, a.id) && a.status == Pending && !HasPending(d.approvals, a.taskId, a.memberName)
    && a.planVersion == |VersionsOf(d.approvals, a.taskId, a.memberName)| + 1
  }

  /** `a` is approval `i`, decided. */
  ghost predicate MayDecide(d: Document, i: nat, a: ApprovalRecord) {
    && i < |d.approvals| && d.approvals[i].status == Pending && a.status != Pending
    && a == d.approvals[i].(status := a.status, decidedAt := a.decidedAt, decidedBy := a.decidedBy, reason := a.reason)
  }

  // ---------------------------------------------------------------------------
  // What the document always satisfies
  // ---------------------------------------------------------------------------

  ghost predicate UniqueIds(approvals: seq<ApprovalRecord>) {
    forall i, j | 0 <= i < j < |approvals| :: approvals[i].id != approvals[j].id
  }

  /** Only the newest plan of a member for a task can be pending. */
  ghost predicate PendingIsNewest(approvals: seq<ApprovalRecord>) {
    forall i, j | 0 <= i < j < |approvals| && For(approvals[j], approvals[i].taskId, approvals[i].memberName) ::
      approvals[i].status != Pending
  }

  ghost predicate VersionsOk(approvals: seq<ApprovalRecord>) {
    forall taskId, memberName ::
      VersionsOf(approvals, taskId, memberName) == CountingUp(|VersionsOf(approvals, taskId, memberName)|)
  }

  /** The events tell each approval's story exactly: one request, and one decision if it is decided. */
  ghost predicate StoriesOk(d: Document) {
    forall i | 0 <= i < |d.approvals| :: StoryOf(d.outbox, d.approvals[i].id) == StoryFor(d.approvals[i].status)
  }

  ghost predicate Orderly(d: Document) {
    UniqueIds(d.approvals) && PendingIsNewest(d.approvals) && VersionsOk(d.approvals) && StoriesOk(d)
  }

  lemma StoryNext(outbox: seq<D.OutboxEvent>, e: D.OutboxEvent, id: string)
    ensures StoryOf(outbox + [e], id) == if e.approvalId == Some(id) then StoryOf(outbox, id) + [e.protocol]
        else StoryOf(outbox, id)
  {
    assert (outbox + [e])[..|outbox|] == outbox;
  }

  lemma VersionsNext(approvals: seq<ApprovalRecord>, a: ApprovalRecord, taskId: string, memberName: string)
    ensures VersionsOf(approvals + [a], taskId, memberName) ==
            if For(a, taskId, memberName) then VersionsOf(approvals, taskId, memberName) + [a.planVersion]
              else VersionsOf(approvals, taskId, memberName)
  {
    assert (approvals + [a])[..|approvals|] == approvals;
  }

  lemma {:induction false} NoStoryYet(outbox: seq<D.OutboxEvent>, id: string)
    requires forall k | 0 <= k < |outbox| :: outbox[k].approvalId != Some(id)
    ensures StoryOf(outbox, id) == []
  {
    if outbox != [] { NoStoryYet(outbox[..|outbox| - 1], id); }
  }

  lemma RequestKeeps(d: Document, a: ApprovalRecord, e: D.OutboxEvent)
    requires Orderly(d) && MayRequest(d, a) && e.approvalId == Some(a.id) && e.protocol == PLAN_REQUEST
    ensures Orderly(Requested(d, a, e))
  {
    var v := Requested(d, a, e);
    forall taskId, memberName
      ensures VersionsOf(v.approvals, taskId, memberName) == CountingUp(|VersionsOf(v.approvals, taskId, memberName)|)
    {
      VersionsNext(d.approvals, a, taskId, memberName);
    }
    forall i | 0 <= i < |v.approvals| ensures StoryOf(v.outbox, v.approvals[i].id) == StoryFor(v.approvals[i].status) {
      StoryNext(d.outbox, e, v.approvals[i].id);
      if i == |d.approvals| { NoStoryYet(d.outbox, a.id); }
    }
  }

  lemma {:induction false} DecisionKeepsVersions(approvals: seq<ApprovalRecord>, i: nat, a: ApprovalRecord,
                                                 taskId: string, memberName: string)
    requires i < |approvals| && a.taskId == approvals[i].taskId && a.memberName == approvals[i].memberName
        && a.planVersion == approvals[i].planVersion
    ensures VersionsOf(approvals[i := a], taskId, memberName) == VersionsOf(approvals, taskId, memberName)
  {
    var n := |approvals| - 1;
    if i < n {
      DecisionKeepsVersions(approvals[..n], i, a, taskId, memberName);
      assert approvals[i := a][..n] == approvals[..n][i := a];
    } else {
      assert approvals[i := a][..n] == approvals[..n];
    }
  }

  lemma DecideKeeps(d: Document, i: nat, a: ApprovalRecord, e: D.OutboxEvent)
    requires Orderly(d) && MayDecide(d, i, a)
    requires e.approvalId == Some(a.id) && e.protocol == if a.status == Approved then PLAN_APPROVED else PLAN_REJECTED
    ensures Orderly(Decided(d, i, a, e))
  {
    var v := Decided(d, i, a, e);
    forall taskId, memberName
      ensures VersionsOf(v.approvals, taskId, memberName) == CountingUp(|VersionsOf(v.approvals, taskId, memberName)|)
    {
      DecisionKeepsVersions(d.approvals, i, a, taskId, memberName);
    }
    forall j | 0 <= j < |v.approvals| ensures StoryOf(v.outbox, v.approvals[j].id) == StoryFor(v.approvals[j].status) {
      StoryNext(d.outbox, e, v.approvals[j].id);
      assert StoryOf(d.outbox, d.approvals[j].id) == StoryFor(d.approvals[j].status);
    }
  }

  lemma {:induction false} MarkKeepsStory(outbox: seq<D.OutboxEvent>, eventId: string, r: string, id: string)
    ensures StoryOf(D.Marked(outbox, eventId, r), id) == StoryOf(outbox, id)
  {
    if outbox != [] {
      var n := |outbox| - 1;
      MarkKeepsStory(outbox[..n], eventId, r, id);
      assert D.Marked(outbox, eventId, r)[..n] == D.Marked(outbox[..n], eventId, r);
    }
  }

  lemma MarkKeepsInv(d: Document, eventId: string, r: string)
    requires Orderly(d)
    ensures Orderly(d.(outbox := D.Marked(d.outbox, eventId, r)))
  {
    forall i | 0 <= i < |d.approvals|
      ensures StoryOf(D.Marked(d.outbox, eventId, r), d.approvals[i].id) == StoryFor(d.approvals[i].status)
    {
      MarkKeepsStory(d.outbox, eventId, r, d.approvals[i].id);
    }
  }

  // ---------------------------------------------------------------------------
  // Whole runs
  // ---------------------------------------------------------------------------

  datatype Op =
    | RequestOp(approval: ApprovalRecord, event: D.OutboxEvent)
    | DecideOp(index: nat, decision: ApprovalRecord, event: D.OutboxEvent)
    | MarkOp(eventId: string, recipient: string)

  ghost predicate May(d: Document, op: Op) {
    match op
    case RequestOp(a, e) => MayRequest(d, a) && e.approvalId == Some(a.id) && e.protocol == PLAN_REQUEST
    case DecideOp(i, a, e) =>
      MayDecide(d, i, a) && e.approvalId == Some(a.id) && e.protocol == if a.status == Approved then PLAN_APPROVED
        else PLAN_REJECTED
    case MarkOp(_, _) => true
  }

  function AfterOp(d: Document, op: Op): Document {
    match op
    case RequestOp(a, e) => Requested(d, a, e)
    case DecideOp(i, a, e) => if i < |d.approvals| then Decided(d, i, a, e) else d
    case MarkOp(eventId, r) => d.(outbox := D.Marked(d.outbox, eventId, r))
  }

  ghost predicate IsRun(documents: seq<Document>, ops: seq<Op>) {
    && |documents| == |ops| + 1 && documents[0] == Document([], [])
    && forall k | 0 <= k < |ops| :: Steps(documents[k], ops[k], documents[k + 1])
  }

  ghost predicate Steps(d: Document, op: Op, d': Document) {
    May(d, op) && d' == AfterOp(d, op)
  }

  lemma OpKeepsInv(d: Document, op: Op)
    requires Orderly(d) && May(d, op)
    ensures Orderly(AfterOp(d, op))
  {
    match op
    case RequestOp(a, e) => RequestKeeps(d, a, e);
    case DecideOp(i, a, e) => DecideKeeps(d, i, a, e);
    case MarkOp(eventId, r) => MarkKeepsInv(d, eventId, r);
  }

  /**
   In every document of every run: a member's plans for a task are versions 1 to n, only the
   newest can be pending, and the outbox tells each approval's story exactly.
   */
  lemma {:induction false} EveryRunIsOrderly(documents: seq<Document>, ops: seq<Op>, k: nat)
    requires IsRun(documents, ops) && k < |documents|
    ensures Orderly(documents[k])
  {
    if k > 0 {
      EveryRunIsOrderly(documents, ops, k - 1);
      assert Steps(documents[k - 1], ops[k - 1], documents[k]);
      OpKeepsInv(documents[k - 1], ops[k - 1]);
    } else {
      assert VersionsOk([]);
    }
  }

  /** A decided approval never changes again, whatever follows. */
  lemma {:induction false} DecisionsAreFinal(documents: seq<Document>, ops: seq<Op>, k: nat, l: nat, i: nat)
    requires IsRun(documents, ops) && k <= l < |documents| && i < |documents[k].approvals|
        && documents[k].approvals[i].status != Pending
    ensures i < |documents[l].approvals| && documents[l].approvals[i] == documents[k].approvals[i]
    decreases l
  {
    if k < l {
      DecisionsAreFinal(documents, ops, k, l - 1, i);
      assert Steps(documents[l - 1], ops[l - 1], documents[l]);
    }
  }

  // ---------------------------------------------------------------------------
  // The service
  // ---------------------------------------------------------------------------

  class ApprovalService {
    var document: Document

    constructor ()
      ensures document == Document([], []) && Orderly(document)
    {
      document := Document([], []);
      assert VersionsOk([]);
    }

    /** The highest version so far, found by a search through all approvals. */
    method HighestVersion(taskId: string, memberName: string) returns (version: int)
      requires Orderly(document)
      ensures version == |VersionsOf(document.approvals, taskId, memberName)|
    {
      version := 0;
      var approvals := document.approvals;
      for i := 0 to |approvals|
        invariant version >= 0
        invariant forall x | x in VersionsOf(approvals[..i], taskId, memberName) :: x <= version
        invariant version == 0 || version in VersionsOf(approvals[..i], taskId, memberName)
      {
        VersionsNext(approvals[..i], approvals[i], taskId, memberName);
        assert approvals[..i + 1] == approvals[..i] + [approvals[i]];
        if For(approvals[i], taskId, memberName) && approvals[i].planVersion > version {
          version := approvals[i].planVersion;
        }
      }
      assert approvals[..|approvals|] == approvals;
      HighestCounted(VersionsOf(approvals, taskId, memberName), version);
    }

    /** `request`: refused for a blank plan and while an earlier plan is pending, otherwise the next version. */
    method Request(allowed: bool, taskId: string, memberName: string, plan: string, summary: string, id: string,
                   eventId: string, now: string)
        returns (r: Result<ApprovalRecord, Refusal>)
      requires Orderly(document) && FreshId(document, id)
      modifies this
      ensures Orderly(document)
      ensures r.Ok? <==> allowed && NotBlank(plan) && !old(HasPending(document.approvals, taskId, memberName))
      ensures r.Err? ==> document == old(document)
      ensures r.Ok? ==>
          document == Requested(old(document), r.value, RequestEvent(eventId, r.value, summary, now))
          && MayRequest(old(document), r.value)
      ensures r.Ok? ==> For(r.value, taskId, memberName) && r.value.id == id && r.value.plan == plan
    {
      if !allowed { return Err(NotAllowed); }
      if !NotBlank(plan) { return Err(BlankText); }
      if HasPending(document.approvals, taskId, memberName) { return Err(AlreadyPending); }
      var version := HighestVersion(taskId, memberName);
      var created := ApprovalRecord(id, taskId, memberName, plan, version + 1, Pending, now, None, None, None);
      RequestKeeps(document, created, RequestEvent(eventId, created, summary, now));
      document := Requested(document, created, RequestEvent(eventId, created, summary, now));
      return Ok(created);
    }

    /** `_decide`: refused unless the approval exists, matches, and is still pending. */
    method Decide(isLead: bool, id: string, taskId: string, version: int, approved: bool, reason: Option<string>,
                  body: string, eventId: string, now: string)
        returns (r: Result<nat, Refusal>)
      requires Orderly(document)
      modifies this
      ensures Orderly(document)
      ensures r.Err? ==> document == old(document)
      ensures r.Ok? ==>
          isLead && r.value < |old(document).approvals|
          && IsDecision(old(document).approvals[r.value], id, taskId, version)
      ensures r.Ok? ==> r.value < |document.approvals| && MayDecide(old(document), r.value, document.approvals[r.value])
      ensures r.Ok? ==> document.approvals[r.value].status == (if approved then Approved else Rejected)
      ensures r.Ok? ==> document == Decided(old(document), r.value, document.approvals[r.value],
                                            DecisionEvent(eventId, document.approvals[r.value], body, now))
      ensures r.Err? ==> !isLead || forall i | 0 <= i < |old(document).approvals| ::
          !IsDecision(old(document).approvals[i], id, taskId, version)
    {
      if !isLead { return Err(NotAllowed); }
      var i := 0;
      while i < |document.approvals| && document.approvals[i].id != id
        invariant i <= |document.approvals| && forall j | 0 <= j < i :: document.approvals[j].id != id
      {
        i := i + 1;
      }
      if i == |document.approvals| { return Err(UnknownApproval); }
      var current := document.approvals[i];
      if current.taskId != taskId || current.planVersion != version { return Err(WrongVersion); }
      if current.status != Pending { return Err(AlreadyDecided); }
      var decided := current.(status := if approved then Approved
                              else Rejected, decidedAt := Some(now), decidedBy := Some("lead"), reason := reason);
      DecideKeeps(document, i, decided, DecisionEvent(eventId, decided, body, now));
      document := Decided(document, i, decided, DecisionEvent(eventId, decided, body, now));
      return Ok(i);
    }

    /** `mark_delivered` */
    method MarkDelivered(eventId: string, recipient: string)
      requires Orderly(document)
      modifies this
      ensures Orderly(document) && document == AfterOp(old(document), MarkOp(eventId, recipient))
    {
      MarkKeepsInv(document, eventId, recipient);
      document := document.(outbox := D.Marked(document.outbox, eventId, recipient));
    }
  }

  predicate IsDecision(a: ApprovalRecord, id: string, taskId: string, version: int) {
    a.id == id && a.taskId == taskId && a.planVersion == version && a.status == Pending
  }

  lemma {:induction false} CountingUpAt(n: nat)
    ensures |CountingUp(n)| == n && forall i | 0 <= i < n :: CountingUp(n)[i] == i + 1
  {
    if n > 0 { CountingUpAt(n - 1); }
  }

  lemma HighestCounted(versions: seq<int>, highest: int)
    requires versions == CountingUp(|versions|) && highest >= 0
    requires forall x | x in versions :: x <= highest
    requires highest == 0 || highest in versions
    ensures highest == |versions|
  {
    CountingUpAt(|versions|);
    if versions != [] { assert versions[|versions| - 1] in versions; }
  }
}
