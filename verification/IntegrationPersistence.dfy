/**
 The states of the protocol as they stand in the file, commits named by their object ids.
 */
module IntegrationPersistence {
  import opened Wrappers
  import opened TeamModels
  import opened GitGraph
  import P = IntegrationProtocol
  import S = IntegrationSafety
  import F = IntegrationFile

  /** How Git names its commits. */
  type Naming = Commit -> string

  function NameOption(o: Option<Commit>, name: Naming): Option<string> {
    if o.Some? then Some(name(o.value)) else None
  }

  function NameRecord(r: IntegratedTaskRecord<Commit>, name: Naming): IntegratedTaskRecord<string> {
    IntegratedTaskRecord(r.task, r.memberName, r.sourceBranch, name(r.sourceCommit), name(r.previousHead),
                         name(r.integrationHead), r.integratedAt)
  }

  function NameIntent(i: P.Intent, name: Naming): IntegrationIntent<string> {
    IntegrationIntent(i.kind, i.task, i.memberName, i.sourceBranch, NameOption(i.sourceCommit, name),
                      name(i.expectedHead), i.resultText, i.startedAt)
  }

  function NameFailure(f: P.Failure, name: Naming): IntegrationFailure<string> {
    IntegrationFailure(f.stage, f.message, f.task, f.memberName, NameOption(f.commit, name), f.conflictPaths,
                       f.occurredAt)
  }

  function NameRound(r: P.Round, name: Naming): F.Round {
    IntegrationRound(r.number, r.phase, r.targetBranch, NameOption(r.baseCommit, name), r.integrationOwnerId,
                     r.integrationRoot, r.integrationBranch, NameOption(r.integrationHead, name),
                     seq(|r.accepted|, k requires 0 <= k < |r.accepted| => NameRecord(r.accepted[k], name)),
                     if r.intent.Some? then Some(NameIntent(r.intent.value, name)) else None,
                     if r.failure.Some? then Some(NameFailure(r.failure.value, name)) else None,
                     r.startedAt, r.updatedAt, r.publishedAt)
  }

  function NameState(s: P.State, name: Naming): F.State {
    TeamIntegrationState(s.revision, s.nextRound,
                         if s.current.Some? then Some(NameRound(s.current.value, name)) else None,
                         seq(|s.history|, k requires 0 <= k < |s.history| => NameRound(s.history[k], name)))
  }

  lemma NamedRoundIsStorable(r: P.Round, name: Naming)
    requires OkRound(r) && forall c :: F.IsObjectId(name(c))
    ensures F.StorableRound(NameRound(r, name))
  {
    var n := NameRound(r, name);
    forall i | 0 <= i < |n.accepted| ensures OkRecord(n.accepted[i]) && F.RecordIds(n.accepted[i]) {
      assert OkRecord(r.accepted[i]);
    }
    forall i, j | 0 <= i < j < |n.accepted| ensures n.accepted[i].task != n.accepted[j].task {
      assert r.accepted[i].task != r.accepted[j].task;
    }
  }

  lemma NamedStateIsStorable(s: P.State, name: Naming)
    requires WellFormed(s) && forall c :: F.IsObjectId(name(c))
    ensures F.Storable(NameState(s, name))
  {
    var n := NameState(s, name);
    forall i | 0 <= i < |Rounds(n)|
      ensures F.StorableRound(Rounds(n)[i]) && Rounds(n)[i].number == Rounds(s)[i].number
    {
      assert Rounds(n)[i] == NameRound(Rounds(s)[i], name);
      NamedRoundIsStorable(Rounds(s)[i], name);
    }
  }

  lemma StorableIffWellFormed(s: P.State, name: Naming)
    requires forall c :: F.IsObjectId(name(c))
    ensures F.Storable(NameState(s, name)) ==> Increasing(Rounds(s))
    ensures WellFormed(s) ==> F.Storable(NameState(s, name))
  {
    var n := NameState(s, name);
    if WellFormed(s) { NamedStateIsStorable(s, name); }
    if F.Storable(n) {
      forall i, j | 0 <= i < j < |Rounds(s)| ensures Rounds(s)[i].number < Rounds(s)[j].number {
        assert Rounds(n)[i].number < Rounds(n)[j].number;
      }
    }
  }

  /**
   What the service has written, the next process reads back unchanged, at any point of any run,
   exactly as long as no archived round was written back as current.
   */
  lemma WrittenStatesReadBack(worlds: seq<P.World>, actions: seq<P.Action>, k: nat, name: Naming)
    requires S.FromStart(worlds, actions) && k < |worlds| && forall c :: F.IsObjectId(name(c))
    ensures F.Parse(F.StateToJson(NameState(worlds[k].state, name))) == Ok(NameState(worlds[k].state, name))
       <==> forall j | 0 <= j < k :: !actions[j].Resurrect?
  {
    hide P.Inv, P.MayHappen, P.After, F.Parse, F.StateToJson, NameState;
    S.RunHolds(worlds, actions, k);
    P.ReadableUnlessResurrected(worlds[k]);
    if P.Resurrected(worlds[k]) { P.CopyIsRefused(worlds[k]); }
    StorableIffWellFormed(worlds[k].state, name);
    F.ReadsBackIffStorable(NameState(worlds[k].state, name));
  }
}
