/**
 Scoring of extracted memories: which predictions may satisfy which expectation, the report of
 one case, and the totals over all cases.
 */
module MemoryExtraction {
  import opened Matching

  datatype MemoryNote = MemoryNote(
    noteId: string, scope: string, category: string, title: string, body: string,
    critical: bool, sourceEvidence: seq<string>)

  datatype ExpectedMemory = ExpectedMemory(
    key: string, scope: string, category: string, critical: bool,
    evidence: seq<string>, contentTermGroups: seq<seq<string>>)

  datatype ExtractionCase = ExtractionCase(caseId: string, expected: seq<ExpectedMemory>)

  datatype ExtractionMatch = ExtractionMatch(expectedKey: string, predictedNoteId: string, evidence: string)

  datatype ExtractionCaseResult = ExtractionCaseResult(
    caseId: string, matches: seq<ExtractionMatch>,
    falsePositives: seq<MemoryNote>, falseNegatives: seq<ExpectedMemory>)

  datatype ExtractionMetrics = ExtractionMetrics(
    tp: nat, fp: nat, fn: nat, precision: real, recall: real, f1: real,
    criticalTp: nat, criticalFp: nat, criticalFn: nat, criticalPrecision: real, criticalRecall: real)

  // ---------------------------------------------------------------------------
  // Edges
  // ---------------------------------------------------------------------------

  predicate Contains(text: string, part: string) {
    exists i :: 0 <= i <= |text| && part <= text[i..]
  }

  predicate ContainsEither(left: string, right: string) {
    Contains(right, left) || Contains(left, right)
  }

  function Join(separator: string, parts: seq<string>): string {
    if |parts| == 0 then ""
    else if |parts| == 1 then parts[0]
    else parts[0] + separator + Join(separator, parts[1..])
  }

  /** `normalize` stands for the Unicode normalisation of a text. */
  predicate Matches(normalize: string -> string, note: MemoryNote, expected: ExpectedMemory) {
    && note.scope == expected.scope && note.category == expected.category && note.critical == expected.critical
    && (forall quote | quote in expected.evidence ::
          exists item | item in note.sourceEvidence :: ContainsEither(normalize(quote), normalize(item)))
    && (var content := normalize(Join(" ", [note.title, note.body] + note.sourceEvidence));
        forall group | group in expected.contentTermGroups ::
          exists term | term in group :: Contains(content, normalize(term)))
  }

  /** The indices below `n` of the expectations that `note` may satisfy, in order. */
  function Candidates(normalize: string -> string, note: MemoryNote, expected: seq<ExpectedMemory>,
                      n: nat): (r: seq<nat>)
    requires n <= |expected|
    ensures forall e: nat :: e in r <==> e < n && Matches(normalize, note, expected[e])
  {
    if n == 0 then []
    else
      var r := Candidates(normalize, note, expected, n - 1);
      if Matches(normalize, note, expected[n - 1]) then r + [n - 1] else r
  }

  function CandidateEdges(normalize: string -> string, predictions: seq<MemoryNote>,
                          expected: seq<ExpectedMemory>): Edges {
    seq(|predictions|, q requires 0 <= q < |predictions| =>
      Candidates(normalize, predictions[q], expected, |expected|))
  }

  function CriticalEntries(expected: seq<ExpectedMemory>): set<nat> {
    set e | 0 <= e < |expected| && expected[e].critical
  }

  // ---------------------------------------------------------------------------
  // The report of one case
  // ---------------------------------------------------------------------------

  /** The pairing seen from the predictions. */
  function Inverse(owner: map<nat, nat>): map<nat, nat>
    requires OneToOneOutside(owner, {})
  {
    map e | e in owner :: owner[e] := e
  }

  /** One row per paired prediction below `n`, in prediction order. */
  function MatchRows(predictions: seq<MemoryNote>, expected: seq<ExpectedMemory>, pairing: map<nat, nat>,
                     n: nat): seq<ExtractionMatch>
    requires n <= |predictions|
    requires forall q | q in pairing :: pairing[q] < |expected|
  {
    if n == 0 then []
    else
      var rows := MatchRows(predictions, expected, pairing, n - 1);
      if n - 1 !in pairing then rows
      else rows + [ExtractionMatch(expected[pairing[n - 1]].key, predictions[n - 1].noteId,
                                   Join(" | ", predictions[n - 1].sourceEvidence))]
  }

  /** The items below `n` whose index is not taken. */
  function Leftover<T>(items: seq<T>, taken: set<nat>, n: nat): seq<T>
    requires n <= |items|
  {
    if n == 0 then []
    else
      var rest := Leftover(items, taken, n - 1);
      if n - 1 in taken then rest else rest + [items[n - 1]]
  }

  ghost predicate ValidPairing(normalize: string -> string, predictions: seq<MemoryNote>,
                               expected: seq<ExpectedMemory>, owner: map<nat, nat>) {
    IsMatching(owner, CandidateEdges(normalize, predictions, expected))
  }

  lemma PairingInRange(normalize: string -> string, predictions: seq<MemoryNote>, expected: seq<ExpectedMemory>,
                       owner: map<nat, nat>)
    requires ValidPairing(normalize, predictions, expected, owner)
    ensures forall e | e in owner ::
        e < |expected| && owner[e] < |predictions| && Matches(normalize, predictions[owner[e]], expected[e])
  {
    forall e | e in owner
      ensures e < |expected| && owner[e] < |predictions| && Matches(normalize, predictions[owner[e]], expected[e])
    {
      assert e in CandidateEdges(normalize, predictions, expected)[owner[e]];
    }
  }

  ghost function Report(normalize: string -> string, case_: ExtractionCase, predictions: seq<MemoryNote>,
                        owner: map<nat, nat>): ExtractionCaseResult
    requires ValidPairing(normalize, predictions, case_.expected, owner)
  {
    PairingInRange(normalize, predictions, case_.expected, owner);
    var pairing := Inverse(owner);
    ExtractionCaseResult(
      case_.caseId,
      MatchRows(predictions, case_.expected, pairing, |predictions|),
      Leftover(predictions, pairing.Keys, |predictions|),
      Leftover(case_.expected, owner.Keys, |case_.expected|))
  }

  method Match(normalize: string -> string, case_: ExtractionCase, predictions: seq<MemoryNote>)
      returns (result: ExtractionCaseResult, ghost owner: map<nat, nat>)
    ensures Maximum(owner, CandidateEdges(normalize, predictions, case_.expected))
    ensures result == Report(normalize, case_, predictions, owner)
  {
    var edges := CandidateEdges(normalize, predictions, case_.expected);
    var expectedOwner := MaximumMatching(edges);
    PairingInRange(normalize, predictions, case_.expected, expectedOwner);
    var predictionToExpected := Inverse(expectedOwner);
    owner := expectedOwner;
    result := ExtractionCaseResult(
      case_.caseId,
      MatchRows(predictions, case_.expected, predictionToExpected, |predictions|),
      Leftover(predictions, predictionToExpected.Keys, |predictions|),
      Leftover(case_.expected, expectedOwner.Keys, |case_.expected|));
  }

  // ---------------------------------------------------------------------------
  // Counting
  // ---------------------------------------------------------------------------

  /** How many indices below `n` are in `s`. */
  ghost function Hits(s: set<nat>, n: nat): nat {
    if n == 0 then 0 else Hits(s, n - 1) + if n - 1 in s then 1 else 0
  }

  lemma {:induction false} HitsIsSize(s: set<nat>, n: nat)
    requires forall i | i in s :: i < n
    ensures Hits(s, n) == |s|
  {
    if n == 0 {
      assert s == {};
    } else {
      HitsIsSize(s - {n - 1}, n - 1);
      HitsDependsBelow(s, s - {n - 1}, n - 1);
    }
  }

  lemma {:induction false} HitsDependsBelow(s: set<nat>, t: set<nat>, n: nat)
    requires forall i | 0 <= i < n :: i in s <==> i in t
    ensures Hits(s, n) == Hits(t, n)
  {
    if n > 0 { HitsDependsBelow(s, t, n - 1); }
  }

  /** A one-to-one pairing has as many predictions as expectations. */
  lemma {:induction false} ImageSize(owner: map<nat, nat>, part: set<nat>)
    requires OneToOneOutside(owner, {}) && forall e | e in part :: e in owner
    ensures |set e | e in part :: owner[e]| == |part|
  {
    var image := set e | e in part :: owner[e];
    if e :| e in part {
      var rest := set f | f in part - {e} :: owner[f];
      ImageSize(owner, part - {e});
      assert image == rest + {owner[e]};
      assert owner[e] !in rest;
    } else {
      assert image == {};
    }
  }

  function CriticalNotes(notes: seq<MemoryNote>): nat {
    if |notes| == 0 then 0
    else CriticalNotes(notes[..|notes| - 1]) + if notes[|notes| - 1].critical then 1 else 0
  }

  function CriticalExpected(expected: seq<ExpectedMemory>): nat {
    if |expected| == 0 then 0
    else CriticalExpected(expected[..|expected| - 1]) + if expected[|expected| - 1].critical then 1 else 0
  }

  /** The dictionary keyed by expected key: a later entry replaces an earlier one. */
  function ExpectedByKey(expected: seq<ExpectedMemory>): (r: map<string, ExpectedMemory>)
    ensures forall e | 0 <= e < |expected| :: expected[e].key in r
  {
    if |expected| == 0 then map[]
    else ExpectedByKey(expected[..|expected| - 1])[expected[|expected| - 1].key := expected[|expected| - 1]]
  }

  function CountedHits(byKey: map<string, ExpectedMemory>, rows: seq<ExtractionMatch>): nat
    requires forall row | row in rows :: row.expectedKey in byKey
  {
    if |rows| == 0 then 0
    else CountedHits(byKey, rows[..|rows| - 1]) + if byKey[rows[|rows| - 1].expectedKey].critical then 1 else 0
  }

  /** Expectations that share a key agree on whether they are critical. */
  ghost predicate KeysAgree(expected: seq<ExpectedMemory>) {
    forall e, f | 0 <= e < |expected| && 0 <= f < |expected| && expected[e].key == expected[f].key ::
      expected[e].critical == expected[f].critical
  }

  lemma {:induction false} LookupAgrees(expected: seq<ExpectedMemory>, e: nat)
    requires e < |expected|
    ensures exists f :: e <= f < |expected| && expected[f].key == expected[e].key
              && ExpectedByKey(expected)[expected[e].key] == expected[f]
  {
    var last := |expected| - 1;
    if expected[last].key != expected[e].key {
      LookupAgrees(expected[..last], e);
      var f :| e <= f < last && expected[..last][f].key == expected[e].key
               && ExpectedByKey(expected[..last])[expected[e].key] == expected[..last][f];
      assert expected[f].key == expected[e].key;
    }
  }

  lemma {:induction false} LeftoverCounts<T>(items: seq<T>, taken: set<nat>, n: nat)
    requires n <= |items|
    ensures |Leftover(items, taken, n)| + Hits(taken, n) == n
  {
    if n > 0 { LeftoverCounts(items, taken, n - 1); }
  }

  lemma {:induction false} RowCounts(predictions: seq<MemoryNote>, expected: seq<ExpectedMemory>,
                                     pairing: map<nat, nat>, n: nat)
    requires n <= |predictions|
    requires forall q | q in pairing :: pairing[q] < |expected|
    ensures |MatchRows(predictions, expected, pairing, n)| == Hits(pairing.Keys, n)
    ensures forall row | row in MatchRows(predictions, expected, pairing, n) ::
        exists e :: 0 <= e < |expected| && row.expectedKey == expected[e].key
  {
    if n > 0 {
      RowCounts(predictions, expected, pairing, n - 1);
      if n - 1 in pairing {
        assert expected[pairing[n - 1]].key == expected[pairing[n - 1]].key;
      }
    }
  }

  lemma InverseSize(owner: map<nat, nat>)
    requires OneToOneOutside(owner, {})
    ensures Inverse(owner).Keys == set e | e in owner.Keys :: owner[e]
    ensures |Inverse(owner).Keys| == |owner|
  {
    ImageSize(owner, owner.Keys);
  }

  /** Pairs and unpaired items add up, on each side of any one-to-one pairing within range. */
  lemma PairsAndLeftovers(predictions: seq<MemoryNote>, expected: seq<ExpectedMemory>, owner: map<nat, nat>)
    requires OneToOneOutside(owner, {})
    requires forall e | e in owner :: e < |expected| && owner[e] < |predictions|
    ensures |MatchRows(predictions, expected, Inverse(owner), |predictions|)| == |owner|
    ensures |owner| + |Leftover(predictions, Inverse(owner).Keys, |predictions|)| == |predictions|
    ensures |owner| + |Leftover(expected, owner.Keys, |expected|)| == |expected|
  {
    var pairing := Inverse(owner);
    InverseSize(owner);
    RowCounts(predictions, expected, pairing, |predictions|);
    LeftoverCounts(predictions, pairing.Keys, |predictions|);
    LeftoverCounts(expected, owner.Keys, |expected|);
    HitsIsSize(pairing.Keys, |predictions|);
    HitsIsSize(owner.Keys, |expected|);
  }

  /** Nothing is dropped: pairs and leftovers add up to the predictions and to the expectations. */
  lemma ReportAccountsForAll(normalize: string -> string, case_: ExtractionCase, predictions: seq<MemoryNote>,
                             owner: map<nat, nat>)
    requires ValidPairing(normalize, predictions, case_.expected, owner)
    ensures var r := Report(normalize, case_, predictions, owner);
            && |r.matches| == |owner|
            && |r.matches| + |r.falsePositives| == |predictions|
            && |r.matches| + |r.falseNegatives| == |case_.expected|
  {
    PairingInRange(normalize, predictions, case_.expected, owner);
    PairsAndLeftovers(predictions, case_.expected, owner);
  }

  // ---------------------------------------------------------------------------
  // The critical share of a report
  // ---------------------------------------------------------------------------

  ghost function CriticalNotesAmong(notes: seq<MemoryNote>, s: set<nat>): set<nat> {
    set i | i in s && i < |notes| && notes[i].critical
  }

  ghost function CriticalExpectedAmong(expected: seq<ExpectedMemory>, s: set<nat>): set<nat> {
    set i | i in s && i < |expected| && expected[i].critical
  }

  lemma CriticalNotesAppend(notes: seq<MemoryNote>, note: MemoryNote)
    ensures CriticalNotes(notes + [note]) == CriticalNotes(notes) + if note.critical then 1 else 0
  {
    assert (notes + [note])[..|notes|] == notes;
  }

  lemma CriticalExpectedAppend(expected: seq<ExpectedMemory>, item: ExpectedMemory)
    ensures CriticalExpected(expected + [item]) == CriticalExpected(expected) + if item.critical then 1 else 0
  {
    assert (expected + [item])[..|expected|] == expected;
  }

  lemma CountedHitsAppend(byKey: map<string, ExpectedMemory>, rows: seq<ExtractionMatch>, row: ExtractionMatch)
    requires forall x | x in rows :: x.expectedKey in byKey
    requires row.expectedKey in byKey
    ensures forall x | x in rows + [row] :: x.expectedKey in byKey
    ensures CountedHits(byKey, rows + [row]) == CountedHits(byKey, rows) + if byKey[row.expectedKey].critical then 1
        else 0
  {
    assert (rows + [row])[..|rows|] == rows;
  }

  lemma CriticalNotesTake(notes: seq<MemoryNote>, n: nat)
    requires 0 < n <= |notes|
    ensures CriticalNotes(notes[..n]) == CriticalNotes(notes[..n - 1]) + if notes[n - 1].critical then 1 else 0
  {
    assert notes[..n][..n - 1] == notes[..n - 1];
  }

  lemma CriticalExpectedTake(expected: seq<ExpectedMemory>, n: nat)
    requires 0 < n <= |expected|
    ensures CriticalExpected(expected[..n]) == CriticalExpected(expected[..n - 1]) + if expected[n - 1].critical then 1
        else 0
  {
    assert expected[..n][..n - 1] == expected[..n - 1];
  }

  lemma HitsNext(s: set<nat>, n: nat, hit: bool)
    requires n > 0 && (n - 1 in s <==> hit)
    ensures Hits(s, n) == Hits(s, n - 1) + if hit then 1 else 0
  {
  }

  lemma {:induction false} LeftoverCriticalNotes(notes: seq<MemoryNote>, taken: set<nat>, n: nat)
    requires n <= |notes|
    ensures CriticalNotes(notes[..n])
         == CriticalNotes(Leftover(notes, taken, n)) + Hits(CriticalNotesAmong(notes, taken), n)
  {
    if n > 0 {
      LeftoverCriticalNotes(notes, taken, n - 1);
      CriticalNotesTake(notes, n);
      CriticalNotesAppend(Leftover(notes, taken, n - 1), notes[n - 1]);
      HitsNext(CriticalNotesAmong(notes, taken), n, n - 1 in taken && notes[n - 1].critical);
    }
  }

  lemma {:induction false} LeftoverCriticalExpected(expected: seq<ExpectedMemory>, taken: set<nat>, n: nat)
    requires n <= |expected|
    ensures CriticalExpected(expected[..n])
         == CriticalExpected(Leftover(expected, taken, n)) + Hits(CriticalExpectedAmong(expected, taken), n)
  {
    if n > 0 {
      LeftoverCriticalExpected(expected, taken, n - 1);
      CriticalExpectedTake(expected, n);
      CriticalExpectedAppend(Leftover(expected, taken, n - 1), expected[n - 1]);
      HitsNext(CriticalExpectedAmong(expected, taken), n, n - 1 in taken && expected[n - 1].critical);
    }
  }

  /**
   Looking an expectation up by its key tells whether it is critical, for every entry,
   exactly when entries that share a key agree.
   */
  lemma KeyLookupIsSound(expected: seq<ExpectedMemory>)
    ensures KeysAgree(expected)
       <==> forall e | 0 <= e < |expected| :: ExpectedByKey(expected)[expected[e].key].critical == expected[e].critical
  {
    forall e | 0 <= e < |expected|
      ensures KeysAgree(expected) ==> ExpectedByKey(expected)[expected[e].key].critical == expected[e].critical
    {
      LookupAgrees(expected, e);
    }
  }

  lemma {:induction false} CountedRows(predictions: seq<MemoryNote>, expected: seq<ExpectedMemory>,
                                       pairing: map<nat, nat>, n: nat)
    requires n <= |predictions| && KeysAgree(expected)
    requires forall q | q in pairing ::
        q < |predictions| && pairing[q] < |expected| && predictions[q].critical == expected[pairing[q]].critical
    ensures forall row | row in MatchRows(predictions, expected, pairing, n) ::
        row.expectedKey in ExpectedByKey(expected)
    ensures CountedHits(ExpectedByKey(expected), MatchRows(predictions, expected, pairing, n))
         == Hits(CriticalNotesAmong(predictions, pairing.Keys), n)
  {
    if n > 0 {
      CountedRows(predictions, expected, pairing, n - 1);
      if n - 1 in pairing {
        KeyLookupIsSound(expected);
        var e := pairing[n - 1];
        var row := ExtractionMatch(expected[e].key, predictions[n - 1].noteId,
                                   Join(" | ", predictions[n - 1].sourceEvidence));
        CountedHitsAppend(ExpectedByKey(expected), MatchRows(predictions, expected, pairing, n - 1), row);
      }
    }
  }

  lemma CriticalImage(predictions: seq<MemoryNote>, expected: seq<ExpectedMemory>, owner: map<nat, nat>, part: set<nat>)
    requires part == PairsIn(owner, CriticalEntries(expected)).Keys
    requires forall e | e in owner ::
        e < |expected| && owner[e] < |predictions| && predictions[owner[e]].critical == expected[e].critical
    ensures CriticalNotesAmong(predictions, set e | e in owner.Keys :: owner[e]) == set e | e in part :: owner[e]
  {
    var paired := set e | e in owner.Keys :: owner[e];
    forall q | q in paired && q < |predictions| && predictions[q].critical
      ensures q in set e | e in part :: owner[e]
    {
      var e :| e in owner && owner[e] == q;
      assert e in part;
    }
  }

  lemma CriticalPairsFromPredictions(predictions: seq<MemoryNote>, expected: seq<ExpectedMemory>, owner: map<nat, nat>)
    requires OneToOneOutside(owner, {})
    requires forall e | e in owner ::
        e < |expected| && owner[e] < |predictions| && predictions[owner[e]].critical == expected[e].critical
    ensures |CriticalNotesAmong(predictions, Inverse(owner).Keys)| == |PairsIn(owner, CriticalEntries(expected))|
  {
    var part := PairsIn(owner, CriticalEntries(expected)).Keys;
    InverseSize(owner);
    ImageSize(owner, part);
    CriticalImage(predictions, expected, owner, part);
  }

  /** The critical pairs, counted from the predictions or from the expectations. */
  lemma CriticalPairsBothWays(predictions: seq<MemoryNote>, expected: seq<ExpectedMemory>, owner: map<nat, nat>)
    requires OneToOneOutside(owner, {})
    requires forall e | e in owner ::
        e < |expected| && owner[e] < |predictions| && predictions[owner[e]].critical == expected[e].critical
    ensures var pairs := |PairsIn(owner, CriticalEntries(expected))|;
      && Hits(CriticalNotesAmong(predictions, Inverse(owner).Keys), |predictions|) == pairs
      && Hits(CriticalExpectedAmong(expected, owner.Keys), |expected|) == pairs
  {
    CriticalPairsFromPredictions(predictions, expected, owner);
    HitsIsSize(CriticalNotesAmong(predictions, Inverse(owner).Keys), |predictions|);
    HitsIsSize(CriticalExpectedAmong(expected, owner.Keys), |expected|);
    assert PairsIn(owner, CriticalEntries(expected)).Keys == CriticalExpectedAmong(expected, owner.Keys);
  }

  /** Where keys are unambiguous, the critical counts of a report add up too. */
  lemma CriticalAccounting(normalize: string -> string, case_: ExtractionCase, predictions: seq<MemoryNote>,
                           owner: map<nat, nat>)
    requires ValidPairing(normalize, predictions, case_.expected, owner) && KeysAgree(case_.expected)
    ensures var r, byKey := Report(normalize, case_, predictions, owner), ExpectedByKey(case_.expected);
      && (forall row | row in r.matches :: row.expectedKey in byKey)
      && CountedHits(byKey, r.matches) == |PairsIn(owner, CriticalEntries(case_.expected))|
      && CountedHits(byKey, r.matches) + CriticalNotes(r.falsePositives) == CriticalNotes(predictions)
      && CountedHits(byKey, r.matches) + CriticalExpected(r.falseNegatives) == CriticalExpected(case_.expected)
  {
    PairingInRange(normalize, predictions, case_.expected, owner);
    CriticalPairsBothWays(predictions, case_.expected, owner);
    CountedRows(predictions, case_.expected, Inverse(owner), |predictions|);
    LeftoverCriticalNotes(predictions, Inverse(owner).Keys, |predictions|);
    LeftoverCriticalExpected(case_.expected, owner.Keys, |case_.expected|);
    assert predictions[..|predictions|] == predictions && case_.expected[..|case_.expected|] == case_.expected;
  }

  /** The critical hits that are counted are the critical expectations that are met. */
  ghost predicate CountsCritical(normalize: string -> string, case_: ExtractionCase, predictions: seq<MemoryNote>,
                                 owner: map<nat, nat>) {
    && ValidPairing(normalize, predictions, case_.expected, owner)
    && (forall row | row in Report(normalize, case_, predictions, owner).matches ::
        row.expectedKey in ExpectedByKey(case_.expected))
    && CountedHits(ExpectedByKey(case_.expected), Report(normalize, case_, predictions, owner).matches)
       == |PairsIn(owner, CriticalEntries(case_.expected))|
  }

  lemma SingleIsValid(normalize: string -> string, note: MemoryNote, expected: seq<ExpectedMemory>, e: nat)
    requires e < |expected| && Matches(normalize, note, expected[e])
    ensures ValidPairing(normalize, [note], expected, map[e := 0])
  {
    assert e in CandidateEdges(normalize, [note], expected)[0];
  }

  lemma SinglePairs(expected: seq<ExpectedMemory>, e: nat)
    requires e < |expected|
    ensures |PairsIn(map[e := 0], CriticalEntries(expected))| == if expected[e].critical then 1 else 0
  {
    var owner: map<nat, nat> := map[e := 0];
    assert PairsIn(owner, CriticalEntries(expected)) == if expected[e].critical then owner else map[];
  }

  lemma SingleRow(note: MemoryNote, expected: seq<ExpectedMemory>, e: nat)
    requires e < |expected|
    ensures MatchRows([note], expected, map[0 := e], 1) ==
        [ExtractionMatch(expected[e].key, note.noteId, Join(" | ", note.sourceEvidence))]
  {
    assert MatchRows([note], expected, map[0 := e], 0) == [];
  }

  lemma SingleCount(byKey: map<string, ExpectedMemory>, row: ExtractionMatch)
    requires row.expectedKey in byKey
    ensures CountedHits(byKey, [row]) == if byKey[row.expectedKey].critical then 1 else 0
  {
    assert [row][..0] == [];
  }

  /** One prediction, paired with one expectation. */
  lemma SinglePair(normalize: string -> string, case_: ExtractionCase, note: MemoryNote, e: nat)
    requires e < |case_.expected| && Matches(normalize, note, case_.expected[e])
    ensures ValidPairing(normalize, [note], case_.expected, map[e := 0])
    ensures |PairsIn(map[e := 0], CriticalEntries(case_.expected))| == if case_.expected[e].critical then 1 else 0
    ensures
      var rows := Report(normalize, case_, [note], map[e := 0]).matches;
      && rows == [ExtractionMatch(case_.expected[e].key, note.noteId, Join(" | ", note.sourceEvidence))]
      && CountedHits(ExpectedByKey(case_.expected), rows)
         == if ExpectedByKey(case_.expected)[case_.expected[e].key].critical then 1 else 0
  {
    hide Matches, CountedHits, MatchRows, Join, ExpectedByKey;
    SingleIsValid(normalize, note, case_.expected, e);
    SinglePairs(case_.expected, e);
    SingleRow(note, case_.expected, e);
    SingleCount(ExpectedByKey(case_.expected),
                ExtractionMatch(case_.expected[e].key, note.noteId, Join(" | ", note.sourceEvidence)));
    assert Inverse(map[e := 0]) == map[0 := e];
  }

  /** Some prediction would satisfy the expectation. */
  ghost predicate CanBeMet(normalize: string -> string, e: ExpectedMemory) {
    exists note :: Matches(normalize, note, e)
  }

  /** What the data set loader demands of an expectation. */
  predicate Loadable(e: ExpectedMemory) {
    && e.key != "" && e.evidence != [] && (forall q | q in e.evidence :: q != "")
    && e.contentTermGroups != [] && NonEmptyGroups(e.contentTermGroups)
    && forall g | g in e.contentTermGroups :: forall term | term in g :: term != ""
  }

  predicate NonEmptyGroups(groups: seq<seq<string>>) {
    forall k | 0 <= k < |groups| :: groups[k] != []
  }

  /** Normalising keeps the parts of a text that are set apart by spaces. */
  ghost predicate KeepsParts(normalize: string -> string) {
    forall parts: seq<string>, i | 0 <= i < |parts| :: Contains(normalize(Join(" ", parts)), normalize(parts[i]))
  }

  lemma {:induction false} JoinContains(separator: string, parts: seq<string>, i: nat)
    requires i < |parts|
    ensures Contains(Join(separator, parts), parts[i])
    decreases |parts|
  {
    var text := Join(separator, parts);
    if i == 0 {
      assert parts[0] <= text[0..];
    } else {
      JoinContains(separator, parts[1..], i - 1);
      var rest := Join(separator, parts[1..]);
      var k :| 0 <= k <= |rest| && parts[i] <= rest[k..];
      var at := |parts[0]| + |separator| + k;
      assert text[at..] == rest[k..];
    }
  }

  /** One term of each group. */
  function FirstTerms(groups: seq<seq<string>>): (r: seq<string>)
    requires NonEmptyGroups(groups)
    ensures |r| == |groups| && forall k | 0 <= k < |groups| :: r[k] == groups[k][0]
  {
    seq(|groups|, k requires 0 <= k < |groups| => groups[k][0])
  }

  lemma ItselfIsPart(text: string)
    ensures Contains(text, text)
  {
    assert text <= text[0..];
  }

  /** A prediction that quotes the evidence and one term of each group. */
  lemma LoadedCanBeMet(normalize: string -> string, e: ExpectedMemory)
    requires Loadable(e) && KeepsParts(normalize)
    ensures CanBeMet(normalize, e)
  {
    hide Contains, Join;
    var terms := FirstTerms(e.contentTermGroups);
    var note := MemoryNote("n", e.scope, e.category, "", "", e.critical, e.evidence + terms);
    var parts := ["", ""] + note.sourceEvidence;
    forall quote | quote in e.evidence
      ensures exists item | item in note.sourceEvidence :: ContainsEither(normalize(quote), normalize(item))
    {
      ItselfIsPart(normalize(quote));
      assert ContainsEither(normalize(quote), normalize(quote)) && quote in note.sourceEvidence;
    }
    forall group | group in e.contentTermGroups
      ensures exists term | term in group :: Contains(normalize(Join(" ", parts)), normalize(term))
    {
      var k :| 0 <= k < |e.contentTermGroups| && e.contentTermGroups[k] == group;
      assert parts[2 + |e.evidence| + k] == group[0] && group[0] in group;
    }
    assert ["", ""] + note.sourceEvidence == [note.title, note.body] + note.sourceEvidence;
    assert Matches(normalize, note, e);
  }

  /** Where entries with one key disagree, some prediction of one of them is miscounted. */
  lemma SomeMiscount(normalize: string -> string, case_: ExtractionCase) returns (note: MemoryNote, e: nat)
    requires !KeysAgree(case_.expected) && forall f | 0 <= f < |case_.expected| ::
        CanBeMet(normalize, case_.expected[f])
    ensures ValidPairing(normalize, [note], case_.expected, map[e := 0])
        && !CountsCritical(normalize, case_, [note], map[e := 0])
  {
    KeyLookupIsSound(case_.expected);
    e :| 0 <= e < |case_.expected|
         && ExpectedByKey(case_.expected)[case_.expected[e].key].critical != case_.expected[e].critical;
    assert CanBeMet(normalize, case_.expected[e]);
    note :| Matches(normalize, note, case_.expected[e]);
    SinglePair(normalize, case_, note, e);
  }

  /**
   The critical hits are counted rightly for all predictions and all pairings exactly when
   expectations of the case that share a key agree on whether they are critical.
   */
  lemma CountsCriticalIff(normalize: string -> string, case_: ExtractionCase)
    requires forall e | 0 <= e < |case_.expected| :: CanBeMet(normalize, case_.expected[e])
    ensures KeysAgree(case_.expected)
       <==> forall predictions, owner | ValidPairing(normalize, predictions, case_.expected, owner) ::
              CountsCritical(normalize, case_, predictions, owner)
  {
    if KeysAgree(case_.expected) {
      forall predictions, owner | ValidPairing(normalize, predictions, case_.expected, owner)
        ensures CountsCritical(normalize, case_, predictions, owner)
      {
        CriticalAccounting(normalize, case_, predictions, owner);
      }
    } else {
      var note, e := SomeMiscount(normalize, case_);
    }
  }

  function Same(text: string): string {
    text
  }

  function CriticalEntry(): ExpectedMemory {
    ExpectedMemory("k", "user", "preference", true, ["q"], [["q"]])
  }

  function AmbiguousCase(): ExtractionCase {
    ExtractionCase("c", [CriticalEntry(), CriticalEntry().(critical := false)])
  }

  function QuotingNote(): MemoryNote {
    MemoryNote("n", "user", "preference", "q", "", true, ["q"])
  }

  lemma NoteMeetsEntry()
    ensures Matches(Same, QuotingNote(), CriticalEntry())
  {
    var note, entry := QuotingNote(), CriticalEntry();
    var parts := [note.title, note.body] + note.sourceEvidence;
    assert parts[0] == "q" && note.sourceEvidence[0] == "q";
    JoinContains(" ", parts, 0);
    forall quote | quote in entry.evidence
      ensures exists item | item in note.sourceEvidence :: ContainsEither(Same(quote), Same(item))
    {
      assert quote == "q" && "q" <= "q"[0..] && Contains("q", "q");
      assert "q" in note.sourceEvidence && ContainsEither(Same(quote), Same("q"));
    }
    forall group | group in entry.contentTermGroups
      ensures exists term | term in group :: Contains(Same(Join(" ", parts)), Same(term))
    {
      assert group == ["q"] && group[0] == "q" && Contains(Same(Join(" ", parts)), Same("q"));
    }
  }

  /**
   With an ambiguous key the count is wrong even for the best pairing: one critical expectation,
   met, is counted as none.
   */
  lemma AmbiguousKeyMiscounts() returns (owner: map<nat, nat>)
    ensures forall e | 0 <= e < |AmbiguousCase().expected| :: Loadable(AmbiguousCase().expected[e])
    ensures Maximum(owner, CandidateEdges(Same, [QuotingNote()], AmbiguousCase().expected))
    ensures |PairsIn(owner, CriticalEntries(AmbiguousCase().expected))| == 1
    ensures !CountsCritical(Same, AmbiguousCase(), [QuotingNote()], owner)
  {
    hide Matches;
    owner := map[0 := 0];
    NoteMeetsEntry();
    SinglePair(Same, AmbiguousCase(), QuotingNote(), 0);
    OnePredictionAtMostOne(Same, QuotingNote(), AmbiguousCase().expected, owner);
    assert ExpectedByKey(AmbiguousCase().expected)["k"] == AmbiguousCase().expected[1];
  }

  lemma OnePredictionAtMostOne(normalize: string -> string, note: MemoryNote, expected: seq<ExpectedMemory>,
                               owner: map<nat, nat>)
    requires ValidPairing(normalize, [note], expected, owner) && |owner| == 1
    ensures Maximum(owner, CandidateEdges(normalize, [note], expected))
  {
    forall other | IsMatching(other, CandidateEdges(normalize, [note], expected)) ensures |other| <= |owner| {
      PairingInRange(normalize, [note], expected, other);
      InverseSize(other);
      assert Inverse(other).Keys <= {0};
      SubsetSize(Inverse(other).Keys, {0});
    }
  }

  /** A maximum pairing also meets as many critical expectations as any pairing can. */
  lemma CriticalHitsAreMaximum(normalize: string -> string, predictions: seq<MemoryNote>, expected: seq<ExpectedMemory>,
                               owner: map<nat, nat>, other: map<nat, nat>)
    requires Maximum(owner, CandidateEdges(normalize, predictions, expected))
    requires ValidPairing(normalize, predictions, expected, other)
    ensures |PairsIn(other, CriticalEntries(expected))| <= |PairsIn(owner, CriticalEntries(expected))|
  {
    MaximumOnEachSide(owner, CandidateEdges(normalize, predictions, expected), CriticalEntries(expected), other);
  }

  // ---------------------------------------------------------------------------
  // Totals over all cases
  // ---------------------------------------------------------------------------

  function Ratio(numerator: nat, denominator: nat): real {
    if denominator == 0 then 0.0 else numerator as real / denominator as real
  }

  function F1(precision: real, recall: real): real {
    if precision + recall == 0.0 then 0.0 else 2.0 * precision * recall / (precision + recall)
  }

  function CaseById(cases: seq<ExtractionCase>): (r: map<string, ExtractionCase>)
    ensures forall i | 0 <= i < |cases| :: cases[i].caseId in r
  {
    if |cases| == 0 then map[]
    else CaseById(cases[..|cases| - 1])[cases[|cases| - 1].caseId := cases[|cases| - 1]]
  }

  lemma {:induction false} CaseByIdFinds(cases: seq<ExtractionCase>, i: nat)
    requires i < |cases|
    requires forall j, k | 0 <= j < k < |cases| :: cases[j].caseId != cases[k].caseId
    ensures CaseById(cases)[cases[i].caseId] == cases[i]
  {
    if i < |cases| - 1 { CaseByIdFinds(cases[..|cases| - 1], i); }
  }

  /** Every row can be looked up, as the dictionary accesses demand. */
  ghost predicate Resolvable(cases: seq<ExtractionCase>, result: ExtractionCaseResult) {
    && result.caseId in CaseById(cases)
    && forall row | row in result.matches :: row.expectedKey in ExpectedByKey(CaseById(cases)[result.caseId].expected)
  }

  datatype Totals = Totals(tp: nat, fp: nat, fn: nat, criticalTp: nat, criticalFp: nat, criticalFn: nat)

  ghost function AddResult(t: Totals, cases: seq<ExtractionCase>, r: ExtractionCaseResult): Totals
    requires Resolvable(cases, r)
  {
    Totals(t.tp + |r.matches|, t.fp + |r.falsePositives|, t.fn + |r.falseNegatives|,
           t.criticalTp + CountedHits(ExpectedByKey(CaseById(cases)[r.caseId].expected), r.matches),
           t.criticalFp + CriticalNotes(r.falsePositives),
           t.criticalFn + CriticalExpected(r.falseNegatives))
  }

  ghost function TotalsOf(cases: seq<ExtractionCase>, results: seq<ExtractionCaseResult>): Totals
    requires forall i | 0 <= i < |results| :: Resolvable(cases, results[i])
  {
    if |results| == 0 then Totals(0, 0, 0, 0, 0, 0)
    else
      var last := |results| - 1;
      AddResult(TotalsOf(cases, results[..last]), cases, results[last])
  }

  method AggregateExtractionMetrics(cases: seq<ExtractionCase>, results: seq<ExtractionCaseResult>)
      returns (m: ExtractionMetrics)
    requires forall i | 0 <= i < |results| :: Resolvable(cases, results[i])
    ensures TotalsOf(cases, results) == Totals(m.tp, m.fp, m.fn, m.criticalTp, m.criticalFp, m.criticalFn)
    ensures m.precision == Ratio(m.tp, m.tp + m.fp) && m.recall == Ratio(m.tp, m.tp + m.fn)
    ensures m.f1 == Ratio(2 * m.tp, 2 * m.tp + m.fp + m.fn)
    ensures m.criticalPrecision == Ratio(m.criticalTp, m.criticalTp + m.criticalFp)
    ensures m.criticalRecall == Ratio(m.criticalTp, m.criticalTp + m.criticalFn)
  {
    var caseById := CaseById(cases);
    var tp: nat, fp: nat, fn: nat := 0, 0, 0;
    var criticalTp: nat, criticalFp: nat, criticalFn: nat := 0, 0, 0;
    for i := 0 to |results|
      invariant TotalsOf(cases, results[..i]) == Totals(tp, fp, fn, criticalTp, criticalFp, criticalFn)
    {
      var result := results[i];
      assert results[..i + 1][..i] == results[..i];
      var expectedByKey := ExpectedByKey(caseById[result.caseId].expected);
      tp, fp, fn := tp + |result.matches|, fp + |result.falsePositives|, fn + |result.falseNegatives|;
      criticalTp := criticalTp + CountedHits(expectedByKey, result.matches);
      criticalFp := criticalFp + CriticalNotes(result.falsePositives);
      criticalFn := criticalFn + CriticalExpected(result.falseNegatives);
    }
    assert results[..|results|] == results;
    var precision, recall := Ratio(tp, tp + fp), Ratio(tp, tp + fn);
    HarmonicMean(tp, fp, fn);
    m := ExtractionMetrics(tp, fp, fn, precision, recall, F1(precision, recall), criticalTp, criticalFp, criticalFn,
                           Ratio(criticalTp, criticalTp + criticalFp), Ratio(criticalTp, criticalTp + criticalFn));
  }

  /** The harmonic mean of precision and recall, with its zero cases, is the usual count ratio. */
  lemma HarmonicMean(tp: nat, fp: nat, fn: nat)
    ensures F1(Ratio(tp, tp + fp), Ratio(tp, tp + fn)) == Ratio(2 * tp, 2 * tp + fp + fn)
  {
    if tp > 0 {
      HarmonicReal(tp as real, (tp + fp) as real, (tp + fn) as real);
    }
  }

  lemma HarmonicReal(t: real, a: real, b: real)
    requires t > 0.0 && a > 0.0 && b > 0.0
    ensures F1(t / a, t / b) == 2.0 * t / (a + b)
  {
    var p, r := t / a, t / b;
    HarmonicCross(t, a, b, p, r);
    CrossDivide(2.0 * p * r, p + r, 2.0 * t, a + b);
  }

  lemma HarmonicCross(t: real, a: real, b: real, p: real, r: real)
    requires t > 0.0 && a > 0.0 && b > 0.0 && p == t / a && r == t / b
    ensures p > 0.0 && r > 0.0
    ensures 2.0 * p * r * (a + b) == 2.0 * t * (p + r)
  {
    assert p * a == t && r * b == t;
    calc {
      2.0 * p * r * (a + b);
      2.0 * r * (p * a) + 2.0 * p * (r * b);
      2.0 * t * (p + r);
    }
  }

  lemma CrossDivide(x: real, y: real, u: real, v: real)
    requires y > 0.0 && v > 0.0 && x * v == u * y
    ensures x / y == u / v
  {
    var q := x / y;
    assert q * y == x;
    assert q * v * y == u * y;
    assert q * v == u;
  }

  /** One evaluated case: what was predicted and how it was paired. */
  datatype Evaluation = Evaluation(case_: ExtractionCase, predictions: seq<MemoryNote>, owner: map<nat, nat>)

  ghost predicate Evaluated(normalize: string -> string, runs: seq<Evaluation>) {
    forall i | 0 <= i < |runs| :: ValidPairing(normalize, runs[i].predictions, runs[i].case_.expected, runs[i].owner)
  }

  /** What was predicted and expected over all runs, and how much of it was paired. */
  datatype Tally = Tally(pairs: nat, criticalPairs: nat, predicted: nat, expected: nat, criticalPredicted: nat,
                         criticalExpected: nat)

  ghost function AddRun(t: Tally, run: Evaluation): Tally {
    Tally(t.pairs + |run.owner|,
          t.criticalPairs + |PairsIn(run.owner, CriticalEntries(run.case_.expected))|,
          t.predicted + |run.predictions|,
          t.expected + |run.case_.expected|,
          t.criticalPredicted + CriticalNotes(run.predictions),
          t.criticalExpected + CriticalExpected(run.case_.expected))
  }

  ghost function TallyOf(runs: seq<Evaluation>): Tally {
    if |runs| == 0 then Tally(0, 0, 0, 0, 0, 0)
    else AddRun(TallyOf(runs[..|runs| - 1]), runs[|runs| - 1])
  }

  /** The totals and the tally describe the same runs. */
  ghost predicate Accounted(t: Totals, all: Tally) {
    && t.tp == all.pairs && t.criticalTp == all.criticalPairs
    && t.tp + t.fp == all.predicted && t.tp + t.fn == all.expected
    && t.criticalTp + t.criticalFp == all.criticalPredicted
    && t.criticalTp + t.criticalFn == all.criticalExpected
  }

  /** `r` is the report of a run whose case is in the data set and whose keys are unambiguous. */
  ghost predicate Reported(normalize: string -> string, cases: seq<ExtractionCase>, run: Evaluation,
                           r: ExtractionCaseResult) {
    && ValidPairing(normalize, run.predictions, run.case_.expected, run.owner)
    && r == Report(normalize, run.case_, run.predictions, run.owner)
    && run.case_ in cases && KeysAgree(run.case_.expected)
  }

  ghost predicate DistinctCases(cases: seq<ExtractionCase>) {
    forall j, k | 0 <= j < k < |cases| :: cases[j].caseId != cases[k].caseId
  }

  /** The result describes the run's pairs, and what it leaves over is the rest. */
  ghost predicate Balanced(cases: seq<ExtractionCase>, run: Evaluation, r: ExtractionCaseResult)
    requires Resolvable(cases, r)
  {
    var hits := CountedHits(ExpectedByKey(CaseById(cases)[r.caseId].expected), r.matches);
    && |r.matches| == |run.owner|
    && |r.matches| + |r.falsePositives| == |run.predictions|
    && |r.matches| + |r.falseNegatives| == |run.case_.expected|
    && hits == |PairsIn(run.owner, CriticalEntries(run.case_.expected))|
    && hits + CriticalNotes(r.falsePositives) == CriticalNotes(run.predictions)
    && hits + CriticalExpected(r.falseNegatives) == CriticalExpected(run.case_.expected)
  }

  lemma RunAccounts(normalize: string -> string, cases: seq<ExtractionCase>, run: Evaluation, r: ExtractionCaseResult)
    requires DistinctCases(cases) && Reported(normalize, cases, run, r)
    ensures Resolvable(cases, r) && Balanced(cases, run, r)
  {
    var i :| 0 <= i < |cases| && cases[i] == run.case_;
    CaseByIdFinds(cases, i);
    ReportAccountsForAll(normalize, run.case_, run.predictions, run.owner);
    CriticalAccounting(normalize, run.case_, run.predictions, run.owner);
  }

  lemma {:induction false} BalancedRunsAccount(cases: seq<ExtractionCase>, runs: seq<Evaluation>,
                                               results: seq<ExtractionCaseResult>)
    requires |results| == |runs|
    requires forall i | 0 <= i < |results| :: Resolvable(cases, results[i]) && Balanced(cases, runs[i], results[i])
    ensures Accounted(TotalsOf(cases, results), TallyOf(runs))
  {
    if |runs| > 0 {
      var n := |runs| - 1;
      var runs', results' := runs[..n], results[..n];
      assert forall i | 0 <= i < |results'| :: Resolvable(cases, results'[i]) && Balanced(cases, runs'[i], results'[i]);
      BalancedRunsAccount(cases, runs', results');
    }
  }

  /**
   Over every evaluated data set with distinct case ids and unambiguous keys, hits and misses
   add up to what was predicted and to what was expected, overall and for critical items.
   */
  lemma TotalsAccount(normalize: string -> string, cases: seq<ExtractionCase>, runs: seq<Evaluation>,
                      results: seq<ExtractionCaseResult>)
    requires DistinctCases(cases) && |results| == |runs|
    requires forall i | 0 <= i < |runs| :: Reported(normalize, cases, runs[i], results[i])
    ensures forall i | 0 <= i < |results| :: Resolvable(cases, results[i])
    ensures Accounted(TotalsOf(cases, results), TallyOf(runs))
  {
    forall i | 0 <= i < |runs| ensures Resolvable(cases, results[i]) && Balanced(cases, runs[i], results[i]) {
      RunAccounts(normalize, cases, runs[i], results[i]);
    }
    BalancedRunsAccount(cases, runs, results);
  }

  /** No other way of pairing the same predictions scores more hits, overall or critical. */
  lemma {:induction false} ScoresAreBest(normalize: string -> string, runs: seq<Evaluation>, rivals: seq<Evaluation>)
    requires |rivals| == |runs| && Evaluated(normalize, rivals)
    requires forall i | 0 <= i < |runs| ::
        Maximum(runs[i].owner, CandidateEdges(normalize, runs[i].predictions, runs[i].case_.expected))
    requires forall i | 0 <= i < |runs| ::
        rivals[i].case_ == runs[i].case_ && rivals[i].predictions == runs[i].predictions
    ensures TallyOf(rivals).pairs <= TallyOf(runs).pairs
    ensures TallyOf(rivals).criticalPairs <= TallyOf(runs).criticalPairs
  {
    if |runs| > 0 {
      var n := |runs| - 1;
      ScoresAreBest(normalize, runs[..n], rivals[..n]);
      CriticalHitsAreMaximum(normalize, runs[n].predictions, runs[n].case_.expected, runs[n].owner, rivals[n].owner);
    }
  }
}
