/**
 Rendering the ranked symbols into a token budget (`RepoMapRenderer`), for any token counter.
 */
module Renderer {
  import opened Wrappers

  datatype SymbolKind = ClassSymbol | OtherSymbol

  datatype RankedSymbol = RankedSymbol(
    relativePath: string, lineNumber: string, signature: string, shortSignature: string, parentQualifiedName: string,
    kind: SymbolKind)

  datatype RenderedRepoMap = RenderedRepoMap(text: string, estimatedTokens: int, includedFiles: seq<string>,
                                             truncated: bool)

  /** `clean` drops control characters; `count` estimates tokens; the rest is fixed text around the symbols. */
  datatype Layout = Layout(clean: string -> string, count: string -> int, preamble: string, closing: string,
                           marker: string)

  const MAX_LINE_LENGTH: nat := 160

  // ---------------------------------------------------------------------------
  // One symbol
  // ---------------------------------------------------------------------------

  function Lines(l: Layout, s: RankedSymbol, short: bool): seq<string> {
    var pathLine := l.clean(s.relativePath + ":" + s.lineNumber);
    var signature := l.clean(if short then s.shortSignature else s.signature);
    if s.parentQualifiedName != "" then
      [pathLine, "  class " + l.clean(s.parentQualifiedName) + ":", "    " + signature]
    else
      [pathLine, "  " + signature + if s.kind == ClassSymbol then ":" else ""]
  }

  function Join(separator: string, parts: seq<string>): string {
    if parts == [] then "" else if |parts| == 1 then parts[0] else parts[0] + separator + Join(separator, parts[1..])
  }

  /** The text of a symbol, unless one of its lines is too long. */
  function UnitOf(l: Layout, s: RankedSymbol, short: bool): Option<string> {
    var lines := Lines(l, s, short);
    if exists i :: 0 <= i < |lines| && |lines[i]| > MAX_LINE_LENGTH then None else Some(Join("\n", lines))
  }

  /** A symbol can be shown when its short form has no line that is too long. */
  predicate Renderable(l: Layout, s: RankedSymbol) {
    UnitOf(l, s, true).Some?
  }

  // ---------------------------------------------------------------------------
  // The selection
  // ---------------------------------------------------------------------------

  /** A chosen symbol: its place in the ranking, and its text. */
  datatype Pick = Pick(index: nat, text: string)

  /** The two forms of each symbol, by its place; and whether picks fit, with or without the marker. */
  type Units = (nat, bool) -> Option<string>
  type Room = (seq<Pick>, bool) -> bool

  /** The symbol in its longest form that still fits behind the picks. */
  function PickFor(units: Units, room: Room, index: nat, picks: seq<Pick>): Option<Pick> {
    var normal, short := units(index, false), units(index, true);
    if short.None? then None
    else if normal.Some? && room(picks + [Pick(index, normal.value)], false) then Some(Pick(index, normal.value))
    else if short != normal && room(picks + [Pick(index, short.value)], false) then Some(Pick(index, short.value))
    else None
  }

  /** What is chosen among the first `n` symbols, best first. */
  function Chosen(units: Units, room: Room, n: nat): seq<Pick> {
    if n == 0 then []
    else
      var picks := Chosen(units, room, n - 1);
      var next := PickFor(units, room, n - 1, picks);
      if next.Some? then picks + [next.value] else picks
  }

  /** How many of the first `n` symbols can be rendered. */
  function Candidates(units: Units, n: nat): nat {
    if n == 0 then 0 else Candidates(units, n - 1) + if units(n - 1, true).Some? then 1 else 0
  }

  /** The longest part of the picks that fits with the truncation marker. */
  function Trimmed(room: Room, picks: seq<Pick>): seq<Pick> {
    if picks == [] || room(picks, true) then picks else Trimmed(room, picks[..|picks| - 1])
  }

  /** The final choice: everything that was chosen, or what fits with the marker when something was left out. */
  function Kept(units: Units, room: Room, n: nat): seq<Pick> {
    var picks := Chosen(units, room, n);
    if |picks| < Candidates(units, n) then Trimmed(room, picks) else picks
  }

  // ---------------------------------------------------------------------------
  // What is chosen
  // ---------------------------------------------------------------------------

  /** The pick shows its symbol, in one of the two forms. */
  ghost predicate Shows(units: Units, n: nat, p: Pick) {
    && p.index < n && units(p.index, true).Some?
    && (Some(p.text) == units(p.index, false) || Some(p.text) == units(p.index, true))
  }

  /** The picks show different symbols in the order of the ranking. */
  ghost predicate IsSelection(units: Units, n: nat, picks: seq<Pick>) {
    && (forall i | 0 <= i < |picks| :: Shows(units, n, picks[i]))
    && (forall i, j | 0 <= i < j < |picks| :: picks[i].index < picks[j].index)
  }

  lemma {:induction false} ChosenIsSound(units: Units, room: Room, n: nat)
    ensures IsSelection(units, n, Chosen(units, room, n))
    ensures Chosen(units, room, n) != [] ==> room(Chosen(units, room, n), false)
  {
    if n > 0 { ChosenIsSound(units, room, n - 1); }
  }

  lemma {:induction false} TrimmedIsSound(room: Room, picks: seq<Pick>)
    ensures Trimmed(room, picks) <= picks
    ensures Trimmed(room, picks) != [] ==> room(Trimmed(room, picks), true)
    ensures forall n | |Trimmed(room, picks)| < n <= |picks| :: !room(picks[..n], true)
  {
    if picks != [] && !room(picks, true) {
      var init := picks[..|picks| - 1];
      TrimmedIsSound(room, init);
      forall n | |Trimmed(room, picks)| < n <= |picks| ensures !room(picks[..n], true) {
        if n < |picks| { assert picks[..n] == init[..n]; } else { assert picks[..n] == picks; }
      }
    }
  }

  ghost predicate Picked(picks: seq<Pick>, k: int) {
    exists i :: 0 <= i < |picks| && picks[i].index == k
  }

  /** A symbol that could be rendered is missing from the picks. */
  ghost predicate Omits(units: Units, n: nat, picks: seq<Pick>) {
    exists k: nat :: k < n && units(k, true).Some? && !Picked(picks, k)
  }

  lemma PickedLater(init: seq<Pick>, last: Pick, k: int)
    ensures Picked(init + [last], k) <==> Picked(init, k) || last.index == k
  {
    var picks := init + [last];
    if Picked(init, k) {
      var i :| 0 <= i < |init| && init[i].index == k;
      assert picks[i].index == k;
    }
    if last.index == k { assert picks[|init|].index == k; }
  }

  lemma OmitsNext(units: Units, n: nat, picks: seq<Pick>)
    ensures Omits(units, n + 1, picks) <==> Omits(units, n, picks) || (units(n, true).Some? && !Picked(picks, n))
  {
  }

  lemma OmitsWithout(units: Units, n: nat, init: seq<Pick>, last: Pick)
    requires last.index == n
    ensures Omits(units, n, init + [last]) <==> Omits(units, n, init)
  {
    forall k: nat | k < n ensures Picked(init + [last], k) <==> Picked(init, k) { PickedLater(init, last, k); }
  }

  /** A selection holds as many symbols as can be rendered exactly when it omits none of them. */
  lemma {:induction false} FewerMeansOmitted(units: Units, n: nat, picks: seq<Pick>)
    requires IsSelection(units, n, picks)
    ensures |picks| <= Candidates(units, n)
    ensures |picks| < Candidates(units, n) <==> Omits(units, n, picks)
  {
    if n == 0 {
      if picks != [] { NothingToSelect(units, picks); }
    } else {
      OmitsNext(units, n - 1, picks);
      if picks != [] && picks[|picks| - 1].index == n - 1 {
        var init, last := picks[..|picks| - 1], picks[|picks| - 1];
        assert picks == init + [last] && Shows(units, n, last);
        assert IsSelection(units, n - 1, init);
        FewerMeansOmitted(units, n - 1, init);
        OmitsWithout(units, n - 1, init, last);
        PickedLater(init, last, n - 1);
      } else {
        LastIsBefore(units, n, picks);
        FewerMeansOmitted(units, n - 1, picks);
      }
    }
  }

  lemma NothingToSelect(units: Units, picks: seq<Pick>)
    requires picks != []
    ensures !IsSelection(units, 0, picks)
  {
    assert !Shows(units, 0, picks[0]);
  }

  lemma LastIsBefore(units: Units, n: nat, picks: seq<Pick>)
    requires n > 0 && IsSelection(units, n, picks) && (picks != [] ==> picks[|picks| - 1].index != n - 1)
    ensures IsSelection(units, n - 1, picks) && !Picked(picks, n - 1)
  {
    forall i | 0 <= i < |picks| ensures Shows(units, n - 1, picks[i]) {
      assert Shows(units, n, picks[i]) && Shows(units, n, picks[|picks| - 1]);
    }
  }

  /**
   What is kept is a part of the ranking in its order, and smaller than it could be exactly when a
   symbol is missing.
   */
  lemma KeptIsSelection(units: Units, room: Room, n: nat)
    ensures IsSelection(units, n, Kept(units, room, n))
    ensures |Kept(units, room, n)| < Candidates(units, n) <==> Omits(units, n, Kept(units, room, n))
  {
    ChosenIsSound(units, room, n);
    TrimmedIsSound(room, Chosen(units, room, n));
    FewerMeansOmitted(units, n, Kept(units, room, n));
  }

  /** The first `n` symbols at full length. */
  function AllOf(units: Units, n: nat): seq<Pick> {
    if n == 0 then [] else AllOf(units, n - 1) + [Pick(n - 1, units(n - 1, false).GetOr(""))]
  }

  /** When everything fits at full length, everything is shown at full length. */
  lemma {:induction false} EverythingFits(units: Units, room: Room, n: nat)
    requires forall k: nat | k < n :: units(k, true).Some? && units(k, false).Some?
    requires forall k: nat | 0 < k <= n :: room(AllOf(units, k), false)
    ensures Kept(units, room, n) == Chosen(units, room, n) == AllOf(units, n)
    ensures Candidates(units, n) == n == |AllOf(units, n)|
  {
    if n > 0 {
      EverythingFits(units, room, n - 1);
      var last: nat := n - 1;
      assert units(last, true).Some? && units(last, false).Some? && room(AllOf(units, n), false);
    }
  }

  // ---------------------------------------------------------------------------
  // Rendering
  // ---------------------------------------------------------------------------

  function Sections(l: Layout, picks: seq<Pick>): seq<string> {
    if picks == [] then [l.preamble] else Sections(l, picks[..|picks| - 1]) + [picks[|picks| - 1].text]
  }

  function Assemble(l: Layout, picks: seq<Pick>, marked: bool): string {
    Join("\n\n", Sections(l, picks) + (if marked then [l.marker] else []) + [l.closing])
  }

  function UnitAt(l: Layout, ranked: seq<RankedSymbol>, index: nat, short: bool): Option<string> {
    if index < |ranked| then UnitOf(l, ranked[index], short) else None
  }

  function UnitsOf(l: Layout, ranked: seq<RankedSymbol>): Units {
    (index: nat, short: bool) => UnitAt(l, ranked, index, short)
  }

  function RoomIn(l: Layout, budget: int): Room {
    (picks: seq<Pick>, marked: bool) => l.count(Assemble(l, picks, marked)) <= budget
  }

  /** Each path once, where it first occurs. */
  function FilesOf(ranked: seq<RankedSymbol>, picks: seq<Pick>): seq<string> {
    if picks == [] then []
    else
      var rest, last := FilesOf(ranked, picks[..|picks| - 1]), picks[|picks| - 1];
      if last.index >= |ranked| || ranked[last.index].relativePath in rest then rest
        else rest + [ranked[last.index].relativePath]
  }

  method Select(units: Units, room: Room, count: nat) returns (selected: seq<Pick>)
    ensures selected == Chosen(units, room, count)
  {
    selected := [];
    for n := 0 to count
      invariant selected == Chosen(units, room, n)
    {
      var normal, short := units(n, false), units(n, true);
      if short.None? { continue; }
      if normal.Some? && room(selected + [Pick(n, normal.value)], false) {
        selected := selected + [Pick(n, normal.value)];
        continue;
      }
      if short != normal && room(selected + [Pick(n, short.value)], false) {
        selected := selected + [Pick(n, short.value)];
      }
    }
  }

  method Trim(room: Room, picks: seq<Pick>) returns (selected: seq<Pick>)
    ensures selected == Trimmed(room, picks)
  {
    selected := picks;
    while selected != [] && !room(selected, true)
      invariant Trimmed(room, selected) == Trimmed(room, picks)
      decreases |selected|
    {
      selected := selected[..|selected| - 1];
    }
  }

  /** `render`: a map exactly when something is kept; it never exceeds the budget. */
  method Render(l: Layout, ranked: seq<RankedSymbol>, budget: int)
      returns (r: Option<RenderedRepoMap>, ghost kept: seq<Pick>)
    ensures kept == Kept(UnitsOf(l, ranked), RoomIn(l, budget), |ranked|)
    ensures r.Some? <==> budget > 0 && kept != []
    ensures r.Some? ==> r.value.estimatedTokens == l.count(r.value.text) <= budget
    ensures r.Some? ==>
        r.value.text == Assemble(l, kept, r.value.truncated)
        && r.value.includedFiles == FilesOf(ranked, kept)
    ensures r.Some? ==>
              (r.value.truncated <==>
               exists k: nat :: k < |ranked| && Renderable(l, ranked[k]) && !Picked(kept, k))
  {
    var units, room := UnitsOf(l, ranked), RoomIn(l, budget);
    kept := Kept(units, room, |ranked|);
    ChosenIsSound(units, room, |ranked|);
    KeptIsSelection(units, room, |ranked|);
    FewerMeansOmitted(units, |ranked|, Chosen(units, room, |ranked|));
    if budget <= 0 || ranked == [] { return None, kept; }
    var candidates := Candidates(units, |ranked|);
    if candidates == 0 { return None, kept; }
    var selected := Select(units, room, |ranked|);
    TrimmedIsSound(room, selected);
    if selected == [] { return None, kept; }
    var truncated := |selected| < candidates;
    if truncated {
      selected := Trim(room, selected);
      if selected == [] { return None, kept; }
    }
    assert Omits(units, |ranked|, kept) <==>
           exists k: nat :: k < |ranked| && Renderable(l, ranked[k]) && !Picked(kept, k) by {
      if k: nat :| k < |ranked| && Renderable(l, ranked[k]) && !Picked(kept, k) {
        assert units(k, true).Some?;
      }
    }
    var text := Assemble(l, selected, truncated);
    var estimated := l.count(text);
    assert room(selected, truncated);
    if estimated > budget {
      // Both ways of arriving here have just checked this very text.
      assert false;
    }
    return Some(RenderedRepoMap(text, estimated, FilesOf(ranked, selected), truncated)), kept;
  }

  /** No file is listed twice, and the listed files are those of the picks. */
  lemma {:induction false} FilesAreThePaths(ranked: seq<RankedSymbol>, picks: seq<Pick>)
    requires forall i | 0 <= i < |picks| :: picks[i].index < |ranked|
    ensures forall i, j | 0 <= i < j < |FilesOf(ranked, picks)| ::
        FilesOf(ranked, picks)[i] != FilesOf(ranked, picks)[j]
    ensures forall path :: path in FilesOf(ranked, picks) <==> exists i ::
        0 <= i < |picks| && ranked[picks[i].index].relativePath == path
  {
    if picks != [] {
      var init, last := picks[..|picks| - 1], picks[|picks| - 1];
      FilesAreThePaths(ranked, init);
      forall path
        ensures path in FilesOf(ranked, picks) <==> exists i ::
            0 <= i < |picks| && ranked[picks[i].index].relativePath == path
      {
        if path in FilesOf(ranked, init) {
          var i :| 0 <= i < |init| && ranked[init[i].index].relativePath == path;
          assert ranked[picks[i].index].relativePath == path;
        }
        if i :| 0 <= i < |picks| && ranked[picks[i].index].relativePath == path {
          if i < |init| { assert ranked[init[i].index].relativePath == path; }
        }
      }
    }
  }
}
