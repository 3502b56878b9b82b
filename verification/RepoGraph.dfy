/**
 The repository graph (`RepoGraphBuilder.build`): imports and unambiguous references between
 files become weighted edges, which are then ranked.
 */
module RepoGraph {
  import opened Wrappers
  import opened Ranking

  datatype ImportRecord = ImportRecord(moduleName: string, symbol: Option<string>, alias_: Option<string>, level: int,
                                       isStar: bool)

  datatype ReferenceRecord = ReferenceRecord(name: string, isCall: bool)

  datatype ParsedFile = ParsedFile(
    path: string, moduleName: string, isPackage: bool,
    symbols: seq<string>, imports: seq<ImportRecord>, references: seq<ReferenceRecord>)

  /** Source path, target path and relation. */
  type EdgeKey = (string, string, string)

  // ---------------------------------------------------------------------------
  // Module names
  // ---------------------------------------------------------------------------

  function Split(text: string): (parts: seq<string>)
    ensures parts != []
  {
    if text == "" then [""]
    else
      var rest := Split(text[1..]);
      if text[0] == '.' then [""] + rest else [[text[0]] + rest[0]] + rest[1..]
  }

  function Join(parts: seq<string>): string {
    if parts == [] then "" else if |parts| == 1 then parts[0] else parts[0] + "." + Join(parts[1..])
  }

  function NonEmpty(parts: seq<string>): seq<string> {
    if parts == [] then [] else if parts[0] == "" then NonEmpty(parts[1..]) else [parts[0]] + NonEmpty(parts[1..])
  }

  function StripDots(text: string): string {
    if text != "" && text[0] == '.' then StripDots(text[1..])
    else if text != "" && text[|text| - 1] == '.' then StripDots(text[..|text| - 1])
    else text
  }

  function AbsoluteModule(source: ParsedFile, moduleName: string, level: int): string {
    if level <= 0 then moduleName
    else
      var sourceParts := if source.moduleName != "" then Split(source.moduleName) else [];
      var packageParts := if source.isPackage || sourceParts == [] then sourceParts
        else sourceParts[..|sourceParts| - 1];
      var keep := if |packageParts| - (level - 1) < 0 then 0 else |packageParts| - (level - 1);
      Join(packageParts[..keep] + NonEmpty(Split(moduleName)))
  }

  // ---------------------------------------------------------------------------
  // What a name refers to
  // ---------------------------------------------------------------------------

  /** The first `n` files of the module. */
  function InModule(files: seq<ParsedFile>, moduleName: string, n: nat): (r: seq<ParsedFile>)
    requires n <= |files|
    ensures forall f :: f in r <==> f in files[..n] && f.moduleName == moduleName
  {
    if n == 0 then []
    else
      var rest := InModule(files, moduleName, n - 1);
      assert files[..n] == files[..n - 1] + [files[n - 1]];
      if files[n - 1].moduleName == moduleName then rest + [files[n - 1]] else rest
  }

  /** One entry for each of the first `m` symbols called `name`. */
  function Occurrences(file: ParsedFile, name: string, m: nat): (r: seq<ParsedFile>)
    requires m <= |file.symbols|
    ensures forall f :: f in r <==> f == file && name in file.symbols[..m]
  {
    if m == 0 then []
    else
      var rest := Occurrences(file, name, m - 1);
      assert file.symbols[..m] == file.symbols[..m - 1] + [file.symbols[m - 1]];
      if file.symbols[m - 1] == name then rest + [file] else rest
  }

  /** The definitions of `name` in the first `n` files, restricted to one module when it is given. */
  function Definitions(files: seq<ParsedFile>, moduleName: Option<string>, name: string, n: nat): (r: seq<ParsedFile>)
    requires n <= |files|
    ensures forall f :: f in r <==>
        f in files[..n] && name in f.symbols && (moduleName == None || moduleName == Some(f.moduleName))
  {
    if n == 0 then []
    else
      var rest, file := Definitions(files, moduleName, name, n - 1), files[n - 1];
      assert files[..n] == files[..n - 1] + [file];
      assert file.symbols[..|file.symbols|] == file.symbols;
      if moduleName == None || moduleName == Some(file.moduleName)
      then rest + Occurrences(file, name, |file.symbols|) else rest
  }

  function Unique(matches: seq<ParsedFile>): Option<ParsedFile> {
    if |matches| == 1 then Some(matches[0]) else None
  }

  /** The file an import stands for, when exactly one file qualifies. */
  function ImportTarget(files: seq<ParsedFile>, source: ParsedFile, imported: ImportRecord): (r: Option<ParsedFile>)
    ensures r.Some? ==> r.value in files
  {
    if imported.isStar then None
    else
      var moduleName := AbsoluteModule(source, imported.moduleName, imported.level);
      assert files[..|files|] == files;
      match imported.symbol
      case None => Unique(InModule(files, moduleName, |files|))
      case Some(symbol) =>
        var target := Unique(Definitions(files, Some(moduleName), symbol, |files|));
        if target.Some? then target
        else Unique(InModule(files, StripDots(moduleName + "." + symbol), |files|))
  }

  // ---------------------------------------------------------------------------
  // Imports resolve to the one candidate
  // ---------------------------------------------------------------------------

  /** Of the first `n` files, only file `i` is the module. */
  ghost predicate OnlyModule(files: seq<ParsedFile>, moduleName: string, n: nat, i: nat)
    requires n <= |files|
  {
    i < n && forall j | 0 <= j < n :: files[j].moduleName == moduleName <==> j == i
  }

  /** Of the first `m` symbols, only symbol `k` has this name. */
  ghost predicate OnlySymbol(file: ParsedFile, name: string, m: nat, k: nat)
    requires m <= |file.symbols|
  {
    k < m && forall l | 0 <= l < m :: file.symbols[l] == name <==> l == k
  }

  ghost predicate NamedOnce(file: ParsedFile, name: string) {
    exists k: nat :: OnlySymbol(file, name, |file.symbols|, k)
  }

  ghost predicate Defines(file: ParsedFile, moduleName: string, name: string) {
    file.moduleName == moduleName && name in file.symbols
  }

  /** Of the first `n` files, only file `i` of the module defines the name, and only once. */
  ghost predicate OnlyDefinition(files: seq<ParsedFile>, moduleName: string, name: string, n: nat, i: nat)
    requires n <= |files|
  {
    && i < n && (forall j | 0 <= j < n :: Defines(files[j], moduleName, name) <==> j == i)
    && NamedOnce(files[i], name)
  }

  lemma {:induction false} OneInModule(files: seq<ParsedFile>, moduleName: string, n: nat)
    requires n <= |files|
    ensures |InModule(files, moduleName, n)| == 0 <==> forall i | 0 <= i < n :: files[i].moduleName != moduleName
    ensures |InModule(files, moduleName, n)| == 1 <==> exists i: nat :: OnlyModule(files, moduleName, n, i)
    ensures forall i: nat | OnlyModule(files, moduleName, n, i) :: InModule(files, moduleName, n) == [files[i]]
  {
    if n > 0 {
      OneInModule(files, moduleName, n - 1);
      if files[n - 1].moduleName == moduleName {
        assert |InModule(files, moduleName, n - 1)| == 0 ==> OnlyModule(files, moduleName, n, n - 1);
      } else {
        var b := n - 1;
        if i: nat :| OnlyModule(files, moduleName, b, i) { assert OnlyModule(files, moduleName, n, i); }
        if i: nat :| OnlyModule(files, moduleName, n, i) { assert OnlyModule(files, moduleName, n - 1, i); }
        assert forall i: nat | OnlyModule(files, moduleName, n, i) :: OnlyModule(files, moduleName, n - 1, i);
      }
    }
  }

  lemma {:induction false} OneOccurrence(file: ParsedFile, name: string, m: nat)
    requires m <= |file.symbols|
    ensures |Occurrences(file, name, m)| == 0 <==> forall k | 0 <= k < m :: file.symbols[k] != name
    ensures |Occurrences(file, name, m)| == 1 <==> exists k: nat :: OnlySymbol(file, name, m, k)
  {
    if m > 0 {
      OneOccurrence(file, name, m - 1);
      if file.symbols[m - 1] == name {
        assert |Occurrences(file, name, m - 1)| == 0 ==> OnlySymbol(file, name, m, m - 1);
      } else {
        var b := m - 1;
        if k: nat :| OnlySymbol(file, name, b, k) { assert OnlySymbol(file, name, m, k); }
        if k: nat :| OnlySymbol(file, name, m, k) { assert OnlySymbol(file, name, m - 1, k); }
      }
    }
  }

  lemma {:induction false} OneDefinition(files: seq<ParsedFile>, moduleName: string, name: string, n: nat)
    requires n <= |files|
    ensures |Definitions(files, Some(moduleName), name, n)| == 0
       <==> forall i | 0 <= i < n :: !Defines(files[i], moduleName, name)
    ensures |Definitions(files, Some(moduleName), name, n)| == 1
       <==> exists i: nat :: OnlyDefinition(files, moduleName, name, n, i)
    ensures forall i: nat | OnlyDefinition(files, moduleName, name, n, i) ::
        Definitions(files, Some(moduleName), name, n) == [files[i]]
  {
    if n > 0 {
      OneDefinition(files, moduleName, name, n - 1);
      var file := files[n - 1];
      OneOccurrence(file, name, |file.symbols|);
      if Defines(file, moduleName, name) {
        DefinedLast(files, moduleName, name, n);
      } else {
        assert Definitions(files, Some(moduleName), name, n) == Definitions(files, Some(moduleName), name, n - 1);
        var b := n - 1;
        if i: nat :| OnlyDefinition(files, moduleName, name, b, i) {
          assert OnlyDefinition(files, moduleName, name, n, i);
        }
        if i: nat :| OnlyDefinition(files, moduleName, name, n, i) {
          assert OnlyDefinition(files, moduleName, name, n - 1, i);
        }
        assert forall i: nat | OnlyDefinition(files, moduleName, name, n, i) ::
          OnlyDefinition(files, moduleName, name, n - 1, i);
      }
    }
  }

  lemma DefinedLast(files: seq<ParsedFile>, moduleName: string, name: string, n: nat)
    requires 0 < n <= |files| && Defines(files[n - 1], moduleName, name)
    requires |Definitions(files, Some(moduleName), name, n - 1)| == 0
        <==> forall i | 0 <= i < n - 1 :: !Defines(files[i], moduleName, name)
    requires |Occurrences(files[n - 1], name, |files[n - 1].symbols|)| == 1
        <==> NamedOnce(files[n - 1], name)
    ensures |Definitions(files, Some(moduleName), name, n)| == 1 <==> OnlyDefinition(files, moduleName, name, n, n - 1)
    ensures OnlyDefinition(files, moduleName, name, n, n - 1) ==>
        Definitions(files, Some(moduleName), name, n) == [files[n - 1]]
    ensures |Definitions(files, Some(moduleName), name, n)| > 0
    ensures forall i: nat | OnlyDefinition(files, moduleName, name, n, i) :: i == n - 1
  {
    var before, here := Definitions(files, Some(moduleName), name, n - 1),
                        Occurrences(files[n - 1], name, |files[n - 1].symbols|);
    assert Definitions(files, Some(moduleName), name, n) == before + here;
    assert files[n - 1] in here;
    assert forall f | f in here :: f == files[n - 1];
    if OnlyDefinition(files, moduleName, name, n, n - 1) {
      assert before == [] && |here| == 1;
    }
  }

  /**
   An import stands for a file exactly when that file is the only one that can be meant: the only
   one with the module's name, or the only one in the module that defines the symbol, once; and if
   no single file defines it, the only submodule of that name. A star import stands for none.
   */
  lemma ImportTargetMeans(files: seq<ParsedFile>, source: ParsedFile, imported: ImportRecord, f: ParsedFile)
    ensures
      var n, m := |files|, AbsoluteModule(source, imported.moduleName, imported.level);
      ImportTarget(files, source, imported) == Some(f) <==>
        && !imported.isStar
        && match imported.symbol
           case None => exists i: nat :: OnlyModule(files, m, n, i) && files[i] == f
           case Some(s) =>
             if exists i: nat :: OnlyDefinition(files, m, s, n, i)
             then exists i: nat :: OnlyDefinition(files, m, s, n, i) && files[i] == f
             else exists i: nat :: OnlyModule(files, StripDots(m + "." + s), n, i) && files[i] == f
  {
    var m := AbsoluteModule(source, imported.moduleName, imported.level);
    OneInModule(files, m, |files|);
    if imported.symbol.Some? {
      OneDefinition(files, m, imported.symbol.value, |files|);
      OneInModule(files, StripDots(m + "." + imported.symbol.value), |files|);
    }
  }

  function ImportRelation(imported: ImportRecord): (string, real) {
    if imported.symbol == None then ("import-module", 3.0) else ("import-symbol", 5.0)
  }

  function ReferenceRelation(reference: ReferenceRecord): string {
    if reference.isCall then "unique-call" else "unique-name"
  }

  type Resolver = ImportRecord -> Option<ParsedFile>

  /** How the names of one file are looked up: its imports, and definitions anywhere. */
  datatype Lookup = Lookup(resolve: Resolver, definitions: string -> seq<ParsedFile>)

  function LookupFor(files: seq<ParsedFile>, source: ParsedFile): Lookup {
    Lookup((imported: ImportRecord) => ImportTarget(files, source, imported),
           (name: string) => Definitions(files, None, name, |files|))
  }

  /** Lookups only ever find the given files. */
  ghost predicate FindsAmong(lookup: Lookup, files: seq<ParsedFile>) {
    && (forall imported :: lookup.resolve(imported).Some? ==> lookup.resolve(imported).value in files)
    && (forall name, f | f in lookup.definitions(name) :: f in files)
  }

  lemma LookupFindsAmong(files: seq<ParsedFile>, source: ParsedFile)
    ensures FindsAmong(LookupFor(files, source), files)
  {
    assert files[..|files|] == files;
  }

  /** The name a symbol import binds: its alias, unless that is missing or empty. */
  function BoundName(imported: ImportRecord): string
    requires imported.symbol.Some?
  {
    if imported.alias_.Some? && imported.alias_.value != "" then imported.alias_.value else imported.symbol.value
  }

  /** The names the first `n` imports bind to other files; a later import rebinds. */
  function BoundImports(resolve: Resolver, source: ParsedFile, n: nat): (r: map<string, ParsedFile>)
    requires n <= |source.imports|
    ensures forall name | name in r :: r[name].path != source.path
    ensures forall name | name in r :: exists imported :: resolve(imported) == Some(r[name])
  {
    if n == 0 then map[]
    else
      var before, imported := BoundImports(resolve, source, n - 1), source.imports[n - 1];
      var target := resolve(imported);
      if target.Some? && target.value.path != source.path && imported.symbol.Some?
      then before[BoundName(imported) := target.value] else before
  }

  function OtherPaths(definitions: seq<ParsedFile>, path: string): set<string> {
    set f | f in definitions && f.path != path :: f.path
  }

  /** The other files a reference can mean: the imported one, else all that define the name. */
  function ReferenceTargets(lookup: Lookup, source: ParsedFile, bound: map<string, ParsedFile>,
                            reference: ReferenceRecord): set<string> {
    if reference.name in bound then {bound[reference.name].path}
    else OtherPaths(lookup.definitions(reference.name), source.path)
  }

  // ---------------------------------------------------------------------------
  // What the weights mean
  // ---------------------------------------------------------------------------

  /** One resolved import or reference. */
  datatype Link = Link(key: EdgeKey, weight: real)

  /** The links of the first `n` imports of `source`. */
  ghost function ImportLinks(resolve: Resolver, source: ParsedFile, n: nat): seq<Link>
    requires n <= |source.imports|
  {
    if n == 0 then []
    else
      var before, imported := ImportLinks(resolve, source, n - 1), source.imports[n - 1];
      var target := resolve(imported);
      if target.None? || target.value.path == source.path then before
      else before + [Link((source.path, target.value.path, ImportRelation(imported).0), ImportRelation(imported).1)]
  }

  /** The links of the first `n` references of `source`: those with exactly one possible target. */
  ghost function ReferenceLinks(lookup: Lookup, source: ParsedFile, bound: map<string, ParsedFile>, n: nat): seq<Link>
    requires n <= |source.references|
  {
    if n == 0 then []
    else
      var before, reference := ReferenceLinks(lookup, source, bound, n - 1), source.references[n - 1];
      var targets := ReferenceTargets(lookup, source, bound, reference);
      if |targets| != 1 then before
      else
        var targetPath :| targetPath in targets;
        before + [Link((source.path, targetPath, ReferenceRelation(reference)), 2.0)]
  }

  ghost function FileLinks(lookup: Lookup, source: ParsedFile): seq<Link> {
    ImportLinks(lookup.resolve, source, |source.imports|)
    + ReferenceLinks(lookup, source, BoundImports(lookup.resolve, source, |source.imports|), |source.references|)
  }

  /** All links of the first `n` files. */
  ghost function Links(files: seq<ParsedFile>, n: nat): seq<Link>
    requires n <= |files|
  {
    if n == 0 then [] else Links(files, n - 1) + FileLinks(LookupFor(files, files[n - 1]), files[n - 1])
  }

  function Plus(weights: map<EdgeKey, real>, key: EdgeKey, w: real): map<EdgeKey, real> {
    weights[key := (if key in weights then weights[key] else 0.0) + w]
  }

  ghost function Accumulated(links: seq<Link>): map<EdgeKey, real> {
    if links == [] then map[]
    else
      var last := links[|links| - 1];
      Plus(Accumulated(links[..|links| - 1]), last.key, last.weight)
  }

  ghost function WeightOf(links: seq<Link>, key: EdgeKey): real {
    if links == [] then 0.0
    else
      var last := links[|links| - 1];
      WeightOf(links[..|links| - 1], key) + if last.key == key then last.weight else 0.0
  }

  lemma AccumulatedAppend(links: seq<Link>, link: Link)
    ensures Accumulated(links + [link]) == Plus(Accumulated(links), link.key, link.weight)
  {
    assert (links + [link])[..|links|] == links;
  }

  /** An edge exists exactly when some link has its key, and weighs what its links weigh together. */
  lemma {:induction false} AccumulatedMeans(links: seq<Link>, key: EdgeKey)
    requires forall link | link in links :: link.weight > 0.0
    ensures key in Accumulated(links) <==> exists link :: link in links && link.key == key
    ensures key in Accumulated(links) ==> Accumulated(links)[key] == WeightOf(links, key) > 0.0
    ensures key !in Accumulated(links) ==> WeightOf(links, key) == 0.0
  {
    if links != [] {
      var rest, last := links[..|links| - 1], links[|links| - 1];
      assert links == rest + [last];
      AccumulatedMeans(rest, key);
    }
  }

  /** Links run from a file to another file, with positive weight. */
  ghost predicate Sound(files: seq<ParsedFile>, link: Link) {
    && link.weight > 0.0 && link.key.0 != link.key.1
    && (exists f :: f in files && f.path == link.key.0)
    && (exists f :: f in files && f.path == link.key.1)
  }

  lemma {:induction false} ImportLinksSound(files: seq<ParsedFile>, lookup: Lookup, source: ParsedFile, n: nat)
    requires source in files && FindsAmong(lookup, files) && n <= |source.imports|
    ensures forall link | link in ImportLinks(lookup.resolve, source, n) :: Sound(files, link)
  {
    if n > 0 { ImportLinksSound(files, lookup, source, n - 1); }
  }

  lemma {:induction false} ReferenceLinksSound(files: seq<ParsedFile>, lookup: Lookup, source: ParsedFile,
                                               bound: map<string, ParsedFile>, n: nat)
    requires source in files && FindsAmong(lookup, files) && n <= |source.references|
    requires bound == BoundImports(lookup.resolve, source, |source.imports|)
    ensures forall link | link in ReferenceLinks(lookup, source, bound, n) :: Sound(files, link)
  {
    if n > 0 {
      ReferenceLinksSound(files, lookup, source, bound, n - 1);
      var reference := source.references[n - 1];
      forall p | p in ReferenceTargets(lookup, source, bound, reference)
        ensures Sound(files, Link((source.path, p, ReferenceRelation(reference)), 2.0))
      {
      }
    }
  }

  lemma {:induction false} LinksSound(files: seq<ParsedFile>, n: nat)
    requires n <= |files|
    ensures forall link | link in Links(files, n) :: Sound(files, link)
  {
    if n > 0 {
      var source := files[n - 1];
      var lookup := LookupFor(files, source);
      LinksSound(files, n - 1);
      LookupFindsAmong(files, source);
      FileLinksSound(files, lookup, source);
    }
  }

  lemma FileLinksSound(files: seq<ParsedFile>, lookup: Lookup, source: ParsedFile)
    requires source in files && FindsAmong(lookup, files)
    ensures forall link | link in FileLinks(lookup, source) :: Sound(files, link)
  {
    ImportLinksSound(files, lookup, source, |source.imports|);
    ReferenceLinksSound(files, lookup, source, BoundImports(lookup.resolve, source, |source.imports|),
                        |source.references|);
  }

  // ---------------------------------------------------------------------------
  // The builder
  // ---------------------------------------------------------------------------

  method AddImports(resolve: Resolver, source: ParsedFile, weights: map<EdgeKey, real>, ghost links: seq<Link>)
      returns (out: map<EdgeKey, real>, bound: map<string, ParsedFile>)
    requires weights == Accumulated(links)
    ensures bound == BoundImports(resolve, source, |source.imports|)
    ensures out == Accumulated(links + ImportLinks(resolve, source, |source.imports|))
  {
    out, bound := weights, map[];
    assert links + [] == links;
    for n := 0 to |source.imports|
      invariant bound == BoundImports(resolve, source, n)
      invariant out == Accumulated(links + ImportLinks(resolve, source, n))
    {
      var imported := source.imports[n];
      var target := resolve(imported);
      if target.None? || target.value.path == source.path { continue; }
      var (relation, weight) := ImportRelation(imported);
      var key := (source.path, target.value.path, relation);
      AccumulatedAppend(links + ImportLinks(resolve, source, n), Link(key, weight));
      assert links + ImportLinks(resolve, source, n + 1) ==
        links + ImportLinks(resolve, source, n) + [Link(key, weight)];
      out := Plus(out, key, weight);
      if imported.symbol.Some? {
        bound := bound[BoundName(imported) := target.value];
      }
    }
  }

  method AddReferences(lookup: Lookup, source: ParsedFile, bound: map<string, ParsedFile>,
                       weights: map<EdgeKey, real>, ghost links: seq<Link>)
      returns (out: map<EdgeKey, real>)
    requires weights == Accumulated(links)
    ensures out == Accumulated(links + ReferenceLinks(lookup, source, bound, |source.references|))
  {
    out := weights;
    assert links + [] == links;
    for m := 0 to |source.references|
      invariant out == Accumulated(links + ReferenceLinks(lookup, source, bound, m))
    {
      var reference := source.references[m];
      var candidates := ReferenceTargets(lookup, source, bound, reference);
      if |candidates| != 1 { continue; }
      var targetPath :| targetPath in candidates;
      var key := (source.path, targetPath, ReferenceRelation(reference));
      OneTarget(lookup, source, bound, m, targetPath, links);
      AccumulatedAppend(links + ReferenceLinks(lookup, source, bound, m), Link(key, 2.0));
      out := Plus(out, key, 2.0);
    }
  }

  lemma OneTarget(lookup: Lookup, source: ParsedFile, bound: map<string, ParsedFile>, m: nat, p: string,
                  links: seq<Link>)
    requires m < |source.references|
    requires |ReferenceTargets(lookup, source, bound, source.references[m])| == 1
    requires p in ReferenceTargets(lookup, source, bound, source.references[m])
    ensures links + ReferenceLinks(lookup, source, bound, m + 1)
         == links + ReferenceLinks(lookup, source, bound, m)
            + [Link((source.path, p, ReferenceRelation(source.references[m])), 2.0)]
  {
    OnlyElement(ReferenceTargets(lookup, source, bound, source.references[m]), p);
  }

  lemma OnlyElement(s: set<string>, x: string)
    requires |s| == 1 && x in s
    ensures s == {x}
  {
    assert |s - {x}| == 0;
  }

  method AddFile(lookup: Lookup, source: ParsedFile, weights: map<EdgeKey, real>, ghost links: seq<Link>)
      returns (out: map<EdgeKey, real>)
    requires weights == Accumulated(links)
    ensures out == Accumulated(links + FileLinks(lookup, source))
  {
    var bound;
    out, bound := AddImports(lookup.resolve, source, weights, links);
    ghost var imports := ImportLinks(lookup.resolve, source, |source.imports|);
    ghost var references := ReferenceLinks(lookup, source, bound, |source.references|);
    out := AddReferences(lookup, source, bound, out, links + imports);
    assert links + imports + references == links + (imports + references);
  }

  method CollectWeights(files: seq<ParsedFile>) returns (weights: map<EdgeKey, real>)
    ensures weights == Accumulated(Links(files, |files|))
  {
    weights := map[];
    for i := 0 to |files|
      invariant weights == Accumulated(Links(files, i))
    {
      weights := AddFile(LookupFor(files, files[i]), files[i], weights, Links(files, i));
    }
  }

  function EdgeOf(weights: map<EdgeKey, real>, key: EdgeKey): GraphEdge
    requires key in weights
  {
    GraphEdge(key.0, key.1, key.2, weights[key])
  }

  /** The edges as records, one per key. */
  method ListEdges(weights: map<EdgeKey, real>) returns (edges: seq<GraphEdge>)
    ensures forall e :: e in edges <==> exists key :: key in weights && e == EdgeOf(weights, key)
    ensures |edges| == |weights|
  {
    edges := [];
    var rest := weights.Keys;
    while rest != {}
      invariant rest <= weights.Keys && |edges| + |rest| == |weights.Keys|
      invariant forall e :: e in edges <==> exists key :: key in weights.Keys - rest && e == EdgeOf(weights, key)
      decreases rest
    {
      var key :| key in rest;
      edges := edges + [EdgeOf(weights, key)];
      rest := rest - {key};
    }
  }

  datatype Graph = Graph(nodes: seq<string>, edges: seq<GraphEdge>, scores: Scores)

  function Paths(files: seq<ParsedFile>): seq<string> {
    seq(|files|, i requires 0 <= i < |files| => files[i].path)
  }

  /**
   The graph of files with distinct paths, given in path order: every edge is the sum of its
   links, and the graph is one on which ranking is exact.
   */
  method Build(files: seq<ParsedFile>) returns (graph: Graph, ghost k: nat)
    requires Distinct(Paths(files))
    ensures graph.nodes == Paths(files)
    ensures forall e | e in graph.edges ::
        e.weight == WeightOf(Links(files, |files|), (e.sourcePath, e.targetPath, e.relation))
    ensures forall link | link in Links(files, |files|) ::
      exists e :: e in graph.edges && (e.sourcePath, e.targetPath, e.relation) == link.key
    ensures forall e | e in graph.edges ::
        e.sourcePath in graph.nodes && e.targetPath in graph.nodes && e.sourcePath != e.targetPath
    ensures PositiveWeights(graph.edges)
    ensures files != [] ==> ValidGraph(graph.nodes, graph.edges)
    ensures files != [] ==> 1 <= k <= MAX_ITERATIONS && graph.scores == Iterate(graph.nodes, graph.edges, k)
    ensures files != [] && k < MAX_ITERATIONS ==> Delta(graph.nodes, graph.edges, k) < CONVERGENCE_EPSILON
  {
    var weights := CollectWeights(files);
    var edges := ListEdges(weights);
    ghost var links := Links(files, |files|);
    LinksSound(files, |files|);
    forall e | e in edges
      ensures e.weight == WeightOf(links, (e.sourcePath, e.targetPath, e.relation)) > 0.0
      ensures e.sourcePath in Paths(files) && e.targetPath in Paths(files) && e.sourcePath != e.targetPath
    {
      var key := (e.sourcePath, e.targetPath, e.relation);
      AccumulatedMeans(links, key);
      var link :| link in links && link.key == key;
      assert Sound(files, link);
      PathOfFile(files, key.0);
      PathOfFile(files, key.1);
    }
    forall link | link in links
      ensures exists e :: e in edges && (e.sourcePath, e.targetPath, e.relation) == link.key
    {
      AccumulatedMeans(links, link.key);
      assert EdgeOf(weights, link.key) in edges;
    }
    var scores;
    scores, k := PageRank(Paths(files), edges);
    graph := Graph(Paths(files), edges, scores);
  }

  lemma PathOfFile(files: seq<ParsedFile>, path: string)
    requires exists f :: f in files && f.path == path
    ensures path in Paths(files)
  {
    var f :| f in files && f.path == path;
    var i :| 0 <= i < |files| && files[i] == f;
    assert Paths(files)[i] == path;
  }
}
