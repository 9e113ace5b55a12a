/** The smallest stores in which the program does what its comments and callers do not expect: one file with one
    function that calls itself. */
module Examples {
  import opened Base
  import opened Paths
  import opened SourceTree
  import opened Symbols
  import opened Chunker
  import opened Tables
  import opened Backends
  import opened Index
  import opened Rebuild
  import opened Discards
  import opened Runs
  import opened Pipeline
  import opened Messages
  import opened Refinement
  import opened Replay
  import opened Edges
  import C = Calls
  import I = Imports

  // ---------- The source ----------

  const TEXT := "func F() { F() }"

  function Line(): Info { Info(1, 1, TEXT) }

  /** The file, with the name its one call resolves to, if it does. */
  function Call(callee: Option<string>): Node { Node(CallExpr(callee), Line(), []) }
  function Func(callee: Option<string>): Node {
    Node(FuncDecl(Some(Def(0, true, true, "p.F")), "F()"), Line(), [Call(callee)])
  }
  function Ast(callee: Option<string>): Node { Node(FileKind, Line(), [Func(callee)]) }
  function SrcCalling(callee: Option<string>): SourceFile { SourceFile(true, true, Ast(callee), []) }

  function Src(): SourceFile { SrcCalling(Some("p.F")) }

  function Path(): Rel { ["a.go"] }
  function Head(): Tree { map[Path() := Src()] }
  function Loaded(): Syntax { Syntax(["r", "a.go"], Src(), map[]) }
  function Taken(): Clone { Clone(["r"], Head(), Some([Package([Loaded()])])) }

  function Sym(): SymbolData { SymbolData("p.F", FunctionSym, 1, 1, "F()") }
  function Piece(): ChunkData { ChunkData(TEXT, FunctionChunk, 1, 1) }

  lemma Nodes(x: Option<string>)
    ensures PreOrder(Ast(x)) == [Ast(x), Func(x), Call(x)]
  {
    assert [Call(x)][..0] == [] && [Func(x)][..0] == [];
    assert PreOrder(Call(x)) == [Call(x)];
    assert PreOrders([Call(x)]) == [Call(x)];
    assert PreOrder(Func(x)) == [Func(x), Call(x)];
    assert PreOrders([Func(x)]) == [Func(x), Call(x)];
  }

  lemma SymbolsAre(x: Option<string>)
    ensures SymbolsOf(SrcCalling(x)) == [Sym()]
  {
    Nodes(x);
    var st, ns := Scan({}, NoTok), [Ast(x), Func(x), Call(x)];
    assert ns[..2] == [Ast(x), Func(x)] && [Ast(x), Func(x)][..1] == [Ast(x)] && [Ast(x)][..0] == [];
    assert State(st, [Ast(x)]) == st && Out(st, [Ast(x)]) == [];
    assert Out(st, [Ast(x), Func(x)]) == [Sym()];
  }

  lemma RawAre(x: Option<string>)
    ensures RawChunks(SrcCalling(x)) == [Piece()]
  {
    Nodes(x);
    var ns := [Ast(x), Func(x), Call(x)];
    assert ns[..2] == [Ast(x), Func(x)] && [Ast(x), Func(x)][..1] == [Ast(x)] && [Ast(x)][..0] == [];
    hide PreOrder, SpecChunks;
    assert DeclChunks([Ast(x)]) == [];
    assert DeclChunks([Ast(x), Func(x)]) == [Piece()];
    assert DeclChunks(ns) == [Piece()];
  }

  lemma PieceShown()
    ensures !Blank(Piece().content)
  {
    assert Piece().content[0] == 'f' && !IsSpace('f');
  }

  lemma ChunksAre(x: Option<string>)
    ensures ChunksOf(SrcCalling(x)) == [Planned(Piece(), 0)]
  {
    RawAre(x);
    SymbolsAre(x);
    PieceShown();
    hide SrcCalling, Blank, RawChunks, SymbolsOf;
    assert FirstMatch([Sym()], 1, 1) == 0 by { assert [Sym()][..0] == [] && Covers(Sym(), 1, 1); }
    assert [Piece()][..0] == [];
    assert PlanOf([Piece()], [Sym()]) == [] + [Planned(Piece(), 0)];
  }

  lemma PairsAre(x: Option<string>)
    ensures C.FilePairs(SrcCalling(x)) == if x.Some? then [("p.F", x.value)] else []
  {
    Nodes(x);
    C.Single(None, Ast(x));
    C.Single(None, Func(x));
    C.Single(Some("p.F"), Call(x));
    C.PairsAppend(None, [Ast(x)], [Func(x), Call(x)]);
    C.PairsAppend(None, [Func(x)], [Call(x)]);
    hide PreOrder, C.Pairs, C.Carry;
    assert [Ast(x)] + [Func(x), Call(x)] == [Ast(x), Func(x), Call(x)] && [Func(x)] + [Call(x)] == [Func(x), Call(x)];
  }

  lemma LoadedIs()
    ensures Files([Package([Loaded()])]) == [Loaded()] && Loads(Taken())
  {
    assert [Package([Loaded()])][..0] == [];
    assert Files([Package([Loaded()])]) == [] + [Loaded()];
    var files := [Loaded()];
    assert RelOf(["r"], Loaded()) == Path() && Join(["r"], Path()) == Loaded().abs;
    assert Path()[0][1..] == ".go";
    IsGoMeansSuffix(Path());
    hide PreOrder, Src;
    assert files[0].abs == Join(["r"], Path()) && IsLoaded(files, Join(["r"], Path()));
  }

  // ---------- The tables ----------

  /** A record and nothing else. */
  function Recorded(row: RepoRow): DB { DB(map[0 := row], map[], map[], map[], [], []) }

  function Edge(n: Id): C.CallEdge { C.CallEdge(0, n + 1, n + 1, n) }

  /** The full index, with ids from n on and the edge as often as it was built. */
  function Filled(row: RepoRow, n: Id, edges: seq<C.CallEdge>): DB {
    DB(map[0 := row], map[n := FileRow(0, RelPath(Path()))], map[n + 1 := SymbolRow(0, n, Sym())],
       map[n + 2 := ChunkRow(0, n, n + 1, Piece(), None, None)], edges, [])
  }

  lemma FilledSound(row: RepoRow, n: Id, edges: seq<C.CallEdge>)
    requires forall e :: e in edges ==> e == Edge(n)
    ensures Sound(Filled(row, n, edges)) && Sound(Recorded(row))
    ensures n > 0 ==> Below(Filled(row, n, edges), n + 3) && Below(Recorded(row), n)
  {
    var b := Filled(row, n, edges);
    assert forall e :: e in edges ==> CallSound(b, e);
    assert CallsSound(b) && SymbolsSound(b) && ChunksSound(b);
    hide CallsSound, SymbolsSound, ChunksSound, Src;
  }

  lemma RowsListed(row: RepoRow, n: Id, edges: seq<C.CallEdge>)
    ensures var b := Filled(row, n, edges);
            && SymbolsListed(b.symbols, 0, n, [Sym()], [n + 1])
            && ChunksListed(b.chunks, 0, n, [Planned(Piece(), 0)], [n + 1], [n + 2])
  {
  }

  lemma FilledListed(row: RepoRow, n: Id, edges: seq<C.CallEdge>)
    ensures Listed(Filled(row, n, edges), 0, Path(), Src(), n, [n + 1], [n + 2])
  {
    SymbolsAre(Some("p.F"));
    ChunksAre(Some("p.F"));
    RowsListed(row, n, edges);
    hide SymbolsOf, ChunksOf, SrcCalling, SymbolsListed, ChunksListed;
  }

  lemma ExpectedIs(p: Rel)
    ensures Expected(Head(), p) == if p == Path() then Some(Src()) else None
  {
  }

  lemma FilledElsewhere(row: RepoRow, n: Id, edges: seq<C.CallEdge>)
    ensures NoLegacy(Filled(row, n, edges), 0)
    ensures forall p :: p != Path() ==> Absent(Filled(row, n, edges), 0, p)
  {
    hide Path, Sym, Piece;
  }

  lemma FilledClean(row: RepoRow, n: Id, edges: seq<C.CallEdge>, p: Rel)
    ensures CleanAt(Filled(row, n, edges), 0, Head(), p)
  {
    ExpectedIs(p);
    FilledElsewhere(row, n, edges);
    FilledListed(row, n, edges);
    hide Filled, Head, Path, Src, Absent, Listed, Expected;
  }

  lemma FilledIsFull(row: RepoRow, n: Id, edges: seq<C.CallEdge>)
    ensures FullIndex(Filled(row, n, edges), 0, Head())
  {
    FilledElsewhere(row, n, edges);
    hide Filled, NoLegacy, CleanAt;
    forall p ensures CleanAt(Filled(row, n, edges), 0, Head(), p) { FilledClean(row, n, edges, p); }
  }

  lemma BuildIs(row: RepoRow, n: Id, edges: seq<C.CallEdge>)
    ensures Built(Filled(row, n, edges), 0, ["r"], [Loaded()], [Edge(n)], [])
  {
    var b, fm, sm := Filled(row, n, edges), map[["r", "a.go"] := n], map["p.F" := n + 1];
    PairsAre(Some("p.F"));
    assert [Loaded()][..0] == [] && [("p.F", "p.F")][..0] == [];
    assert C.EdgesOf([("p.F", "p.F")], sm, 0, n) == [Edge(n)];
    hide C.FilePairs;
    assert C.AllEdges([Loaded()], fm, sm, 0) == [Edge(n)];
    assert I.AllEdges([Loaded()], fm, 0) == [];
    assert ["r", "a.go"][|["r"]|..] == Path() && Join(["r"], Path()) == ["r", "a.go"];
    assert FileMapOf(b, 0, ["r"], fm) && NameMapOf(b, 0, sm);
  }

  lemma RebuiltIs(row: RepoRow, n: Id, a: DB, gone: set<Id>, was: seq<C.CallEdge>, paths: iset<Rel>)
    requires GoneExactly(a, 0, gone, paths)
    requires DeleteFiles(a, gone).calls == was && DeleteFiles(a, gone).imports == []
    requires n + 2 in DeleteFiles(a, gone).chunks || was == []
    ensures Rebuilt(a, Filled(row, n, was + [Edge(n)]), 0, Taken(), gone, paths, [n + 2])
  {
    LoadedIs();
    BuildIs(row, n, was + [Edge(n)]);
    hide Built, GoneExactly, DeleteFiles, Files, Src;
    assert HasEdges(DeleteFiles(a, gone), Filled(row, n, was + [Edge(n)]), [Edge(n)], []);
  }

  // ---------- The graph is added to ----------

  lemma NothingAt(row: RepoRow)
    ensures DeleteFiles(Recorded(row), {}) == Recorded(row) && GoneExactly(Recorded(row), 0, {}, Everywhere())
    ensures FilesOf(Recorded(row), 0) == {}
  {
  }

  function Other(): Rel { ["b.go"] }

  lemma OtherIsGo()
    ensures IsGo(Other()) && GoOnly([]) == [] && GoOnly([Other()]) == [Other()] && GoOnly([] + [Other()]) == [Other()]
  {
    assert Other()[0][1..] == ".go";
    IsGoMeansSuffix(Other());
    hide IsGo;
    assert [Other()][..0] == [] && [] + [Other()] == [Other()];
  }

  lemma FirstRun(row: RepoRow)
    ensures RunOn(Recorded(row), Filled(row, 1, [Edge(1)]), 0, SuccessfulRun(Taken(), {}, Everywhere(), [3]))
  {
    NothingAt(row);
    FilledSound(row, 1, []);
    LoadedIs();
    assert [] + [Edge(1)] == [Edge(1)];
    RebuiltIs(row, 1, Recorded(row), {}, [], Everywhere());
    hide Sound, Loads, Rebuilt;
  }

  lemma OnlyOneFile(row: RepoRow, edges: seq<C.CallEdge>)
    ensures var b := Filled(row, 1, edges);
            && NoLegacy(b, 0) && Absent(b, 0, Other()) && GoneExactly(b, 0, {}, PathsIn([], [Other()]))
  {
    var b := Filled(row, 1, edges);
    assert b.files[1] == FileRow(0, RelPath(Path())) && Path()[0] != Other()[0];
    hide IsGo;
    assert forall p :: p in PathsIn([], [Other()]) ==> p == Other();
  }

  lemma FilledFields(row: RepoRow, n: Id, edges: seq<C.CallEdge>)
    ensures var b := Filled(row, n, edges); b.calls == edges && b.imports == [] && n + 2 in b.chunks
  {
  }

  lemma SecondRun(row: RepoRow)
    ensures Rebuilt(Filled(row, 1, [Edge(1)]), Filled(row, 1, [Edge(1), Edge(1)]), 0, Taken(), {},
                    PathsIn([], [Other()]), [3])
    ensures Sound(Filled(row, 1, [Edge(1)]))
  {
    assert [Edge(1)] + [Edge(1)] == [Edge(1), Edge(1)];
    hide *;
    FilledSound(row, 1, [Edge(1)]);
    DeleteNothing(Filled(row, 1, [Edge(1)]));
    OnlyOneFile(row, [Edge(1)]);
    FilledFields(row, 1, [Edge(1)]);
    RebuiltIs(row, 1, Filled(row, 1, [Edge(1)]), {}, [Edge(1)], PathsIn([], [Other()]));
  }

  lemma SecondApplied(row: RepoRow)
    ensures PushApplied(Filled(row, 1, [Edge(1)]), Filled(row, 1, [Edge(1), Edge(1)]), 0, Taken(), [], [Other()], {},
                        {}, [3])
  {
    SecondRun(row);
    OnlyOneFile(row, [Edge(1)]);
    OnlyOneFile(row, [Edge(1), Edge(1)]);
    OtherIsGo();
    var b, b' := Filled(row, 1, [Edge(1)]), Filled(row, 1, [Edge(1), Edge(1)]);
    hide Filled, Rebuilt, Absent, NoLegacy, IsGo, GoOnly;
    ScopeIsMentioned(b, 0, [], [Other()]);
    assert forall p :: p in GoOnly([Other()]) ==> p == Other();
    PushAppliedNow(b, b', 0, Taken(), [], [Other()], {}, {}, [3]);
  }

  /** A first run of the recursive function builds one edge. A push that adds and removes another file then runs
      incrementally, discards nothing, and leaves the index full but the edge twice. */
  lemma DoubledEdgeExample(row: RepoRow)
    ensures var first := SuccessfulRun(Taken(), {}, Everywhere(), [3]);
            var second := SuccessfulRun(Taken(), {}, PathsIn([], [Other()]), [3]);
            var a, b, b' := Recorded(row), Filled(row, 1, [Edge(1)]), Filled(row, 1, [Edge(1), Edge(1)]);
            && C.FilePairs(Src()) == [("p.F", "p.F")] && Built(b, 0, ["r"], [Loaded()], [Edge(1)], [])
            && RunOn(a, b, 0, first) && FullIndex(b, 0, Head())
            && RunOn(b, b', 0, second) && FullIndex(b', 0, Head())
            && PushApplied(b, b', 0, Taken(), [], [Other()], {}, {}, [3])
            && multiset(b'.calls)[Edge(1)] == 2
  {
    hide FullIndex, Built, C.FilePairs, Loads, PushApplied, Sound, Rebuilt;
    PairsAre(Some("p.F"));
    LoadedIs();
    BuildIs(row, 1, [Edge(1)]);
    FirstRun(row);
    SecondRun(row);
    SecondApplied(row);
    FilledIsFull(row, 1, [Edge(1)]);
    FilledIsFull(row, 1, [Edge(1), Edge(1)]);
  }

  // ---------- Redelivery takes an empty index for a baseline ----------

  /** A push that touches no Go file. */
  function Note(): RepositoryInput {
    RepositoryInput("org", "ext", "name", "main", "url", "GITHUB", true, [["README.md"]], [])
  }

  function Row(): RepoRow { RecordOf(Note(), ["r"]) }

  lemma NotGo()
    ensures !IsGo(["README.md"]) && GoOnly([["README.md"]]) == [] && GoOnly([]) == []
  {
    IsGoMeansSuffix(["README.md"]);
    assert "README.md"[6..][1] == 'm' && ".go"[1] == 'g';
    hide IsGo;
    assert [["README.md"]][..0] == [];
  }

  function Nothing(): DB { DB(map[], map[], map[], map[], [], []) }

  /** What an older version left: the file under an absolute path. */
  function Old(): DB { DB(map[0 := Row()], map[1 := FileRow(0, AbsPath(["old", "a.go"]))], map[], map[], [], []) }

  /** A run that reads the record and has nothing to do. */
  function Idle(n: Id): Run { Run(Recorded(Row()), Recorded(Row()), n, n, {}, {}, {}, {}, {}) }

  /** A run that discards what there was and fills the index. */
  function Fill(start: DB, gone: set<Id>, n: Id): Run {
    Run(start, Filled(Row(), n, [Edge(n)]), n, n + 3, {}, gone, gone, {}, {})
  }

  lemma RecordKnown()
    ensures Known(Recorded(Row()), "ext") && Known(Old(), "ext") && !Known(Nothing(), "ext")
    ensures NoLegacy(Recorded(Row()), 0) && !NoLegacy(Old(), 0)
  {
    assert 0 in Recorded(Row()).repos && Recorded(Row()).repos[0].ext == "ext";
    assert 0 in Old().repos && Old().repos[0].ext == "ext";
    assert 1 in Old().files && Old().files[1].path.AbsPath?;
  }

  lemma StartsSound()
    ensures Sound(Nothing()) && Below(Nothing(), 0) && Sound(Old()) && Below(Old(), 2)
    ensures DeleteFiles(Old(), {1}) == Recorded(Row()) && DeleteFiles(Recorded(Row()), {}) == Recorded(Row())
    ensures FilesOf(Old(), 0) == {1} && FilesOf(Recorded(Row()), 0) == {}
  {
    hide Row;
  }

  lemma IdleSucceeds(n: Id)
    requires n > 0
    ensures Succeeded(Recorded(Row()), n, 0, Taken(), Note(), Idle(n), [])
  {
    var b := Recorded(Row());
    FilledSound(Row(), n, []);
    RecordKnown();
    NotGo();
    DriftSelf(b, {});
    hide Sound, Below, Drift, Ran, PushApplied, NoLegacy, GoOnly, Known;
    var r := JustRead(b, b, {}, {}, n, n, 0, Taken(), Note());
    PushAppliedEmpty(b, b, 0, Taken(), Note().changed, Note().removed, {}, []);
  }

  lemma FilledGrows(n: Id)
    requires n > 0
    ensures Grows(Recorded(Row()), Filled(Row(), n, [Edge(n)]), 0, n, {})
    ensures FilesOf(Filled(Row(), n, [Edge(n)]), 0) == {n}
  {
    hide Sym, Piece, Row, Path;
  }

  lemma FillFromTree(start: DB, n: Id, paths: iset<Rel>)
    requires Path() in paths
    ensures NewFromTree(start, Filled(Row(), n, [Edge(n)]), Head())
    ensures NewAtPaths(start, Filled(Row(), n, [Edge(n)]), paths)
  {
    hide Row;
  }

  /** Tables of which a discard leaves the record only. */
  ghost predicate Fillable(start: DB, gone: set<Id>, n: Id, paths: iset<Rel>) {
    && n > 0 && (forall c :: c in start.chunks ==> start.chunks[c].embedding.None?)
    && DeleteFiles(start, gone) == Recorded(Row()) && GoneExactly(start, 0, gone, paths) && Path() in paths
  }

  lemma FillEffect(start: DB, gone: set<Id>, n: Id, paths: iset<Rel>)
    requires Fillable(start, gone, n, paths)
    ensures Effect(Fill(start, gone, n), 0, paths)
  {
    FilledSound(Row(), n, [Edge(n)]);
    FilledGrows(n);
    FillFromTree(start, n, paths);
    hide Sound, Below, Grows, NewAtPaths, DeleteFiles, Filled, Row, Path;
    assert OnlyTheirVectors(start, {}, {}, gone, {}) && TheirVectorsGone(start, {}, gone, {});
    assert AtPaths(start, 0, gone, paths);
  }

  lemma FillRebuilt(start: DB, gone: set<Id>, n: Id, paths: iset<Rel>)
    requires Fillable(start, gone, n, paths)
    ensures Rebuilt(start, Filled(Row(), n, [Edge(n)]), 0, Taken(), gone, paths, [n + 2])
  {
    hide GoneExactly, Row, Path;
    assert [] + [Edge(n)] == [Edge(n)];
    RebuiltIs(Row(), n, start, gone, [], paths);
  }

  /** From tables a the run starts at start: the record is there, and absolute paths are, if it was there before. */
  ghost predicate FillsFrom(a: DB, from: Id, start: DB, n: Id) {
    && Sound(start) && Below(start, n) && from <= n && KeepsIdentity(a, start)
    && (Upserted(a, start, {}, 0, Row()) || Drift(a, start, {}))
    && (if Known(a, "ext") then 0 in a.repos && a.repos[0].ext == "ext" && !NoLegacy(start, 0) else 0 !in a.repos)
  }

  lemma FillPaths(a: DB, from: Id, start: DB, n: Id)
    requires FillsFrom(a, from, start, n)
    ensures PathsOfRun(a, start, 0, Note()) == Everywhere()
  {
    hide Sound, Below, KeepsIdentity, Upserted, Drift, NoLegacy, Known;
  }

  lemma FillRecord(a: DB, start: DB, gone: set<Id>, n: Id)
    requires Fillable(start, gone, n, Everywhere()) && KeepsIdentity(a, start)
    ensures var b := Filled(Row(), n, [Edge(n)]);
            0 in b.repos && b.repos[0].ext == "ext" && KeepsIdentity(a, b) && gone == FilesOf(start, 0)
  {
    assert Filled(Row(), n, [Edge(n)]).repos == DeleteFiles(start, gone).repos == start.repos;
    hide GoneExactly, KeepCalls, KeepImports, Path, Sym, Piece;
  }

  lemma FillRan(a: DB, from: Id, start: DB, gone: set<Id>, n: Id)
    requires Fillable(start, gone, n, Everywhere()) && FillsFrom(a, from, start, n)
    ensures Ran(a, from, 0, Taken(), Note(), Fill(start, gone, n))
  {
    FillEffect(start, gone, n, Everywhere());
    FillFromTree(start, n, Everywhere());
    FillPaths(a, from, start, n);
    FillRecord(a, start, gone, n);
    hide Sound, Below, Effect, Filled, Fillable, NewFromTree, Upserted, Drift, NoLegacy, Known, PathsOfRun,
        KeepsIdentity;
  }

  /** The uninterrupted run: the full index of the clone. */
  lemma FillSucceeds(a: DB, from: Id, start: DB, gone: set<Id>, n: Id)
    requires Fillable(start, gone, n, Everywhere()) && FillsFrom(a, from, start, n)
    ensures Succeeded(a, from, 0, Taken(), Note(), Fill(start, gone, n), [n + 2])
    ensures FullIndex(Filled(Row(), n, [Edge(n)]), 0, Head())
  {
    FillRan(a, from, start, gone, n);
    FillRebuilt(start, gone, n, Everywhere());
    FilledIsFull(Row(), n, [Edge(n)]);
    FillRecord(a, start, gone, n);
    hide Sound, Below, Ran, Rebuilt, FullIndex, Filled, Fillable, Upserted, Drift, NoLegacy, Known, KeepsIdentity;
  }

  /** A full run that stopped before it inserted a file. */
  lemma StopRan(a: DB, from: Id, start: DB, gone: set<Id>, n: Id) returns (r: Run)
    requires Fillable(start, gone, n, Everywhere()) && FillsFrom(a, from, start, n)
    ensures r == Run(start, Recorded(Row()), n, n, {}, gone, gone, {}, {})
    ensures Ran(a, from, 0, Taken(), Note(), r)
  {
    r := Run(start, Recorded(Row()), n, n, {}, gone, gone, {}, {});
    var b := Recorded(Row());
    FilledSound(Row(), n, []);
    FillPaths(a, from, start, n);
    FillRecord(a, start, gone, n);
    DriftSelf(b, {});
    assert OnlyTheirVectors(start, {}, {}, gone, {}) && TheirVectorsGone(start, {}, gone, {});
    assert Discarded(start, b, {}, {}, {}, gone, gone, n) && AtPaths(start, 0, gone, Everywhere());
    assert KeepsIdentity(a, b) by { assert b.repos == Filled(Row(), n, [Edge(n)]).repos; }
    hide Fillable, Sound, Below, Discarded, NewFromTree, Upserted, Drift, NoLegacy, Known, PathsOfRun, KeepsIdentity,
        AtPaths, Recorded, Filled;
    EffectOfDiscard(start, b, 0, Taken(), n, {}, gone, gone, Everywhere(), {}, {});
    hide RunEffect;
  }

  lemma Fills()
    ensures Fillable(Recorded(Row()), {}, 1, Everywhere()) && FillsFrom(Nothing(), 0, Recorded(Row()), 1)
    ensures Fillable(Old(), {1}, 2, Everywhere()) && FillsFrom(Old(), 2, Old(), 2)
  {
    StartsSound();
    RecordKnown();
    FilledSound(Row(), 1, []);
    DriftSelf(Old(), {});
    DriftSelf(Recorded(Row()), {});
    hide DeleteFiles, Sound, Below, Drift, Known, NoLegacy;
  }

  /** An unknown repository, and a first delivery that stops once the record is inserted. */
  lemma UnknownExample()
    ensures var stopped, again, straight := Idle(1), Idle(1), Fill(Recorded(Row()), {}, 1);
            && Ran(Nothing(), 0, 0, Taken(), Note(), stopped)
            && Delivered(Nothing(), 0, Taken(), Note(), stopped, Deliveries(0, again, [], 0, straight, [3]))
            && FullIndex(straight.stop, 0, Head()) && !FullIndex(again.stop, 0, Head())
            && !Alike(again.stop, 0, straight.stop, 0, Path())
            && AppliedRun(again, 0, Taken(), Note().changed, Note().removed)
  {
    Fills();
    hide Fillable, FillsFrom, Ran, Succeeded, FullIndex, Alike, Recorded, Filled, Row;
    var r := StopRan(Nothing(), 0, Recorded(Row()), {}, 1);
    IdleSucceeds(1);
    FillSucceeds(Nothing(), 0, Recorded(Row()), {}, 1);
    Differs(1);
    IdleApplied(1);
  }

  /** An index under absolute paths, and a first delivery that stops once they are deleted. */
  lemma AbsoluteExample()
    ensures var stopped := Run(Old(), Recorded(Row()), 2, 2, {}, {1}, {1}, {}, {});
            var again, straight := Idle(2), Fill(Old(), {1}, 2);
            && Ran(Old(), 2, 0, Taken(), Note(), stopped)
            && Delivered(Old(), 2, Taken(), Note(), stopped, Deliveries(0, again, [], 0, straight, [4]))
            && FullIndex(straight.stop, 0, Head()) && !FullIndex(again.stop, 0, Head())
            && !Alike(again.stop, 0, straight.stop, 0, Path())
  {
    Fills();
    hide Fillable, FillsFrom, Ran, Succeeded, FullIndex, Alike, Recorded, Filled, Row, Old;
    var r := StopRan(Old(), 2, Old(), {1}, 2);
    IdleSucceeds(2);
    FillSucceeds(Old(), 2, Old(), {1}, 2);
    Differs(2);
  }

  lemma Differs(n: Id)
    ensures !Alike(Recorded(Row()), 0, Filled(Row(), n, [Edge(n)]), 0, Path())
    ensures !FullIndex(Recorded(Row()), 0, Head())
  {
    FilledIsFull(Row(), n, [Edge(n)]);
    ExpectedIs(Path());
    assert Absent(Recorded(Row()), 0, Path());
    hide Filled, FullIndex, Alike, Absent, Recorded, Row;
    NotAlike(Recorded(Row()), 0, Filled(Row(), n, [Edge(n)]), 0, Head(), Path());
  }

  lemma IdleApplied(n: Id)
    requires n > 0
    ensures AppliedRun(Idle(n), 0, Taken(), Note().changed, Note().removed)
  {
    IdleSucceeds(n);
    RecordKnown();
    assert Ran(Recorded(Row()), n, 0, Taken(), Note(), Idle(n));
    assert PushApplied(Recorded(Row()), Recorded(Row()), 0, Taken(), Note().changed, Note().removed, {}, {}, []);
    hide Sound, Below, Effect, PushApplied, NoLegacy, Recorded, Row, Known;
    AppliedByContract(Idle(n), 0, Taken(), Note().changed, Note().removed, []);
  }
}
