/** From the syntax tree of a file to the rows of a clean index, and back. */
module Stored {
  import opened Base
  import opened Paths
  import opened SourceTree
  import opened Symbols
  import opened Definitions
  import opened Chunker
  import opened Tables
  import opened Index
  import opened Placement

  /** File row f of the path, with symbol row s and chunk row c below it, the chunk given to that symbol. */
  ghost predicate Holding(db: DB, r: Id, p: Rel, f: Id, s: Id, c: Id, symbol: SymbolData, chunk: ChunkData) {
    && f in db.files && db.files[f].repo == r && db.files[f].path == RelPath(p)
    && s in db.symbols && db.symbols[s].repo == r && db.symbols[s].file == f && db.symbols[s].data == symbol
    && c in db.chunks && db.chunks[c].repo == r && db.chunks[c].file == f && db.chunks[c].symbol == s
    && db.chunks[c].data == chunk
  }

  /** A planned chunk of the file is a row, and so is its symbol. */
  lemma PlannedIsStored(db: DB, r: Id, tree: Tree, p: Rel, plan: Planned)
    requires p in tree && tree[p].built && CleanAt(db, r, tree, p) && plan in ChunksOf(tree[p])
    ensures exists f, s, c :: Holding(db, r, p, f, s, c, SymbolsOf(tree[p])[plan.sym], plan.data)
  {
    var src := tree[p];
    var f, sids, cids :| Listed(db, r, p, src, f, sids, cids);
    var k :| 0 <= k < |ChunksOf(src)| && ChunksOf(src)[k] == plan;
    hide *;
    ListedIsStored(db, r, p, src, f, sids, cids, k);
  }

  lemma ListedIsStored(db: DB, r: Id, p: Rel, src: SourceFile, f: Id, sids: seq<Id>, cids: seq<Id>, k: nat)
    requires Listed(db, r, p, src, f, sids, cids) && k < |ChunksOf(src)|
    ensures var plan := ChunksOf(src)[k];
            exists s, c :: Holding(db, r, p, f, s, c, SymbolsOf(src)[plan.sym], plan.data)
  {
    hide SymbolsOf, ChunksOf;
    var plan := ChunksOf(src)[k];
    var row := db.chunks[cids[k]];
    assert Core(row) == PlannedRow(r, f, plan, sids);
    assert row.repo == Core(row).repo && row.file == Core(row).file && row.symbol == Core(row).symbol &&
           row.data == Core(row).data;
    assert Holding(db, r, p, f, sids[plan.sym], cids[k], SymbolsOf(src)[plan.sym], plan.data);
  }

  /** In a clean index every function that no other declaration covers has a symbol row under its full name, and a
      chunk row with its text that points at it. */
  lemma FunctionStored(db: DB, r: Id, tree: Tree, p: Rel, k: nat, d: Def, detail: string)
    requires p in tree && tree[p].built && CleanAt(db, r, tree, p)
    requires var ns := PreOrder(tree[p].ast);
             && k < |ns| && ns[k].kind == FuncDecl(Some(d), detail) && d.isFunc && !Blank(ns[k].info.text)
             && SingleDefs(ns) && OnOwnLines(ns, k)
    ensures var i := PreOrder(tree[p].ast)[k].info;
            exists f, s, c ::
              Holding(db, r, p, f, s, c, SymbolData(d.fqName, FunctionSym, i.startLine, i.endLine, detail),
                ChunkData(i.text, FunctionChunk, i.startLine, i.endLine))
  {
    FunctionIndexed(tree[p], k, d, detail);
    var i := PreOrder(tree[p].ast)[k].info;
    hide PreOrder, ChunksOf, SymbolsOf, SingleDefs, OnOwnLines, Blank, CleanAt, Holding;
    var plan :| plan in ChunksOf(tree[p]) && plan.data == ChunkData(i.text, FunctionChunk, i.startLine, i.endLine) &&
      SymbolsOf(tree[p])[plan.sym] == SymbolData(d.fqName, FunctionSym, i.startLine, i.endLine, detail);
    PlannedIsStored(db, r, tree, p, plan);
  }

  /** The same for structs and interfaces. */
  lemma TypeStored(db: DB, r: Id, tree: Tree, p: Rel, g: nat, j: nat, d: Def, shape: Shape, detail: string)
    requires p in tree && tree[p].built && CleanAt(db, r, tree, p)
    requires var ns := PreOrder(tree[p].ast);
             && g < |ns| && ns[g].kind.GenDecl? && j < |ns[g].kids|
             && ns[g].kids[j].kind == TypeSpec(Some(d), shape, detail) && d.hasPkg
             && shape in {StructType, InterfaceType} && SingleDefs(ns) && !Blank(ns[g].kids[j].info.text)
             && forall k :: 0 <= k < |ns| && ns[k] == ns[g].kids[j] ==> OnOwnLines(ns, k)
    ensures var i := PreOrder(tree[p].ast)[g].kids[j].info;
            var kind := if shape == InterfaceType then InterfaceSym else TypeSym;
            exists f, s, c ::
              Holding(db, r, p, f, s, c, SymbolData(d.fqName, kind, i.startLine, i.endLine, detail),
                ChunkData(i.text, TypeChunk, i.startLine, i.endLine))
  {
    TypeIndexed(tree[p], g, j, d, shape, detail);
    var i := PreOrder(tree[p].ast)[g].kids[j].info;
    var symbol := SymbolData(d.fqName, if shape == InterfaceType then InterfaceSym else TypeSym, i.startLine,
                             i.endLine, detail);
    hide PreOrder, ChunksOf, SymbolsOf, SingleDefs, OnOwnLines, Blank, CleanAt, Holding;
    var plan :| plan in ChunksOf(tree[p]) && plan.data == ChunkData(i.text, TypeChunk, i.startLine, i.endLine) &&
      SymbolsOf(tree[p])[plan.sym] == symbol;
    PlannedIsStored(db, r, tree, p, plan);
  }

  /** Every identifier that yields a symbol, constants and variables among them, has its symbol row. */
  lemma SymbolStored(db: DB, r: Id, tree: Tree, p: Rel, at: Place, symbol: SymbolData)
    requires p in tree && tree[p].built && CleanAt(db, r, tree, p) && SymbolAt(PreOrder(tree[p].ast), at, symbol)
    ensures exists f, s :: && f in db.files && db.files[f] == FileRow(r, RelPath(p))
                           && s in db.symbols && db.symbols[s] == SymbolRow(r, f, symbol)
  {
    var src := tree[p];
    var f, sids, cids :| Listed(db, r, p, src, f, sids, cids);
    assert SymbolsListed(db.symbols, r, f, SymbolsOf(src), sids);
    assert f in db.files && db.files[f] == FileRow(r, RelPath(p));
    var places := SymbolsOfTree(src);
    hide CleanAt, PreOrder, SymbolsOf, ChunksOf, Listed, SymbolsListed, SymbolAt;
    var k :| 0 <= k < |places| && places[k] == at;
    OneSymbol(PreOrder(src.ast), at, SymbolsOf(src)[k], symbol);
    ListedSymbol(db, r, f, SymbolsOf(src), sids, k);
  }

  lemma ListedSymbol(db: DB, r: Id, f: Id, want: seq<SymbolData>, sids: seq<Id>, k: nat)
    requires SymbolsListed(db.symbols, r, f, want, sids) && k < |want|
    ensures exists s :: s in db.symbols && db.symbols[s] == SymbolRow(r, f, want[k])
  {
    assert db.symbols[sids[k]] == SymbolRow(r, f, want[k]);
  }

  lemma OneSymbol(ns: seq<Node>, at: Place, s: SymbolData, s': SymbolData)
    requires SymbolAt(ns, at, s) && SymbolAt(ns, at, s')
    ensures s == s'
  {
    hide FirstDefines, AfterConst;
  }

  // ---------- Back from the rows ----------

  /** A chunk a source may have: of a function, struct or interface, or of the whole file. */
  ghost predicate ChunkOfTree(ast: Node, c: ChunkData) {
    || (exists at: Place :: ChunkAt(PreOrder(ast), at, c))
    || c == ChunkData(ast.info.text, OtherChunk, ast.info.startLine, ast.info.endLine)
  }

  lemma RawChunkIsOfTree(src: SourceFile, c: ChunkData)
    requires c in RawChunks(src)
    ensures ChunkOfTree(src.ast, c)
  {
    RawChunksAre(src);
    hide PreOrder, RawChunks, ChunkAt;
    if at: Place, d :| ChunkAt(PreOrder(src.ast), at, d) {
      var places :| InWalkOrder(PreOrder(src.ast), RawChunks(src), places);
      var k :| 0 <= k < |RawChunks(src)| && RawChunks(src)[k] == c;
      assert ChunkAt(PreOrder(src.ast), places[k], c);
    }
  }

  /** The chunk row holds text of the source that is not blank, and points at a symbol of the file around it. */
  ghost predicate FromTree(db: DB, src: SourceFile, f: Id, c: Id)
    requires c in db.chunks
  {
    var row := db.chunks[c];
    && ChunkOfTree(src.ast, row.data) && !Blank(row.data.content) && row.symbol in db.symbols
    && var symbol := db.symbols[row.symbol];
       && symbol.file == f && symbol.data.startLine <= row.data.startLine
       && row.data.endLine <= symbol.data.endLine
  }

  lemma SymbolRowIs(db: DB, r: Id, p: Rel, src: SourceFile, f: Id, sids: seq<Id>, cids: seq<Id>, k: nat)
    requires Listed(db, r, p, src, f, sids, cids) && k < |sids|
    ensures sids[k] in db.symbols && exists at: Place :: SymbolAt(PreOrder(src.ast), at, db.symbols[sids[k]].data)
  {
    var places := SymbolsOfTree(src);
    hide PreOrder, SymbolsOf, ChunksOf, SymbolAt;
    assert SymbolAt(PreOrder(src.ast), places[k], SymbolsOf(src)[k]);
  }

  lemma ChunkRowIs(db: DB, r: Id, p: Rel, src: SourceFile, f: Id, sids: seq<Id>, cids: seq<Id>, k: nat)
    requires Listed(db, r, p, src, f, sids, cids) && k < |cids|
    ensures cids[k] in db.chunks && FromTree(db, src, f, cids[k])
  {
    var plan := ChunksOf(src)[k];
    var at := PlanKeeps(RawChunks(src), SymbolsOf(src));
    assert ChunksOf(src) == PlanOf(RawChunks(src), SymbolsOf(src));
    hide SymbolsOf, ChunksOf, RawChunks, PlanOf, ChunkOfTree;
    assert plan.data == RawChunks(src)[at[k]];
    DroppedIs(SymbolsOf(src), plan.data);
    hide Dropped, Blank, FirstMatch;
    RawChunkIsOfTree(src, plan.data);
    var row := db.chunks[cids[k]];
    assert Core(row) == PlannedRow(r, f, plan, sids);
    assert row.symbol == Core(row).symbol && row.data == Core(row).data;
  }

  /** Nothing else is there: every symbol row of a clean file is that of an identifier of its source. */
  lemma SymbolFromTree(db: DB, r: Id, tree: Tree, p: Rel, f: Id, s: Id)
    requires p in tree && tree[p].built && CleanAt(db, r, tree, p) && UniquePaths(db)
    requires f in db.files && db.files[f] == FileRow(r, RelPath(p)) && s in db.symbols && db.symbols[s].file == f
    ensures exists at: Place :: SymbolAt(PreOrder(tree[p].ast), at, db.symbols[s].data)
  {
    var f', sids, cids :| Listed(db, r, p, tree[p], f', sids, cids);
    assert f' == f;
    var k :| 0 <= k < |sids| && sids[k] == s;
    hide *;
    SymbolRowIs(db, r, p, tree[p], f, sids, cids, k);
  }

  /** And every chunk row of it holds text of the source, and is given to a symbol of the file around it. */
  lemma ChunkFromTree(db: DB, r: Id, tree: Tree, p: Rel, f: Id, c: Id)
    requires p in tree && tree[p].built && CleanAt(db, r, tree, p) && UniquePaths(db)
    requires f in db.files && db.files[f] == FileRow(r, RelPath(p)) && c in db.chunks && db.chunks[c].file == f
    ensures FromTree(db, tree[p], f, c)
  {
    var f', sids, cids :| Listed(db, r, p, tree[p], f', sids, cids);
    assert f' == f;
    var k :| 0 <= k < |cids| && cids[k] == c;
    hide *;
    ChunkRowIs(db, r, p, tree[p], f, sids, cids, k);
  }
}
