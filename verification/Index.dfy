/** What it means for the tables to hold the index of a tree, path by path and up to row ids. */
module Index {
  import opened Base
  import opened Paths
  import opened SourceTree
  import opened Symbols
  import opened Chunker
  import opened Tables

  ghost predicate FileAt(db: DB, r: Id, p: Rel, f: Id) {
    f in db.files && db.files[f] == FileRow(r, RelPath(p))
  }

  /** sids lists the rows of file f, one for each wanted symbol and in that order. */
  ghost predicate SymbolsListed(rows: map<Id, SymbolRow>, r: Id, f: Id, want: seq<SymbolData>, sids: seq<Id>) {
    && |sids| == |want|
    && Distinct(sids)
    && (forall k :: 0 <= k < |sids| ==> sids[k] in rows && rows[sids[k]] == SymbolRow(r, f, want[k]))
    && (forall s :: s in rows && rows[s].file == f ==> s in sids)
  }

  /** The chunk row a plan asks for, before the workers fill in its columns. */
  function PlannedRow(r: Id, f: Id, p: Planned, sids: seq<Id>): ChunkRow
    requires p.sym < |sids|
  {
    ChunkRow(r, f, sids[p.sym], p.data, None, None)
  }

  /** cids lists the rows of file f, one for each planned chunk, each given to its symbol. */
  ghost predicate ChunksListed(rows: map<Id, ChunkRow>, r: Id, f: Id, plan: seq<Planned>, sids: seq<Id>,
                               cids: seq<Id>) {
    && |cids| == |plan|
    && Distinct(cids)
    && (forall k :: 0 <= k < |cids| ==>
          plan[k].sym < |sids| && cids[k] in rows && Core(rows[cids[k]]) == PlannedRow(r, f, plan[k], sids))
    && (forall c :: c in rows && rows[c].file == f ==> c in cids)
  }

  ghost predicate Listed(db: DB, r: Id, p: Rel, src: SourceFile, f: Id, sids: seq<Id>, cids: seq<Id>) {
    && FileAt(db, r, p, f)
    && SymbolsListed(db.symbols, r, f, SymbolsOf(src), sids)
    && ChunksListed(db.chunks, r, f, ChunksOf(src), sids, cids)
  }

  ghost predicate Indexed(db: DB, r: Id, p: Rel, src: SourceFile) {
    exists f, sids, cids :: Listed(db, r, p, src, f, sids, cids)
  }

  ghost predicate Absent(db: DB, r: Id, p: Rel) {
    forall f :: f in db.files ==> db.files[f] != FileRow(r, RelPath(p))
  }

  /** The rows at a path are exactly those the tree gives it. */
  ghost predicate CleanAt(db: DB, r: Id, tree: Tree, p: Rel) {
    match Expected(tree, p)
    case Some(src) => Indexed(db, r, p, src)
    case None => Absent(db, r, p)
  }

  /** Both trees ask for the same rows at a path: no file in either, or files with the same symbols and chunks. Where
      the calls of the file lead may differ, as that depends on other files too. */
  ghost predicate SameYield(before: Tree, after: Tree, p: Rel) {
    var x, y := Expected(before, p), Expected(after, p);
    && (x.Some? <==> y.Some?)
    && (x.Some? ==> SymbolsOf(x.value) == SymbolsOf(y.value) && ChunksOf(x.value) == ChunksOf(y.value))
  }

  lemma SameYieldClean(db: DB, r: Id, before: Tree, after: Tree, p: Rel)
    requires SameYield(before, after, p)
    ensures CleanAt(db, r, before, p) <==> CleanAt(db, r, after, p)
  {
    if Expected(before, p).Some? {
      var x, y := Expected(before, p).value, Expected(after, p).value;
      hide SymbolsOf, ChunksOf, SymbolsListed, ChunksListed;
      assert forall f, sids, cids :: Listed(db, r, p, x, f, sids, cids) <==> Listed(db, r, p, y, f, sids, cids);
    }
  }

  lemma SameYieldTrans(a: Tree, b: Tree, c: Tree, p: Rel)
    requires SameYield(a, b, p) && SameYield(b, c, p)
    ensures SameYield(a, c, p)
  {
  }

  ghost predicate NoLegacy(db: DB, r: Id) {
    forall f :: f in db.files && db.files[f].repo == r ==> db.files[f].path.RelPath?
  }

  /** The index of repository r is the full index of the tree. */
  ghost predicate FullIndex(db: DB, r: Id, tree: Tree) {
    NoLegacy(db, r) && forall p :: CleanAt(db, r, tree, p)
  }

  /** The two stores hold the same file, symbols and chunks at a path, row for row, up to a renaming of ids. */
  ghost predicate SameAt(a: DB, ra: Id, b: DB, rb: Id, p: Rel) {
    || (Absent(a, ra, p) && Absent(b, rb, p))
    || exists src, fa, sa, ca, fb, sb, cb :: Listed(a, ra, p, src, fa, sa, ca) && Listed(b, rb, p, src, fb, sb, cb)
  }

  lemma CleanIsUnique(a: DB, ra: Id, b: DB, rb: Id, tree: Tree, p: Rel)
    requires CleanAt(a, ra, tree, p) && CleanAt(b, rb, tree, p)
    ensures SameAt(a, ra, b, rb, p)
  {
    match Expected(tree, p) {
      case None =>
      case Some(src) =>
        var fa, sa, ca :| Listed(a, ra, p, src, fa, sa, ca);
        var fb, sb, cb :| Listed(b, rb, p, src, fb, sb, cb);
    }
  }

  // ---------- What a run leaves alone ----------

  ghost predicate AtPaths(db: DB, r: Id, gone: set<Id>, paths: iset<Rel>) {
    forall f :: f in gone ==> f in db.files && db.files[f].repo == r && (db.files[f].path.RelPath? ==>
        db.files[f].path.rel in paths)
  }

  ghost predicate NewAtPaths(a: DB, b: DB, paths: iset<Rel>) {
    forall f :: f in b.files && f !in a.files ==> b.files[f].path.RelPath? && b.files[f].path.rel in paths
  }

  /** b is a with the files in gone discarded and rows added for new files of r, all at the given paths. */
  ghost predicate Replaces(a: DB, b: DB, r: Id, lo: Id, t: Writes, gone: set<Id>, paths: iset<Rel>) {
    && AtPaths(a, r, gone, paths)
    && Grows(DeleteFiles(a, gone), b, r, lo, t)
    && NewAtPaths(a, b, paths)
  }

  lemma SymbolsFrame(a: map<Id, SymbolRow>, b: map<Id, SymbolRow>, r: Id, f: Id, want: seq<SymbolData>, sids: seq<Id>)
    requires SymbolsListed(a, r, f, want, sids)
    requires forall s :: s in a && a[s].file == f ==> s in b && b[s] == a[s]
    requires forall s :: s in b && b[s].file == f ==> s in a && a[s].file == f
    ensures SymbolsListed(b, r, f, want, sids)
  {
  }

  lemma ChunksFrame(a: map<Id, ChunkRow>, b: map<Id, ChunkRow>, r: Id, f: Id, plan: seq<Planned>, sids: seq<Id>,
                    cids: seq<Id>)
    requires ChunksListed(a, r, f, plan, sids, cids)
    requires forall c :: c in a && a[c].file == f ==> c in b && Core(b[c]) == Core(a[c])
    requires forall c :: c in b && b[c].file == f ==> c in a && a[c].file == f
    ensures ChunksListed(b, r, f, plan, sids, cids)
  {
    forall k | 0 <= k < |cids| ensures cids[k] in b && Core(b[cids[k]]) == Core(a[cids[k]]) {
      assert Core(a[cids[k]]).file == f;
    }
  }

  /** File f has the very same symbol rows in both stores. */
  ghost predicate SymbolsKept(a: DB, b: DB, f: Id) {
    && (forall s :: s in a.symbols && a.symbols[s].file == f ==> s in b.symbols && b.symbols[s] == a.symbols[s])
    && (forall s :: s in b.symbols && b.symbols[s].file == f ==> s in a.symbols && a.symbols[s].file == f)
  }

  /** File f has the very same chunk rows in both stores; only worker writes may have changed their columns. */
  ghost predicate ChunksKept(a: DB, b: DB, t: Writes, f: Id) {
    && (forall c :: c in a.chunks && a.chunks[c].file == f ==>
        c in b.chunks && SameChunk(c, a.chunks[c], b.chunks[c], t))
    && (forall c :: c in b.chunks && b.chunks[c].file == f ==> c in a.chunks && a.chunks[c].file == f)
  }

  lemma SurvivingSymbols(a: DB, b: DB, r: Id, lo: Id, t: Writes, gone: set<Id>, f: Id)
    requires Below(a, lo) && f !in gone && f in a.files
    requires Grows(DeleteFiles(a, gone), b, r, lo, t)
    ensures f in b.files && b.files[f] == a.files[f]
    ensures SymbolsKept(a, b, f)
  {
    hide KeepCalls, KeepImports, ChunksGrow, EdgesGrow;
    assert f in DeleteFiles(a, gone).files;
  }

  lemma SurvivingChunks(a: DB, b: DB, r: Id, lo: Id, t: Writes, gone: set<Id>, f: Id)
    requires SymbolsSound(a) && ChunksSound(a) && Below(a, lo) && f !in gone && f in a.files
    requires Grows(DeleteFiles(a, gone), b, r, lo, t)
    ensures ChunksKept(a, b, t, f)
  {
    var d := DeleteFiles(a, gone);
    hide KeepCalls, KeepImports, FilesGrow, SymbolsGrow, EdgesGrow;
    forall c | c in a.chunks && a.chunks[c].file == f ensures c in d.chunks {
      assert a.symbols[a.chunks[c].symbol].file == f;
    }
    hide WroteEmbedding, WroteSummary;
    forall c | c in b.chunks && b.chunks[c].file == f ensures c in a.chunks && a.chunks[c].file == f {
      assert c in d.chunks;
      assert Core(d.chunks[c]) == Core(b.chunks[c]);
    }
  }

  lemma KeptListed(a: DB, b: DB, t: Writes, f: Id, r: Id, want: seq<SymbolData>, plan: seq<Planned>, sids: seq<Id>,
                   cids: seq<Id>)
    requires SymbolsKept(a, b, f) && ChunksKept(a, b, t, f)
    requires SymbolsListed(a.symbols, r, f, want, sids) && ChunksListed(a.chunks, r, f, plan, sids, cids)
    ensures SymbolsListed(b.symbols, r, f, want, sids) && ChunksListed(b.chunks, r, f, plan, sids, cids)
  {
    hide SymbolsListed, ChunksListed, WroteEmbedding, WroteSummary;
    SymbolsFrame(a.symbols, b.symbols, r, f, want, sids);
    ChunksFrame(a.chunks, b.chunks, r, f, plan, sids, cids);
  }

  /** A file that is not discarded keeps its very rows: the same ids list it before and after. */
  lemma ListedFrame(a: DB, b: DB, r: Id, lo: Id, t: Writes, gone: set<Id>,
                    q: Id, p: Rel, src: SourceFile, f: Id, sids: seq<Id>, cids: seq<Id>)
    requires Sound(a) && Below(a, lo) && f !in gone
    requires Grows(DeleteFiles(a, gone), b, r, lo, t)
    requires Listed(a, q, p, src, f, sids, cids)
    ensures Listed(b, q, p, src, f, sids, cids)
  {
    hide SymbolsOf, ChunksOf, SymbolsListed, ChunksListed, Below, Grows, DeleteFiles, UniquePaths, CallsSound,
        ImportsSound, SymbolsSound, ChunksSound, SymbolsKept, ChunksKept;
    SurvivingSymbols(a, b, r, lo, t, gone, f);
    SurvivingChunks(a, b, r, lo, t, gone, f);
    KeptListed(a, b, t, f, q, SymbolsOf(src), ChunksOf(src), sids, cids);
  }

  /** A path the run was not asked about stays as it was, for any tree it is compared with. */
  lemma CleanFrame(a: DB, b: DB, r: Id, lo: Id, t: Writes, gone: set<Id>, paths: iset<Rel>, tree: Tree, p: Rel)
    requires Sound(a) && Below(a, lo) && Replaces(a, b, r, lo, t, gone, paths) && p !in paths
    requires CleanAt(a, r, tree, p)
    ensures CleanAt(b, r, tree, p)
  {
    match Expected(tree, p) {
      case Some(src) =>
        var f, sids, cids :| Listed(a, r, p, src, f, sids, cids);
        ListedFrame(a, b, r, lo, t, gone, r, p, src, f, sids, cids);
      case None =>
        forall f | f in b.files ensures b.files[f] != FileRow(r, RelPath(p)) {
          if f in a.files {
            assert f in DeleteFiles(a, gone).files;
          }
        }
    }
  }

  /** Column writes do not change the index. */
  lemma DriftKeepsClean(a: DB, b: DB, r: Id, t: Writes, tree: Tree, p: Rel)
    requires Drift(a, b, t) && CleanAt(a, r, tree, p)
    ensures CleanAt(b, r, tree, p)
  {
    if Expected(tree, p).Some? {
      var src := Expected(tree, p).value;
      var f, sids, cids :| Listed(a, r, p, src, f, sids, cids);
      forall c | c in b.chunks ensures Core(a.chunks[c]) == Core(b.chunks[c]) &&
          b.chunks[c].file == Core(b.chunks[c]).file {
      }
      ChunksFrame(a.chunks, b.chunks, r, f, ChunksOf(src), sids, cids);
      assert Listed(b, r, p, src, f, sids, cids);
    }
  }

  lemma SameRecords(a: DB, b: DB, t: Writes, tree: Tree, r: Id, p: Rel)
    requires b.files == a.files && b.symbols == a.symbols && SameChunks(a.chunks, b.chunks, t)
    ensures CleanAt(a, r, tree, p) ==> CleanAt(b, r, tree, p)
    ensures NoLegacy(a, r) <==> NoLegacy(b, r)
  {
    if CleanAt(a, r, tree, p) {
      var a' := b.(chunks := a.chunks);
      assert CleanAt(a', r, tree, p) by { CleanByTables(a, a', r, tree, p); }
      hide CleanAt;
      DriftKeepsClean(a', b, r, t, tree, p);
    }
  }

  lemma CleanByTables(a: DB, b: DB, r: Id, tree: Tree, p: Rel)
    requires b.files == a.files && b.symbols == a.symbols && b.chunks == a.chunks && CleanAt(a, r, tree, p)
    ensures CleanAt(b, r, tree, p)
  {
    hide SymbolsListed, ChunksListed;
    if Expected(tree, p).Some? {
      var src := Expected(tree, p).value;
      var f, sids, cids :| Listed(a, r, p, src, f, sids, cids);
      assert Listed(b, r, p, src, f, sids, cids);
    }
  }

  // ---------- What a run rebuilds ----------

  function IdsOf(symbols: seq<Symbol>): (r: seq<Id>)
    ensures |r| == |symbols| && forall k :: 0 <= k < |r| ==> r[k] == symbols[k].id
  {
    seq(|symbols|, k requires 0 <= k < |symbols| => symbols[k].id)
  }

  lemma {:induction false} ForFileDrawn(symbols: seq<Symbol>, file: Id, lo: Id, hi: Id)
    requires Drawn(symbols, lo, hi)
    ensures Drawn(ForFile(symbols, file), lo, hi)
  {
    if symbols != [] {
      var n := |symbols| - 1;
      ForFileDrawn(symbols[..n], file, lo, hi);
      var before := ForFile(symbols[..n], file);
      forall i | 0 <= i < |before| ensures before[i].id < symbols[n].id {
        assert before[i] in before;
        var k :| 0 <= k < n && symbols[..n][k] == before[i];
      }
    }
  }

  lemma MineAt(symbols: seq<Symbol>, f: Id, k: nat) returns (i: nat)
    requires k < |ForFile(symbols, f)|
    ensures i < |symbols| && symbols[i] == ForFile(symbols, f)[k] && symbols[i].file == f
  {
    assert ForFile(symbols, f)[k] in ForFile(symbols, f);
    i :| 0 <= i < |symbols| && symbols[i] == ForFile(symbols, f)[k];
  }

  lemma MineHas(symbols: seq<Symbol>, f: Id, i: nat) returns (k: nat)
    requires i < |symbols| && symbols[i].file == f
    ensures k < |ForFile(symbols, f)| && ForFile(symbols, f)[k] == symbols[i]
  {
    assert symbols[i] in ForFile(symbols, f);
    k :| 0 <= k < |ForFile(symbols, f)| && ForFile(symbols, f)[k] == symbols[i];
  }

  lemma RowIsMine(symbols: seq<Symbol>, f: Id, s: Id, i: nat)
    requires i < |symbols| && symbols[i].id == s && symbols[i].file == f
    ensures s in IdsOf(ForFile(symbols, f))
  {
    var k := MineHas(symbols, f, i);
    assert IdsOf(ForFile(symbols, f))[k] == s;
  }

  lemma MineIsRow(symbols: seq<Symbol>, r: Id, f: Id, lo: Id, hi: Id, k: nat)
    requires Drawn(symbols, lo, hi) && InRepo(symbols, r) && k < |ForFile(symbols, f)|
    ensures var m := ForFile(symbols, f)[k];
            m.id >= lo && m.id in SymbolRows(symbols) && SymbolRows(symbols)[m.id] == SymbolRow(r, f, m.data)
  {
    SymbolRowsAre(symbols);
    var i := MineAt(symbols, f, k);
    assert symbols[i] in symbols;
  }

  /** Inserting the extracted symbols lists the symbols of every file of the map. */
  lemma SymbolsInserted(a: map<Id, SymbolRow>, r: Id, lo: Id, hi: Id, symbols: seq<Symbol>, f: Id)
    requires forall s :: s in a ==> s < lo && a[s].file != f
    requires Drawn(symbols, lo, hi) && InRepo(symbols, r)
    ensures SymbolsListed(a + SymbolRows(symbols), r, f, Datas(ForFile(symbols, f)), IdsOf(ForFile(symbols, f)))
  {
    ForFileDrawn(symbols, f, lo, hi);
    var mine := ForFile(symbols, f);
    assert Distinct(IdsOf(mine));
    hide SymbolRows, ForFile, InRepo, IdsOf, Drawn, Distinct;
    RowsOfFile(a, symbols, f, lo, hi);
    forall k | 0 <= k < |mine|
      ensures IdsOf(mine)[k] in a + SymbolRows(symbols)
      ensures (a + SymbolRows(symbols))[IdsOf(mine)[k]] == SymbolRow(r, f, mine[k].data)
    {
      MineIsRow(symbols, r, f, lo, hi, k);
    }
  }

  lemma RowsOfFile(a: map<Id, SymbolRow>, symbols: seq<Symbol>, f: Id, lo: Id, hi: Id)
    requires Drawn(symbols, lo, hi) && forall s :: s in a ==> a[s].file != f
    ensures forall s :: s in a + SymbolRows(symbols) && (a + SymbolRows(symbols))[s].file == f ==>
        s in IdsOf(ForFile(symbols, f))
  {
    SymbolRowsAre(symbols);
    hide SymbolRows, ForFile, IdsOf;
    forall s | s in a + SymbolRows(symbols) &&
        (a + SymbolRows(symbols))[s].file == f ensures s in IdsOf(ForFile(symbols, f)) {
      var i :| 0 <= i < |symbols| && symbols[i].id == s;
      RowIsMine(symbols, f, s, i);
    }
  }

  function ChunkIds(chunks: seq<Chunk>): (r: seq<Id>)
    ensures |r| == |chunks| && forall k :: 0 <= k < |r| ==> r[k] == chunks[k].id
  {
    seq(|chunks|, k requires 0 <= k < |chunks| => chunks[k].id)
  }

  lemma PlannedRowMade(chunks: seq<Chunk>, plan: seq<Planned>, symbols: seq<Symbol>, r: Id, f: Id, k: nat)
    requires MadeFrom(chunks, plan, symbols, r, f) && k < |plan|
    ensures plan[k].sym < |symbols| && Core(RowOfChunk(chunks[k])) == PlannedRow(r, f, plan[k], IdsOf(symbols))
  {
  }

  /** Inserting the assembled chunks of a file lists its chunks. */
  lemma ChunksInserted(a: map<Id, ChunkRow>, r: Id, lo: Id, hi: Id, chunks: seq<Chunk>, plan: seq<Planned>,
                       symbols: seq<Symbol>, f: Id)
    requires forall c :: c in a ==> c < lo && a[c].file != f
    requires ChunksDrawn(chunks, lo, hi) && MadeFrom(chunks, plan, symbols, r, f)
    ensures ChunksListed(a + ChunkRows(chunks), r, f, plan, IdsOf(symbols), ChunkIds(chunks))
  {
    assert Distinct(ChunkIds(chunks)) && |chunks| == |plan|;
    hide ChunkRows, IdsOf, ChunkIds, Distinct, PlannedRow, Core, MadeFrom;
    RowsPlanned(a, r, lo, hi, chunks, plan, symbols, f);
    RowsCovered(a, lo, hi, chunks, f);
    hide ChunksDrawn;
  }

  lemma RowsPlanned(a: map<Id, ChunkRow>, r: Id, lo: Id, hi: Id, chunks: seq<Chunk>, plan: seq<Planned>,
                    symbols: seq<Symbol>, f: Id)
    requires ChunksDrawn(chunks, lo, hi) && MadeFrom(chunks, plan, symbols, r, f)
    ensures forall k :: 0 <= k < |plan| ==>
        && plan[k].sym < |symbols| && ChunkIds(chunks)[k] in a + ChunkRows(chunks)
        && Core((a + ChunkRows(chunks))[ChunkIds(chunks)[k]]) == PlannedRow(r, f, plan[k], IdsOf(symbols))
  {
    ChunkRowsAre(chunks);
    hide ChunkRows;
    forall k | 0 <= k < |plan|
      ensures plan[k].sym < |symbols| && ChunkIds(chunks)[k] in a + ChunkRows(chunks)
      ensures Core((a + ChunkRows(chunks))[ChunkIds(chunks)[k]]) == PlannedRow(r, f, plan[k], IdsOf(symbols))
    {
      PlannedRowMade(chunks, plan, symbols, r, f, k);
      hide *;
    }
  }

  lemma RowsCovered(a: map<Id, ChunkRow>, lo: Id, hi: Id, chunks: seq<Chunk>, f: Id)
    requires ChunksDrawn(chunks, lo, hi) && forall c :: c in a ==> a[c].file != f
    ensures forall c :: c in a + ChunkRows(chunks) && (a + ChunkRows(chunks))[c].file == f ==> c in ChunkIds(chunks)
  {
    ChunkRowsAre(chunks);
    hide ChunkRows;
    forall c | c in a + ChunkRows(chunks) && (a + ChunkRows(chunks))[c].file == f ensures c in ChunkIds(chunks) {
      var k :| 0 <= k < |chunks| && chunks[k].id == c;
      assert ChunkIds(chunks)[k] == c;
    }
  }
}
