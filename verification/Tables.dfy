/** The relational store as a value: rows by id, their constraints, and the cascading delete. */
module Tables {
  import opened Base
  import opened Paths
  import opened Symbols
  import opened Chunker
  import opened Calls
  import opened Imports

  type VecId = nat

  datatype RepoRow = RepoRow(org: string, ext: string, name: string, branch: string, url: string, storage: Abs,
      provider: string)
  datatype FileRow = FileRow(repo: Id, path: StoredPath)
  datatype SymbolRow = SymbolRow(repo: Id, file: Id, data: SymbolData)
  datatype ChunkRow = ChunkRow(repo: Id, file: Id, symbol: Id, data: ChunkData, embedding: Option<VecId>,
      summary: Option<string>)

  datatype DB = DB(
    repos: map<Id, RepoRow>,
    files: map<Id, FileRow>,
    symbols: map<Id, SymbolRow>,
    chunks: map<Id, ChunkRow>,
    calls: seq<CallEdge>,
    imports: seq<ImportEdge>)

  // ---------- Constraints ----------

  ghost predicate UniquePaths(db: DB) {
    forall f, g :: f in db.files && g in db.files && db.files[f] == db.files[g] ==> f == g
  }

  ghost predicate UniqueExternalIds(db: DB) {
    forall a, b :: a in db.repos && b in db.repos && db.repos[a].ext == db.repos[b].ext ==> a == b
  }

  ghost predicate FilesSound(db: DB) { forall f :: f in db.files ==> db.files[f].repo in db.repos }

  /** A symbol references its file, and belongs to the repository of its file. */
  ghost predicate SymbolsSound(db: DB) {
    forall s :: s in db.symbols ==>
      db.symbols[s].file in db.files && db.symbols[s].repo == db.files[db.symbols[s].file].repo
  }

  /** A chunk references its file and a symbol of that same file. */
  ghost predicate ChunksSound(db: DB) {
    forall c :: c in db.chunks ==>
      && db.chunks[c].file in db.files && db.chunks[c].repo == db.files[db.chunks[c].file].repo
      && db.chunks[c].symbol in db.symbols && db.symbols[db.chunks[c].symbol].file == db.chunks[c].file
  }

  ghost predicate CallSound(db: DB, e: CallEdge) {
    && e.file in db.files && db.files[e.file].repo == e.repo
    && e.caller in db.symbols && db.symbols[e.caller].repo == e.repo
    && e.callee in db.symbols && db.symbols[e.callee].repo == e.repo
  }

  ghost predicate ImportSound(db: DB, e: ImportEdge) {
    && e.from in db.files && db.files[e.from].repo == e.repo
    && e.to in db.files && db.files[e.to].repo == e.repo
  }

  ghost predicate CallsSound(db: DB) { forall e :: e in db.calls ==> CallSound(db, e) }
  ghost predicate ImportsSound(db: DB) { forall e :: e in db.imports ==> ImportSound(db, e) }

  /** Every foreign key and unique constraint of the schema, and two things only the pipeline keeps: one record per
      external id, and agreement on the owning repository. */
  ghost predicate Sound(db: DB) {
    && UniquePaths(db) && UniqueExternalIds(db)
    && FilesSound(db) && SymbolsSound(db) && ChunksSound(db) && CallsSound(db) && ImportsSound(db)
  }

  /** Only the chunk table differs, and is sound. */
  lemma ChunkTableSound(a: DB, d: DB)
    requires Sound(a) && ChunksSound(d)
    requires d.repos == a.repos && d.files == a.files && d.symbols == a.symbols && d.calls == a.calls &&
        d.imports == a.imports
    ensures Sound(d)
  {
    hide ChunksSound;
    assert UniquePaths(d) && UniqueExternalIds(d) && FilesSound(d) && SymbolsSound(d);
    hide UniquePaths, UniqueExternalIds, FilesSound, SymbolsSound;
    assert forall e :: CallSound(a, e) ==> CallSound(d, e);
    assert forall e :: ImportSound(a, e) ==> ImportSound(d, e);
  }

  /** Every id in use was drawn before n. */
  ghost predicate Below(db: DB, n: Id) {
    && (forall i :: i in db.repos ==> i < n)
    && (forall i :: i in db.files ==> i < n)
    && (forall i :: i in db.symbols ==> i < n)
    && (forall i :: i in db.chunks ==> i < n)
  }

  // ---------- ON DELETE CASCADE ----------

  function KeepCalls(es: seq<CallEdge>, fs: set<Id>, ss: set<Id>): seq<CallEdge> {
    if es == [] then []
    else
      var e := es[|es| - 1];
      KeepCalls(es[..|es| - 1], fs, ss) + (if e.file in fs && e.caller in ss && e.callee in ss then [e] else [])
  }

  function KeepImports(es: seq<ImportEdge>, fs: set<Id>): seq<ImportEdge> {
    if es == [] then []
    else
      var e := es[|es| - 1];
      KeepImports(es[..|es| - 1], fs) + (if e.from in fs && e.to in fs then [e] else [])
  }

  function KeepSymbols(db: DB, gone: set<Id>): map<Id, SymbolRow> {
    map s | s in db.symbols && db.symbols[s].file !in gone :: db.symbols[s]
  }

  /** Deletes file rows, and with them every row that references a deleted row. */
  function DeleteFiles(db: DB, gone: set<Id>): DB {
    var files := db.files - gone;
    var symbols := KeepSymbols(db, gone);
    db.(files := files,
        symbols := symbols,
        chunks := map c | c in db.chunks && db.chunks[c].file !in gone && db.chunks[c].symbol in symbols ::
                    db.chunks[c],
        calls := KeepCalls(db.calls, files.Keys, symbols.Keys),
        imports := KeepImports(db.imports, files.Keys))
  }

  lemma {:induction false} KeepCallsCount(es: seq<CallEdge>, fs: set<Id>, ss: set<Id>, e: CallEdge)
    ensures multiset(KeepCalls(es, fs, ss))[e] ==
            if e.file in fs && e.caller in ss && e.callee in ss then multiset(es)[e] else 0
  {
    if es != [] {
      KeepCallsCount(es[..|es| - 1], fs, ss, e);
      CountLast(es, e);
    }
  }

  lemma {:induction false} KeepImportsCount(es: seq<ImportEdge>, fs: set<Id>, e: ImportEdge)
    ensures multiset(KeepImports(es, fs))[e] == if e.from in fs && e.to in fs then multiset(es)[e] else 0
  {
    if es != [] {
      KeepImportsCount(es[..|es| - 1], fs, e);
      CountLast(es, e);
    }
  }

  lemma KeepMembers(db: DB, fs: set<Id>, ss: set<Id>)
    ensures forall e :: e in KeepCalls(db.calls, fs, ss) <==>
              e in db.calls && e.file in fs && e.caller in ss && e.callee in ss
    ensures forall e :: e in KeepImports(db.imports, fs) <==> e in db.imports && e.from in fs && e.to in fs
  {
    forall e ensures e in KeepCalls(db.calls, fs, ss) <==>
                     e in db.calls && e.file in fs && e.caller in ss && e.callee in ss
    {
      KeepCallsCount(db.calls, fs, ss, e);
      assert e in KeepCalls(db.calls, fs, ss) <==> multiset(KeepCalls(db.calls, fs, ss))[e] > 0;
      assert e in db.calls <==> multiset(db.calls)[e] > 0;
    }
    forall e ensures e in KeepImports(db.imports, fs) <==> e in db.imports && e.from in fs && e.to in fs {
      KeepImportsCount(db.imports, fs, e);
      assert e in KeepImports(db.imports, fs) <==> multiset(KeepImports(db.imports, fs))[e] > 0;
      assert e in db.imports <==> multiset(db.imports)[e] > 0;
    }
  }

  lemma {:induction false} KeepCallsTwice(es: seq<CallEdge>, f1: set<Id>, s1: set<Id>, f2: set<Id>, s2: set<Id>)
    requires f2 <= f1 && s2 <= s1
    ensures KeepCalls(KeepCalls(es, f1, s1), f2, s2) == KeepCalls(es, f2, s2)
  {
    if es != [] {
      var e, once := es[|es| - 1], KeepCalls(es[..|es| - 1], f1, s1);
      KeepCallsTwice(es[..|es| - 1], f1, s1, f2, s2);
      if e.file in f1 && e.caller in s1 && e.callee in s1 {
        assert KeepCalls(es, f1, s1) == once + [e];
        Snoc(once, e);
      } else {
        assert KeepCalls(es, f1, s1) == once + [] == once;
      }
    }
  }

  lemma {:induction false} KeepImportsTwice(es: seq<ImportEdge>, f1: set<Id>, f2: set<Id>)
    requires f2 <= f1
    ensures KeepImports(KeepImports(es, f1), f2) == KeepImports(es, f2)
  {
    if es != [] {
      var e, once := es[|es| - 1], KeepImports(es[..|es| - 1], f1);
      KeepImportsTwice(es[..|es| - 1], f1, f2);
      if e.from in f1 && e.to in f1 {
        assert KeepImports(es, f1) == once + [e];
        Snoc(once, e);
      } else {
        assert KeepImports(es, f1) == once + [] == once;
      }
    }
  }

  /** The cascade leaves no dangling reference. */
  lemma DeleteKeepsSound(db: DB, gone: set<Id>)
    requires Sound(db)
    ensures Sound(DeleteFiles(db, gone))
  {
    var d := DeleteFiles(db, gone);
    KeepMembers(db, d.files.Keys, d.symbols.Keys);
    hide KeepCalls, KeepImports;
    EdgesLeft(db, gone, d.calls, d.imports);
    hide CallsSound, ImportsSound, CallSound, ImportSound;
    ChunksLeft(db, gone);
    hide ChunksSound;
    assert UniquePaths(d) && UniqueExternalIds(d) && FilesSound(d) && SymbolsSound(d);
  }

  lemma ChunksLeft(db: DB, gone: set<Id>)
    requires SymbolsSound(db) && ChunksSound(db)
    ensures ChunksSound(DeleteFiles(db, gone))
  {
    hide KeepCalls, KeepImports;
  }

  lemma EdgesLeft(db: DB, gone: set<Id>, calls: seq<CallEdge>, imports: seq<ImportEdge>)
    requires CallsSound(db) && ImportsSound(db)
    requires calls == DeleteFiles(db, gone).calls && imports == DeleteFiles(db, gone).imports
    requires forall e :: e in calls ==>
        e in db.calls && e.file !in gone && db.symbols[e.caller].file !in gone && db.symbols[e.callee].file !in gone
    requires forall e :: e in imports ==> e in db.imports && e.from !in gone && e.to !in gone
    ensures CallsSound(DeleteFiles(db, gone)) && ImportsSound(DeleteFiles(db, gone))
  {
    hide KeepCalls, KeepImports;
    var d := DeleteFiles(db, gone);
    forall e | e in d.calls ensures CallSound(d, e) { assert CallSound(db, e); }
    forall e | e in d.imports ensures ImportSound(d, e) { assert ImportSound(db, e); }
  }

  /** Deleting file by file is deleting the set of files. */
  lemma DeleteTwice(db: DB, a: set<Id>, b: set<Id>)
    ensures DeleteFiles(DeleteFiles(db, a), b) == DeleteFiles(db, a + b)
  {
    var once, all := DeleteFiles(db, a), DeleteFiles(db, a + b);
    var twice := DeleteFiles(once, b);
    assert twice.files == all.files;
    assert twice.symbols == all.symbols;
    assert twice.chunks == all.chunks;
    KeepCallsTwice(db.calls, once.files.Keys, once.symbols.Keys, all.files.Keys, all.symbols.Keys);
    KeepImportsTwice(db.imports, once.files.Keys, all.files.Keys);
  }

  lemma {:induction false} KeepAllCalls(es: seq<CallEdge>, fs: set<Id>, ss: set<Id>)
    requires forall e :: e in es ==> e.file in fs && e.caller in ss && e.callee in ss
    ensures KeepCalls(es, fs, ss) == es
  {
    if es != [] {
      assert es == es[..|es| - 1] + [es[|es| - 1]];
      KeepAllCalls(es[..|es| - 1], fs, ss);
    }
  }

  lemma {:induction false} KeepAllImports(es: seq<ImportEdge>, fs: set<Id>)
    requires forall e :: e in es ==> e.from in fs && e.to in fs
    ensures KeepImports(es, fs) == es
  {
    if es != [] {
      assert es == es[..|es| - 1] + [es[|es| - 1]];
      KeepAllImports(es[..|es| - 1], fs);
    }
  }

  lemma DeleteNothing(db: DB)
    requires Sound(db)
    ensures DeleteFiles(db, {}) == db
  {
    var d := DeleteFiles(db, {});
    hide KeepCalls, KeepImports;
    assert d.files == db.files && d.symbols == db.symbols && d.chunks == db.chunks;
    assert forall e :: e in db.calls ==> CallSound(db, e);
    assert forall e :: e in db.imports ==> ImportSound(db, e);
    hide UniquePaths, UniqueExternalIds, FilesSound, SymbolsSound, ChunksSound;
    KeepAllCalls(db.calls, d.files.Keys, d.symbols.Keys);
    KeepAllImports(db.imports, d.files.Keys);
  }

  // ---------- Inserts and updates ----------

  function RowOfSymbol(s: Symbol): SymbolRow { SymbolRow(s.repo, s.file, s.data) }

  function RowOfChunk(c: Chunk): ChunkRow { ChunkRow(c.repo, c.file, c.symbol, c.data, None, None) }

  function SymbolRows(symbols: seq<Symbol>): map<Id, SymbolRow> {
    if symbols == [] then map[]
    else
      var s := symbols[|symbols| - 1];
      SymbolRows(symbols[..|symbols| - 1])[s.id := RowOfSymbol(s)]
  }

  function ChunkRows(chunks: seq<Chunk>): map<Id, ChunkRow> {
    if chunks == [] then map[]
    else
      var c := chunks[|chunks| - 1];
      ChunkRows(chunks[..|chunks| - 1])[c.id := RowOfChunk(c)]
  }

  lemma {:induction false} SymbolRowsAre(symbols: seq<Symbol>)
    requires forall i, j :: 0 <= i < j < |symbols| ==> symbols[i].id < symbols[j].id
    ensures forall k :: 0 <= k < |symbols| ==>
              symbols[k].id in SymbolRows(symbols) &&
              SymbolRows(symbols)[symbols[k].id] == RowOfSymbol(symbols[k])
    ensures forall i :: i in SymbolRows(symbols) ==> exists k :: 0 <= k < |symbols| && symbols[k].id == i
  {
    if symbols != [] {
      var n := |symbols| - 1;
      SymbolRowsAre(symbols[..n]);
      assert forall k :: 0 <= k < n ==> symbols[..n][k] == symbols[k];
      var before := SymbolRows(symbols[..n]);
      assert SymbolRows(symbols) == before[symbols[n].id := RowOfSymbol(symbols[n])];
      hide SymbolRows, RowOfSymbol;
      forall i | i in SymbolRows(symbols) ensures exists k :: 0 <= k < |symbols| && symbols[k].id == i {
        if i != symbols[n].id {
          var k :| 0 <= k < n && symbols[..n][k].id == i;
          assert symbols[k].id == i;
        }
      }
    }
  }

  lemma {:induction false} ChunkRowsAre(chunks: seq<Chunk>)
    requires forall i, j :: 0 <= i < j < |chunks| ==> chunks[i].id < chunks[j].id
    ensures forall k :: 0 <= k < |chunks| ==>
              chunks[k].id in ChunkRows(chunks) &&
              ChunkRows(chunks)[chunks[k].id] == RowOfChunk(chunks[k])
    ensures forall i :: i in ChunkRows(chunks) ==> exists k :: 0 <= k < |chunks| && chunks[k].id == i
  {
    if chunks != [] {
      var n := |chunks| - 1;
      ChunkRowsAre(chunks[..n]);
      assert forall k :: 0 <= k < n ==> chunks[..n][k] == chunks[k];
      var before := ChunkRows(chunks[..n]);
      assert ChunkRows(chunks) == before[chunks[n].id := RowOfChunk(chunks[n])];
      hide ChunkRows, RowOfChunk;
      forall i | i in ChunkRows(chunks) ensures exists k :: 0 <= k < |chunks| && chunks[k].id == i {
        if i != chunks[n].id {
          var k :| 0 <= k < n && chunks[..n][k].id == i;
          assert chunks[k].id == i;
        }
      }
    }
  }

  predicate CanInsertRepo(db: DB, id: Id) { id !in db.repos }

  predicate CanInsertFile(db: DB, id: Id, row: FileRow) {
    id !in db.files && row.repo in db.repos && row !in db.files.Values
  }

  predicate CanInsertSymbol(db: DB, s: Symbol) { s.id !in db.symbols && s.file in db.files && s.repo in db.repos }

  predicate CanInsertChunk(db: DB, c: Chunk) {
    c.id !in db.chunks && c.file in db.files && c.symbol in db.symbols && c.repo in db.repos
  }

  predicate CanInsertCall(db: DB, e: CallEdge) {
    e.repo in db.repos && e.caller in db.symbols && e.callee in db.symbols && e.file in db.files
  }

  predicate CanInsertImport(db: DB, e: ImportEdge) {
    e.repo in db.repos && e.from in db.files && e.to in db.files
  }

  /** A column update by one of the workers. */
  datatype ColumnWrite = ColumnWrite(chunk: Id, embedding: Option<VecId>, summary: Option<string>)

  function Overwrite(row: ChunkRow, w: ColumnWrite): ChunkRow {
    row.(embedding := if w.embedding.Some? then w.embedding else row.embedding,
         summary := if w.summary.Some? then w.summary else row.summary)
  }

  /** UPDATE code_chunk: sets the columns given; an id with no row matches nothing and is no error. */
  function UpdateChunk(db: DB, w: ColumnWrite): DB {
    if w.chunk !in db.chunks then db
    else db.(chunks := db.chunks[w.chunk := Overwrite(db.chunks[w.chunk], w)])
  }

  // ---------- Equality up to the columns the workers write ----------

  function Core(c: ChunkRow): ChunkRow { c.(embedding := None, summary := None) }

  /** The column writes the workers have made. */
  type Writes = set<ColumnWrite>

  ghost predicate WroteEmbedding(t: Writes, c: Id, v: Option<VecId>) {
    v.Some? && exists w :: w in t && w.chunk == c && w.embedding == v
  }

  ghost predicate WroteSummary(t: Writes, c: Id, v: Option<string>) {
    v.Some? && exists w :: w in t && w.chunk == c && w.summary == v
  }

  /** The same chunk; its two columns may have been overwritten, each with a value a worker wrote to it. */
  ghost predicate SameChunk(c: Id, a: ChunkRow, b: ChunkRow, t: Writes) {
    && Core(a) == Core(b)
    && (b.embedding == a.embedding || WroteEmbedding(t, c, b.embedding))
    && (b.summary == a.summary || WroteSummary(t, c, b.summary))
  }

  ghost predicate SameChunks(a: map<Id, ChunkRow>, b: map<Id, ChunkRow>, t: Writes) {
    a.Keys == b.Keys && forall c :: c in a ==> SameChunk(c, a[c], b[c], t)
  }

  /** b is a after some of the column writes. */
  ghost predicate Drift(a: DB, b: DB, t: Writes) {
    && a.repos == b.repos && a.files == b.files && a.symbols == b.symbols
    && a.calls == b.calls && a.imports == b.imports
    && SameChunks(a.chunks, b.chunks, t)
  }

  lemma DriftTrans(a: DB, b: DB, c: DB, t: Writes, t': Writes)
    requires Drift(a, b, t) && Drift(b, c, t') && t <= t'
    ensures Drift(a, c, t')
  {
  }

  lemma UpdateDrifts(db: DB, w: ColumnWrite, t: Writes)
    requires w in t
    ensures Drift(db, UpdateChunk(db, w), t)
  {
  }

  lemma DriftKeepsSound(a: DB, b: DB, t: Writes)
    requires Drift(a, b, t) && Sound(a)
    ensures Sound(b)
  {
    forall c | c in b.chunks
      ensures b.chunks[c].file in b.files && b.chunks[c].repo == b.files[b.chunks[c].file].repo
      ensures b.chunks[c].symbol in b.symbols && b.symbols[b.chunks[c].symbol].file == b.chunks[c].file
    {
      assert Core(a.chunks[c]) == Core(b.chunks[c]);
    }
  }

  lemma DriftDelete(a: DB, b: DB, t: Writes, gone: set<Id>)
    requires Drift(a, b, t)
    ensures Drift(DeleteFiles(a, gone), DeleteFiles(b, gone), t)
  {
    forall c | c in a.chunks ensures Core(a.chunks[c]) == Core(b.chunks[c]) {
    }
  }

  // ---------- Growth ----------

  ghost predicate FilesGrow(a: DB, b: DB, r: Id, lo: Id) {
    && (forall f :: f in a.files ==> f in b.files && b.files[f] == a.files[f])
    && (forall f :: f in b.files && f !in a.files ==> f >= lo && b.files[f].repo == r)
  }

  ghost predicate SymbolsGrow(a: DB, b: DB, r: Id, lo: Id) {
    && (forall s :: s in a.symbols ==> s in b.symbols && b.symbols[s] == a.symbols[s])
    && (forall s :: s in b.symbols && s !in a.symbols ==> s >= lo && b.symbols[s].file >= lo && b.symbols[s].repo == r)
  }

  ghost predicate ChunksGrow(a: DB, b: DB, r: Id, lo: Id, t: Writes) {
    && (forall c :: c in a.chunks ==> c in b.chunks && SameChunk(c, a.chunks[c], b.chunks[c], t))
    && (forall c :: c in b.chunks && c !in a.chunks ==> c >= lo && b.chunks[c].file >= lo && b.chunks[c].repo == r)
  }

  ghost predicate EdgesGrow(a: DB, b: DB, r: Id) {
    && a.calls <= b.calls && (forall k :: |a.calls| <= k < |b.calls| ==> b.calls[k].repo == r)
    && a.imports <= b.imports && (forall k :: |a.imports| <= k < |b.imports| ==> b.imports[k].repo == r)
  }

  /** b is a with rows added for new files of repository r, all with ids from lo on. */
  ghost predicate Grows(a: DB, b: DB, r: Id, lo: Id, t: Writes) {
    && a.repos == b.repos
    && FilesGrow(a, b, r, lo) && SymbolsGrow(a, b, r, lo) && ChunksGrow(a, b, r, lo, t) && EdgesGrow(a, b, r)
  }

  lemma DriftGrows(a: DB, b: DB, r: Id, lo: Id, t: Writes)
    requires Drift(a, b, t)
    ensures Grows(a, b, r, lo, t)
  {
  }

  lemma GrowsTrans(a: DB, b: DB, c: DB, r: Id, lo: Id, t: Writes, t': Writes)
    requires Grows(a, b, r, lo, t) && Grows(b, c, r, lo, t') && t <= t'
    ensures Grows(a, c, r, lo, t')
  {
    assert forall k :: 0 <= k < |a.calls| ==> a.calls[k] == b.calls[k] == c.calls[k];
    assert forall k :: 0 <= k < |a.imports| ==> a.imports[k] == b.imports[k] == c.imports[k];
    assert forall k :: |a.calls| <= k < |b.calls| ==> c.calls[k] == b.calls[k];
    assert forall k :: |a.imports| <= k < |b.imports| ==> c.imports[k] == b.imports[k];
    forall x | x in c.chunks && x !in a.chunks ensures x >= lo && c.chunks[x].file >= lo && c.chunks[x].repo == r {
      if x in b.chunks {
        assert Core(b.chunks[x]) == Core(c.chunks[x]);
      }
    }
  }
}
