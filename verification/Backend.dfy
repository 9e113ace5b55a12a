/** The stores the pipeline talks to, as one object: the tables, the vector index and the chunk event
    exchange. Every call can fail, and before every call the workers may have written to chunk columns. */
module Backends {
  import opened Base
  import opened Paths
  import opened Symbols
  import opened Chunker
  import opened Calls
  import opened Imports
  import opened Tables

  /** Done; Unavailable: an injected failure, without effect; Violation: a constraint refused the write. */
  datatype CallResult = Done | Unavailable | Violation

  datatype File = File(id: Id, path: StoredPath)

  method Enumerate(s: set<Id>) returns (q: seq<Id>)
    ensures Distinct(q)
    ensures forall x :: x in q <==> x in s
  {
    q := [];
    var rest := s;
    while rest != {}
      invariant Distinct(q) && (forall x :: x in q || x in rest <==> x in s) && (forall x :: x in q ==> x !in rest)
      decreases rest
    {
      var x :| x in rest;
      q := q + [x];
      rest := rest - {x};
    }
  }

  ghost predicate ListsSymbols(rows: seq<Symbol>, db: DB, repo: Id) {
    && (forall k :: 0 <= k < |rows| ==>
        rows[k].id in db.symbols && RowOfSymbol(rows[k]) == db.symbols[rows[k].id] && rows[k].repo == repo)
    && (forall s :: s in db.symbols && db.symbols[s].repo == repo ==> exists k :: 0 <= k < |rows| && rows[k].id == s)
  }

  ghost predicate ListsFiles(rows: seq<File>, db: DB, repo: Id) {
    && (forall k :: 0 <= k < |rows| ==> rows[k].id in db.files && db.files[rows[k].id] == FileRow(repo, rows[k].path))
    && (forall f :: f in db.files && db.files[f].repo == repo ==> exists k :: 0 <= k < |rows| && rows[k].id == f)
  }

  /** The embedding ids of the chunks in scope, in the order of the rows; chunks never embedded give none. */
  ghost predicate ListsVectors(ids: seq<VecId>, db: DB, scope: set<Id>) {
    forall v :: v in ids <==> exists c :: c in db.chunks && c in scope && db.chunks[c].embedding == Some(v)
  }

  /** The statements of the insert transaction: None when one of them is refused. */
  method StageSymbols(db: DB, symbols: seq<Symbol>) returns (staged: Option<map<Id, SymbolRow>>)
    ensures staged.Some? ==> staged.value == SymbolRows(symbols)
    ensures staged.None? ==> !(forall i, j :: 0 <= i < j < |symbols| ==> symbols[i].id < symbols[j].id) ||
                             exists k :: 0 <= k < |symbols| && !CanInsertSymbol(db, symbols[k])
  {
    var rows: map<Id, SymbolRow> := map[];
    for i := 0 to |symbols|
      invariant rows == SymbolRows(symbols[..i])
      invariant forall x :: x in rows ==> exists k :: 0 <= k < i && symbols[k].id == x
    {
      TakeNext(symbols, i);
      if !CanInsertSymbol(db, symbols[i]) { return None; }
      if symbols[i].id in rows {
        var k :| 0 <= k < i && symbols[k].id == symbols[i].id;
        return None;
      }
      rows := rows[symbols[i].id := RowOfSymbol(symbols[i])];
    }
    assert symbols[..|symbols|] == symbols;
    staged := Some(rows);
  }

  /** The statements of the insert transaction: None when one of them is refused. */
  method StageChunks(db: DB, chunks: seq<Chunk>) returns (staged: Option<map<Id, ChunkRow>>)
    ensures staged.Some? ==> staged.value == ChunkRows(chunks)
    ensures staged.None? ==> !(forall i, j :: 0 <= i < j < |chunks| ==> chunks[i].id < chunks[j].id) ||
                             exists k :: 0 <= k < |chunks| && !CanInsertChunk(db, chunks[k])
  {
    var rows: map<Id, ChunkRow> := map[];
    for i := 0 to |chunks|
      invariant rows == ChunkRows(chunks[..i])
      invariant forall x :: x in rows ==> exists k :: 0 <= k < i && chunks[k].id == x
    {
      TakeNext(chunks, i);
      if !CanInsertChunk(db, chunks[i]) { return None; }
      if chunks[i].id in rows {
        var k :| 0 <= k < i && chunks[k].id == chunks[i].id;
        return None;
      }
      rows := rows[chunks[i].id := RowOfChunk(chunks[i])];
    }
    assert chunks[..|chunks|] == chunks;
    staged := Some(rows);
  }

  class Backend {
    var db: DB
    var vectors: set<VecId>
    var published: seq<Id>

    /** How many more calls succeed before every call fails. Any value stops a run after some prefix
        of its writes, whether by an error or by a crash. */
    var budget: nat

    /** What the workers write before each coming call. */
    var env: seq<seq<ColumnWrite>>

    /** The column writes made so far. */
    ghost var written: Writes

    /** The id batches of the vector deletes that succeeded. */
    ghost var deletes: seq<seq<VecId>>

    constructor (db: DB, vectors: set<VecId>, budget: nat, env: seq<seq<ColumnWrite>>)
      ensures this.db == db && this.vectors == vectors && this.published == []
      ensures this.budget == budget && this.env == env && this.written == {} && this.deletes == []
    {
      this.db, this.vectors, this.published := db, vectors, [];
      this.budget, this.env, this.written, this.deletes := budget, env, {}, [];
    }

    method Tick() returns (ok: bool)
      modifies this
      ensures vectors == old(vectors) && published == old(published) && deletes == old(deletes) &&
          old(written) <= written && Drift(old(db), db, written)
      ensures ok <==> old(budget) > 0
      ensures !ok ==> budget == 0
    {
      if |env| > 0 {
        var writes := env[0];
        for i := 0 to |writes|
          invariant vectors == old(vectors) && published == old(published) && deletes == old(deletes) &&
              old(written) <= written && Drift(old(db), db, written) && budget == old(budget) && |env| > 0
        {
          written := written + {writes[i]};
          UpdateDrifts(db, writes[i], written);
          DriftTrans(old(db), db, UpdateChunk(db, writes[i]), written, written);
          db := UpdateChunk(db, writes[i]);
        }
        env := env[1..];
      }
      ok := budget > 0;
      if ok {
        budget := budget - 1;
      }
    }

    // ---------- repository ----------

    method GetRepositoryByExternalID(ext: string) returns (r: CallResult, existing: Option<Id>)
      modifies this
      ensures r.Unavailable? ==> budget == 0
      ensures vectors == old(vectors) && published == old(published) && deletes == old(deletes) &&
          old(written) <= written && Drift(old(db), db, written) && !r.Violation?
      ensures r.Done? && existing.Some? ==> existing.value in db.repos && db.repos[existing.value].ext == ext
      ensures r.Done? && existing.None? ==> forall i :: i in db.repos ==> db.repos[i].ext != ext
    {
      var ok := Tick();
      if !ok { return Unavailable, None; }
      if id :| id in db.repos && db.repos[id].ext == ext {
        return Done, Some(id);
      }
      return Done, None;
    }

    method InsertRepository(id: Id, row: RepoRow) returns (r: CallResult)
      modifies this
      ensures r.Unavailable? ==> budget == 0
      ensures vectors == old(vectors) && published == old(published) && deletes == old(deletes) &&
          old(written) <= written
      ensures r.Done? ==> Drift(old(db).(repos := old(db).repos[id := row]), db, written)
      ensures !r.Done? ==> Drift(old(db), db, written)
      ensures r.Violation? ==> !CanInsertRepo(old(db), id)
    {
      var ok := Tick();
      if !ok { return Unavailable; }
      if !CanInsertRepo(db, id) { return Violation; }
      db := db.(repos := db.repos[id := row]);
      r := Done;
    }

    /** Refreshes the mutable fields; organization and external id are not among them. */
    method UpdateRepository(id: Id, row: RepoRow) returns (r: CallResult)
      modifies this
      ensures r.Unavailable? ==> budget == 0
      ensures vectors == old(vectors) && published == old(published) && deletes == old(deletes) &&
          old(written) <= written && !r.Violation?
      ensures r.Done? ==> Drift(UpdatedRepo(old(db), id, row), db, written)
      ensures r.Done? && id in old(db).repos ==>
                var was := old(db).repos[id];
                db.repos == old(db).repos[id := RepoRow(was.org, was.ext, row.name, row.branch, row.url, row.storage,
                                                        row.provider)]
      ensures !r.Done? ==> Drift(old(db), db, written)
    {
      var ok := Tick();
      if !ok { return Unavailable; }
      db := UpdatedRepo(db, id, row);
      r := Done;
    }

    // ---------- file ----------

    method GetFilesByRepositoryID(repo: Id) returns (r: CallResult, rows: seq<File>)
      modifies this
      ensures r.Unavailable? ==> budget == 0
      ensures vectors == old(vectors) && published == old(published) && deletes == old(deletes) &&
          old(written) <= written && Drift(old(db), db, written) && !r.Violation?
      ensures r.Done? ==> ListsFiles(rows, db, repo)
    {
      rows := [];
      var ok := Tick();
      if !ok { return Unavailable, rows; }
      var ids := Enumerate(set f | f in db.files && db.files[f].repo == repo);
      for i := 0 to |ids|
        invariant |rows| == i && forall k :: 0 <= k < i ==>
            ids[k] in db.files && rows[k].id == ids[k] && rows[k].path == db.files[ids[k]].path
      {
        assert ids[i] in ids;
        rows := rows + [File(ids[i], db.files[ids[i]].path)];
      }
      forall k | 0 <= k < |rows| ensures rows[k].id in db.files && db.files[rows[k].id] == FileRow(repo, rows[k].path) {
        assert ids[k] in ids;
      }
      forall f | f in db.files && db.files[f].repo == repo ensures exists k :: 0 <= k < |rows| && rows[k].id == f {
        assert f in ids;
        var k :| 0 <= k < |ids| && ids[k] == f;
        assert rows[k].id == f;
      }
      r := Done;
    }

    method InsertFile(id: Id, row: FileRow) returns (r: CallResult)
      modifies this
      ensures r.Unavailable? ==> budget == 0
      ensures vectors == old(vectors) && published == old(published) && deletes == old(deletes) &&
          old(written) <= written
      ensures r.Done? ==> Drift(old(db).(files := old(db).files[id := row]), db, written)
      ensures !r.Done? ==> Drift(old(db), db, written)
      ensures r.Violation? ==> !CanInsertFile(old(db), id, row)
      ensures r.Violation? ==> || id in old(db).files || row.repo !in old(db).repos
                               || exists f :: f in old(db).files && old(db).files[f] == row
    {
      var ok := Tick();
      if !ok { return Unavailable; }
      if !CanInsertFile(db, id, row) { return Violation; }
      db := db.(files := db.files[id := row]);
      r := Done;
    }

    method DeleteFileByID(id: Id) returns (r: CallResult)
      modifies this
      ensures r.Unavailable? ==> budget == 0
      ensures vectors == old(vectors) && published == old(published) && deletes == old(deletes) &&
          old(written) <= written && !r.Violation?
      ensures r.Done? ==> Drift(DeleteFiles(old(db), {id}), db, written)
      ensures !r.Done? ==> Drift(old(db), db, written)
    {
      var ok := Tick();
      if !ok { return Unavailable; }
      DriftDelete(old(db), db, written, {id});
      db := DeleteFiles(db, {id});
      r := Done;
    }

    method DeleteFilesByRepositoryID(repo: Id) returns (r: CallResult)
      modifies this
      ensures r.Unavailable? ==> budget == 0
      ensures vectors == old(vectors) && published == old(published) && deletes == old(deletes) &&
          old(written) <= written && !r.Violation?
      ensures r.Done? ==> Drift(DeleteFiles(old(db), FilesOf(old(db), repo)), db, written)
      ensures !r.Done? ==> Drift(old(db), db, written)
    {
      var ok := Tick();
      if !ok { return Unavailable; }
      DriftDelete(old(db), db, written, FilesOf(old(db), repo));
      db := DeleteFiles(db, FilesOf(db, repo));
      r := Done;
    }

    // ---------- symbol ----------

    /** One transaction: all rows or none. */
    method InsertSymbols(symbols: seq<Symbol>) returns (r: CallResult)
      modifies this
      ensures r.Unavailable? ==> budget == 0
      ensures vectors == old(vectors) && published == old(published) && deletes == old(deletes) &&
          old(written) <= written
      ensures r.Done? ==> Drift(old(db).(symbols := old(db).symbols + SymbolRows(symbols)), db, written)
      ensures !r.Done? ==> Drift(old(db), db, written)
      ensures r.Violation? ==> !(forall i, j :: 0 <= i < j < |symbols| ==> symbols[i].id < symbols[j].id) ||
                               exists k :: 0 <= k < |symbols| && !CanInsertSymbol(old(db), symbols[k])
    {
      var ok := Tick();
      if !ok { return Unavailable; }
      var rows := StageSymbols(db, symbols);
      if rows.None? { return Violation; }
      db := db.(symbols := db.symbols + rows.value);
      r := Done;
    }

    method GetSymbolsByRepositoryID(repo: Id) returns (r: CallResult, rows: seq<Symbol>)
      modifies this
      ensures r.Unavailable? ==> budget == 0
      ensures vectors == old(vectors) && published == old(published) && deletes == old(deletes) &&
          old(written) <= written && Drift(old(db), db, written) && !r.Violation?
      ensures r.Done? ==> ListsSymbols(rows, db, repo)
    {
      rows := [];
      var ok := Tick();
      if !ok { return Unavailable, rows; }
      var ids := Enumerate(set s | s in db.symbols && db.symbols[s].repo == repo);
      for i := 0 to |ids|
        invariant |rows| == i && forall k :: 0 <= k < i ==>
            ids[k] in db.symbols && rows[k].id == ids[k] && RowOfSymbol(rows[k]) == db.symbols[ids[k]]
      {
        assert ids[i] in ids;
        var row := db.symbols[ids[i]];
        rows := rows + [Symbol(ids[i], row.file, row.repo, row.data)];
      }
      forall k | 0 <= k < |rows|
        ensures rows[k].id in db.symbols && RowOfSymbol(rows[k]) == db.symbols[rows[k].id] && rows[k].repo == repo
      {
        assert ids[k] in ids;
      }
      forall s | s in db.symbols && db.symbols[s].repo == repo ensures exists k :: 0 <= k < |rows| && rows[k].id == s {
        assert s in ids;
        var k :| 0 <= k < |ids| && ids[k] == s;
        assert rows[k].id == s;
      }
      r := Done;
    }

    // ---------- edges ----------

    method InsertCallEdges(edges: seq<CallEdge>) returns (r: CallResult)
      modifies this
      ensures r.Unavailable? ==> budget == 0
      ensures vectors == old(vectors) && published == old(published) && deletes == old(deletes) &&
          old(written) <= written
      ensures r.Done? ==> Drift(old(db).(calls := old(db).calls + edges), db, written)
      ensures !r.Done? ==> Drift(old(db), db, written)
      ensures r.Violation? ==> exists e :: e in edges && !CanInsertCall(old(db), e)
    {
      var ok := Tick();
      if !ok { return Unavailable; }
      for i := 0 to |edges| {
        if !CanInsertCall(db, edges[i]) {
          assert edges[i] in edges;
          return Violation;
        }
      }
      db := db.(calls := db.calls + edges);
      r := Done;
    }

    method InsertImportEdges(edges: seq<ImportEdge>) returns (r: CallResult)
      modifies this
      ensures r.Unavailable? ==> budget == 0
      ensures vectors == old(vectors) && published == old(published) && deletes == old(deletes) &&
          old(written) <= written
      ensures r.Done? ==> Drift(old(db).(imports := old(db).imports + edges), db, written)
      ensures !r.Done? ==> Drift(old(db), db, written)
      ensures r.Violation? ==> exists e :: e in edges && !CanInsertImport(old(db), e)
    {
      var ok := Tick();
      if !ok { return Unavailable; }
      for i := 0 to |edges| {
        if !CanInsertImport(db, edges[i]) {
          assert edges[i] in edges;
          return Violation;
        }
      }
      db := db.(imports := db.imports + edges);
      r := Done;
    }

    // ---------- code_chunk ----------

    /** One transaction: all rows or none. */
    method InsertChunks(chunks: seq<Chunk>) returns (r: CallResult)
      modifies this
      ensures r.Unavailable? ==> budget == 0
      ensures vectors == old(vectors) && published == old(published) && deletes == old(deletes) &&
          old(written) <= written
      ensures r.Done? ==> Drift(old(db).(chunks := old(db).chunks + ChunkRows(chunks)), db, written)
      ensures !r.Done? ==> Drift(old(db), db, written)
      ensures r.Violation? ==> !(forall i, j :: 0 <= i < j < |chunks| ==> chunks[i].id < chunks[j].id) ||
                               exists k :: 0 <= k < |chunks| && !CanInsertChunk(old(db), chunks[k])
    {
      var ok := Tick();
      if !ok { return Unavailable; }
      var rows := StageChunks(db, chunks);
      if rows.None? { return Violation; }
      db := db.(chunks := db.chunks + rows.value);
      r := Done;
    }

    /** The embedding ids of the chunk rows of a file, or of a whole repository. */
    method GetEmbeddingIDs(scope: ChunkScope) returns (r: CallResult, ids: seq<VecId>)
      modifies this
      ensures r.Unavailable? ==> budget == 0
      ensures vectors == old(vectors) && published == old(published) && deletes == old(deletes) &&
          old(written) <= written && Drift(old(db), db, written) && !r.Violation?
      ensures r.Done? ==> ListsVectors(ids, db, ChunksIn(db, scope))
    {
      ids := [];
      var ok := Tick();
      if !ok { return Unavailable, ids; }
      var chunks := Enumerate(ChunksIn(db, scope));
      for i := 0 to |chunks|
        invariant forall v :: v in ids <==>
            exists k :: 0 <= k < i && chunks[k] in db.chunks && db.chunks[chunks[k]].embedding == Some(v)
      {
        assert chunks[i] in chunks;
        if db.chunks[chunks[i]].embedding.Some? {
          ids := ids + [db.chunks[chunks[i]].embedding.value];
        }
      }
      forall v ensures v in ids <==>
          exists c :: c in db.chunks && c in ChunksIn(db, scope) && db.chunks[c].embedding == Some(v)
      {
        if v in ids {
          var k :| 0 <= k < |chunks| && chunks[k] in db.chunks && db.chunks[chunks[k]].embedding == Some(v);
          assert chunks[k] in chunks;
        }
        if c :| c in db.chunks && c in ChunksIn(db, scope) && db.chunks[c].embedding == Some(v) {
          assert c in chunks;
          var k :| 0 <= k < |chunks| && chunks[k] == c;
        }
      }
      r := Done;
    }

    // ---------- vectors and events ----------

    method DeleteVectors(ids: seq<VecId>) returns (r: CallResult)
      modifies this
      ensures r.Unavailable? ==> budget == 0
      ensures old(written) <= written && published == old(published) && Drift(old(db), db, written) && !r.Violation?
      ensures r.Done? ==> vectors == old(vectors) - Elems(ids) && deletes == old(deletes) + [ids]
      ensures !r.Done? ==> vectors == old(vectors) && deletes == old(deletes)
    {
      var ok := Tick();
      if !ok { return Unavailable; }
      vectors := vectors - (set v | v in ids);
      deletes := deletes + [ids];
      r := Done;
    }

    method PublishEmbedding(chunk: Id) returns (r: CallResult)
      modifies this
      ensures r.Unavailable? ==> budget == 0
      ensures old(written) <= written && vectors == old(vectors) && deletes == old(deletes)
      ensures Drift(old(db), db, written) && !r.Violation?
      ensures published == if r.Done? then old(published) + [chunk] else old(published)
    {
      var ok := Tick();
      if !ok { return Unavailable; }
      published := published + [chunk];
      r := Done;
    }
  }

  function UpdatedRepo(db: DB, id: Id, row: RepoRow): DB {
    if id !in db.repos then db
    else db.(repos := db.repos[id := row.(org := db.repos[id].org, ext := db.repos[id].ext)])
  }

  function FilesOf(db: DB, repo: Id): set<Id> { set f | f in db.files && db.files[f].repo == repo }

  datatype ChunkScope = OfFile(file: Id) | OfRepository(repo: Id)

  function ChunksIn(db: DB, scope: ChunkScope): set<Id> {
    match scope
    case OfFile(file) => set c | c in db.chunks && db.chunks[c].file == file
    case OfRepository(repo) => set c | c in db.chunks && db.chunks[c].repo == repo
  }
}
