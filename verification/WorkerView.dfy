/** The tables of the pipeline as the workers' transition system sees them: each write of the stores is one of its
    steps. */
module WorkerView {
  import opened Base
  import opened Chunker
  import opened Tables
  import opened Backends
  import opened Discards
  import Isolation
  import W = Workers

  function View(db: DB): map<Id, W.Row> {
    map c | c in db.chunks :: W.Row(db.chunks[c].file, db.chunks[c].embedding, db.chunks[c].summary)
  }

  /** UPDATE code_chunk by either worker. */
  lemma WriteIsStep(db: DB, c: Id, v: VecId, text: string)
    ensures View(UpdateChunk(db, ColumnWrite(c, Some(v), None))) == W.SetEmbedding(View(db), c, v)
    ensures View(UpdateChunk(db, ColumnWrite(c, None, Some(text)))) == W.SetSummary(View(db), c, text)
  {
  }

  /** The cascade removes exactly the chunks of the deleted files. */
  lemma DeleteIsStep(db: DB, files: set<Id>)
    requires Sound(db)
    ensures View(DeleteFiles(db, files)) == W.RowsLeft(View(db), files)
  {
    hide KeepCalls, KeepImports;
    var d := DeleteFiles(db, files);
    forall c ensures c in View(d) <==> c in W.RowsLeft(View(db), files) {
      if c in db.chunks { assert db.symbols[db.chunks[c].symbol].file == db.chunks[c].file; }
    }
  }

  /** The ids collected for cleanup are the embedding ids of the chunks of the files about to be deleted. */
  lemma ListIsStep(db: DB, scope: ChunkScope, ids: seq<VecId>)
    requires ChunksSound(db) && ListsVectors(ids, db, ChunksIn(db, scope))
    ensures Elems(ids) == W.Vectors(View(db), ScopeIds(db, scope))
  {
    ScopeOfFiles(db, scope);
    var files := ScopeIds(db, scope);
    forall v ensures v in Elems(ids) <==> v in W.Vectors(View(db), files) {
      if v in ids {
        var c :| c in db.chunks && c in ChunksIn(db, scope) && db.chunks[c].embedding == Some(v);
        assert c in View(db) && View(db)[c].file in files;
      }
      if v in W.Vectors(View(db), files) {
        var c :| c in View(db) && View(db)[c].file in files && View(db)[c].embedding == Some(v);
        assert c in ChunksIn(db, scope);
      }
    }
  }

  /** Inserted chunks start without embedding and summary. */
  lemma InsertIsStep(db: DB, chunks: seq<Chunk>, file: Id, next: Id, s: W.World, rows: map<Id, Id>)
    requires s.chunks == View(db) && s.nextChunk <= next && file !in s.cleaned
    requires forall i, j :: 0 <= i < j < |chunks| ==> chunks[i].id < chunks[j].id
    requires forall k :: 0 <= k < |chunks| ==> s.nextChunk <= chunks[k].id < next && chunks[k].file == file
    requires rows.Keys == ChunkRows(chunks).Keys && forall c :: c in rows ==> rows[c] == file
    ensures W.Enabled(s, W.Insert(rows, next))
    ensures W.Apply(s, W.Insert(rows, next)).chunks == View(db.(chunks := db.chunks + ChunkRows(chunks)))
  {
    RowsAreNew(chunks, file, s.nextChunk, next);
    InsertedView(db, chunks, file, rows);
    InsertStepIs(s, rows, next);
    hide *;
  }

  lemma InsertStepIs(s: W.World, rows: map<Id, Id>, next: Id)
    requires s.nextChunk <= next && forall c :: c in rows ==> s.nextChunk <= c < next && rows[c] !in s.cleaned
    ensures W.Enabled(s, W.Insert(rows, next))
    ensures W.Apply(s, W.Insert(rows, next)).chunks == s.chunks + Fresh(rows)
  {
  }

  function Fresh(rows: map<Id, Id>): map<Id, W.Row> { map c | c in rows :: W.Row(rows[c], None, None) }

  lemma InsertedView(db: DB, chunks: seq<Chunk>, file: Id, rows: map<Id, Id>)
    requires rows.Keys == ChunkRows(chunks).Keys && forall c :: c in rows ==> rows[c] == file
    requires forall c :: c in ChunkRows(chunks) ==>
              ChunkRows(chunks)[c].file == file && ChunkRows(chunks)[c].embedding.None? &&
                  ChunkRows(chunks)[c].summary.None?
    ensures View(db) + Fresh(rows) == View(db.(chunks := db.chunks + ChunkRows(chunks)))
  {
    hide ChunkRows;
    assert forall c :: c in rows <==> c in ChunkRows(chunks);
  }

  lemma RowsAreNew(chunks: seq<Chunk>, file: Id, lo: Id, hi: Id)
    requires forall i, j :: 0 <= i < j < |chunks| ==> chunks[i].id < chunks[j].id
    requires forall k :: 0 <= k < |chunks| ==> lo <= chunks[k].id < hi && chunks[k].file == file
    ensures forall c :: c in ChunkRows(chunks) ==>
              lo <= c < hi && ChunkRows(chunks)[c].file == file && ChunkRows(chunks)[c].embedding.None? &&
                  ChunkRows(chunks)[c].summary.None?
  {
    ChunkRowsAre(chunks);
    hide ChunkRows;
    forall c | c in ChunkRows(chunks)
      ensures lo <= c < hi && ChunkRows(chunks)[c].file == file && ChunkRows(chunks)[c].embedding.None? &&
          ChunkRows(chunks)[c].summary.None?
    {
      var k :| 0 <= k < |chunks| && chunks[k].id == c;
      assert ChunkRows(chunks)[chunks[k].id] == RowOfChunk(chunks[k]);
    }
  }

  /** A chunk event goes to both queues of the exchange. */
  lemma PublishIsStep(s: W.World, published: seq<Id>, c: Id)
    requires c in s.chunks && s.published == multiset(published)
    ensures W.Enabled(s, W.Publish(c))
    ensures var s' := W.Apply(s, W.Publish(c));
            && s'.published == multiset(published + [c]) && s'.chunks == s.chunks
            && s'.embs.queue == s.embs.queue + [c] && s'.sums.queue == s.sums.queue + [c]
  {
  }

  /** One embedding id, one chunk: the same in both views. */
  lemma InjectiveIs(db: DB)
    ensures W.Injective(View(db)) <==> Isolation.InjectiveEmbeddings(db)
  {
    assert forall c: Id, v: VecId :: W.Refers(View(db), c, v) <==> c in db.chunks && db.chunks[c].embedding == Some(v);
    hide View, W.Refers;
    if W.Injective(View(db)) {
      forall c, d | c in db.chunks && d in db.chunks && db.chunks[c].embedding.Some? &&
          db.chunks[c].embedding == db.chunks[d].embedding ensures c == d {
        assert W.Refers(View(db), c, db.chunks[c].embedding.value);
        assert W.Refers(View(db), d, db.chunks[c].embedding.value);
      }
    }
  }
}
