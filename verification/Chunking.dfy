/** Chunking the files of a run and announcing every chunk. */
module Chunking {
  import opened Base
  import opened Paths
  import opened SourceTree
  import opened Symbols
  import opened Chunker
  import opened Tables
  import opened Backends
  import opened Index
  import opened FileRows
  import opened Rebuild
  import C = Calls
  import I = Imports

  ghost predicate SymbolsHere(b: DB, symbols: seq<Symbol>, repo: Id, file: Id) {
    && file in b.files && b.files[file].repo == repo && repo in b.repos
    && forall k :: 0 <= k < |symbols| ==> symbols[k].id in b.symbols && b.symbols[symbols[k].id].file == file
  }

  function WithChunks(b: DB, chunks: seq<Chunk>): DB { b.(chunks := b.chunks + ChunkRows(chunks)) }

  lemma CanInsertMade(b: DB, chunks: seq<Chunk>, plan: seq<Planned>, symbols: seq<Symbol>, repo: Id, file: Id, lo: Id,
                      hi: Id)
    requires SymbolsHere(b, symbols, repo, file) && Below(b, lo)
    requires MadeFrom(chunks, plan, symbols, repo, file) && ChunksDrawn(chunks, lo, hi)
    ensures forall k :: 0 <= k < |chunks| ==> CanInsertChunk(b, chunks[k])
    ensures forall i, j :: 0 <= i < j < |chunks| ==> chunks[i].id < chunks[j].id
    ensures lo <= hi
  {
  }

  lemma NoChunks(b: DB, t: Writes)
    ensures Drift(WithChunks(b, []), b, t)
  {
    assert b.chunks + map[] == b.chunks;
  }

  method ChunkFile(b: Backend, ids: IdSource, repo: Id, file: Id, src: SourceFile, fileSymbols: seq<Symbol>)
    returns (out: Outcome, chunks: seq<Chunk>)
    requires Below(b.db, ids.next) && SymbolsHere(b.db, fileSymbols, repo, file) && Datas(fileSymbols) == SymbolsOf(src)
    modifies b, ids
    ensures b.vectors == old(b.vectors) && b.published == old(b.published) && b.deletes == old(b.deletes) &&
        old(b.written) <= b.written && old(ids.next) <= ids.next
    ensures out == Success || (out == Failed(StoreDown) && b.budget == 0) || (out == Failed(ParseFailed) && !src.parses)
    ensures out.Success? ==> src.parses && MadeFrom(chunks, ChunksOf(src), fileSymbols, repo, file)
    ensures out.Success? ==> ChunksDrawn(chunks, old(ids.next), ids.next)
    ensures out.Success? ==> Drift(WithChunks(old(b.db), chunks), b.db, b.written)
    ensures !out.Success? ==> Drift(old(b.db), b.db, b.written)
  {
    assert ChunksOf(src) == PlanOf(RawChunks(src), SymbolsOf(src));
    hide *;
    chunks := [];
    NoChunks(b.db, b.written);
    DriftSelf(b.db, b.written);
    var raw := Build(src);
    if raw.None? {
      return Failed(ParseFailed), chunks;
    }
    ghost var lo := ids.next;
    chunks := Assemble(ids, repo, file, raw.value, fileSymbols);
    CanInsertMade(b.db, chunks, ChunksOf(src), fileSymbols, repo, file, lo, ids.next);
    out := Success;
    if |chunks| == 0 {
      return;
    }
    var r := b.InsertChunks(chunks);
    out := FromCall(r);
  }

  /** Announces the chunks one after the other, each once. */
  method PublishAll(b: Backend, chunks: seq<Chunk>) returns (out: Outcome)
    modifies b
    ensures b.vectors == old(b.vectors) && b.deletes == old(b.deletes) && old(b.written) <= b.written
    ensures Drift(old(b.db), b.db, b.written)
    ensures out == Success || (out == Failed(StoreDown) && b.budget == 0)
    ensures old(b.published) <= b.published && b.published[|old(b.published)|..] <= ChunkIds(chunks)
    ensures out.Success? ==> b.published == old(b.published) + ChunkIds(chunks)
  {
    out := Success;
    DriftSelf(b.db, b.written);
    ghost var all := ChunkIds(chunks);
    for i := 0 to |chunks|
      invariant b.vectors == old(b.vectors) && b.deletes == old(b.deletes) && old(b.written) <= b.written
      invariant Drift(old(b.db), b.db, b.written) && out == Success
      invariant b.published == old(b.published) + all[..i]
    {
      hide Drift;
      ghost var before, t := b.db, b.written;
      var r := b.PublishEmbedding(chunks[i].id);
      DriftTrans(old(b.db), before, b.db, t, b.written);
      assert all[..i + 1] == all[..i] + [chunks[i].id];
      out := FromCall(r);
      if !r.Done? { return; }
    }
  }

  // ---------- One more file chunked ----------

  lemma ChunkRowsOf(chunks: seq<Chunk>, plan: seq<Planned>, symbols: seq<Symbol>, repo: Id, file: Id, lo: Id, hi: Id)
    requires MadeFrom(chunks, plan, symbols, repo, file) && ChunksDrawn(chunks, lo, hi)
    ensures forall c :: c in ChunkRows(chunks) ==>
              && lo <= c < hi && ChunkRows(chunks)[c].repo == repo && ChunkRows(chunks)[c].file == file
              && (exists k :: 0 <= k < |symbols| && symbols[k].id == ChunkRows(chunks)[c].symbol)
  {
    ChunkRowsAre(chunks);
    forall c | c in ChunkRows(chunks)
      ensures lo <= c < hi && ChunkRows(chunks)[c].repo == repo && ChunkRows(chunks)[c].file == file
      ensures exists k :: 0 <= k < |symbols| && symbols[k].id == ChunkRows(chunks)[c].symbol
    {
      var i :| 0 <= i < |chunks| && chunks[i].id == c;
      assert symbols[plan[i].sym].id == chunks[i].symbol;
    }
  }

  lemma ChunksFit(b: DB, rows: map<Id, ChunkRow>, symbols: seq<Symbol>, repo: Id, file: Id, lo: Id, hi: Id)
    requires Sound(b) && Below(b, lo) && SymbolsHere(b, symbols, repo, file) && lo <= hi
    requires forall c :: c in rows ==> lo <= c < hi && rows[c].repo == repo && rows[c].file == file &&
                                       exists k :: 0 <= k < |symbols| && symbols[k].id == rows[c].symbol
    ensures Sound(b.(chunks := b.chunks + rows)) && Below(b.(chunks := b.chunks + rows), hi)
  {
    var d := b.(chunks := b.chunks + rows);
    FitSound(b, rows, symbols, repo, file);
    hide ChunksSound, Below;
    ChunkTableSound(b, d);
    hide Sound;
    FitBelow(b, rows, lo, hi);
  }

  lemma FitBelow(b: DB, rows: map<Id, ChunkRow>, lo: Id, hi: Id)
    requires Below(b, lo) && lo <= hi && forall c :: c in rows ==> c < hi
    ensures Below(b.(chunks := b.chunks + rows), hi)
  {
  }

  lemma FitSound(b: DB, rows: map<Id, ChunkRow>, symbols: seq<Symbol>, repo: Id, file: Id)
    requires ChunksSound(b) && SymbolsHere(b, symbols, repo, file)
    requires forall c :: c in rows ==> rows[c].repo == repo && rows[c].file == file &&
                                       exists k :: 0 <= k < |symbols| && symbols[k].id == rows[c].symbol
    ensures ChunksSound(b.(chunks := b.chunks + rows))
  {
  }

  lemma ChunksGrown(b: DB, rows: map<Id, ChunkRow>, repo: Id, file: Id, start: Id, lo: Id, t: Writes)
    requires Below(b, lo) && start <= lo && start <= file
    requires forall c :: c in rows ==> lo <= c && rows[c].repo == repo && rows[c].file == file
    ensures Grows(b, b.(chunks := b.chunks + rows), repo, start, t)
  {
  }

  lemma FileSymbolsHere(b: DB, c: Clone, m: map<Abs, Id>, symbols: seq<Symbol>, repo: Id, x: Abs)
    requires OnDisk(c, m) && HasSymbols(b, c, m, symbols, repo) && x in m
    requires FilesKnown(b, m, repo) && repo in b.repos
    ensures SymbolsHere(b, ForFile(symbols, m[x]), repo, m[x])
    ensures Datas(ForFile(symbols, m[x])) == SymbolsOf(SrcAt(c, x))
  {
    hide ForFile, SymbolsOf;
    var mine := ForFile(symbols, m[x]);
    assert forall k :: 0 <= k < |mine| ==> IdsOf(mine)[k] == mine[k].id;
  }

  /** The chunks of file x were inserted: x joins the files that have theirs. */
  lemma ChunkedNow(b: DB, b': DB, t: Writes, c: Clone, m: map<Abs, Id>, symbols: seq<Symbol>, repo: Id, done: set<Abs>,
                   x: Abs, chunks: seq<Chunk>, lo: Id, hi: Id)
    requires OnDisk(c, m) && Injective(m) && x in m && x !in done && Below(b, lo)
    requires HasChunks(b, c, m, symbols, repo, done)
    requires MadeFrom(chunks, ChunksOf(SrcAt(c, x)), ForFile(symbols, m[x]), repo, m[x]) && ChunksDrawn(chunks, lo, hi)
    requires SameChunks(b.chunks + ChunkRows(chunks), b'.chunks, t)
    ensures HasChunks(b', c, m, symbols, repo, done + {x})
  {
    var mine := ForFile(symbols, m[x]);
    hide *;
    NewlyChunked(b, b', t, c, m, symbols, repo, x, chunks, mine, lo, hi) by {
      NoneYet(b, c, m, symbols, repo, done, x);
      BelowChunks(b, lo);
    }
    ChunkRowsOf(chunks, ChunksOf(SrcAt(c, x)), mine, repo, m[x], lo, hi);
    BelowChunks(b, lo);
    NewRowsElsewhere(b, b', t, c, m, symbols, repo, done, x, ChunkRows(chunks));
  }

  lemma NoneYet(b: DB, c: Clone, m: map<Abs, Id>, symbols: seq<Symbol>, repo: Id, done: set<Abs>, x: Abs)
    requires OnDisk(c, m) && HasChunks(b, c, m, symbols, repo, done) && x in m && x !in done
    ensures forall ch :: ch in b.chunks ==> b.chunks[ch].file != m[x]
  {
  }

  lemma BelowChunks(b: DB, lo: Id)
    requires Below(b, lo)
    ensures forall ch :: ch in b.chunks ==> ch < lo
  {
  }

  lemma SameFiles(a: map<Id, ChunkRow>, b: map<Id, ChunkRow>, t: Writes)
    requires SameChunks(a, b, t)
    ensures a.Keys == b.Keys && forall ch :: ch in a ==> Core(a[ch]) == Core(b[ch]) && a[ch].file == b[ch].file
  {
    forall ch | ch in a ensures a[ch].file == b[ch].file {
      assert Core(a[ch]).file == Core(b[ch]).file;
    }
  }

  lemma NewlyChunked(b: DB, b': DB, t: Writes, c: Clone, m: map<Abs, Id>, symbols: seq<Symbol>, repo: Id,
                     x: Abs, chunks: seq<Chunk>, mine: seq<Symbol>, lo: Id, hi: Id)
    requires OnDisk(c, m) && x in m && mine == ForFile(symbols, m[x])
    requires forall ch :: ch in b.chunks ==> ch < lo && b.chunks[ch].file != m[x]
    requires MadeFrom(chunks, ChunksOf(SrcAt(c, x)), mine, repo, m[x]) && ChunksDrawn(chunks, lo, hi)
    requires SameChunks(b.chunks + ChunkRows(chunks), b'.chunks, t)
    ensures ChunkedAt(b', c, m, symbols, repo, x)
  {
    hide ChunkRows, MadeFrom, ChunksDrawn, ForFile, SymbolsOf, ChunksOf, SameChunks;
    ChunksInserted(b.chunks, repo, lo, hi, chunks, ChunksOf(SrcAt(c, x)), mine, m[x]);
    SameFiles(b.chunks + ChunkRows(chunks), b'.chunks, t);
    ChunksFrame(b.chunks + ChunkRows(chunks), b'.chunks, repo, m[x], ChunksOf(SrcAt(c, x)), IdsOf(mine),
        ChunkIds(chunks));
  }

  lemma NewRowsElsewhere(b: DB, b': DB, t: Writes, c: Clone, m: map<Abs, Id>, symbols: seq<Symbol>, repo: Id,
                         done: set<Abs>,
                         x: Abs, rows: map<Id, ChunkRow>)
    requires OnDisk(c, m) && Injective(m) && x in m && x !in done
    requires HasChunks(b, c, m, symbols, repo, done) && ChunkedAt(b', c, m, symbols, repo, x)
    requires forall ch :: ch in rows ==> rows[ch].file == m[x]
    requires SameChunks(b.chunks + rows, b'.chunks, t)
    requires forall ch :: ch in rows ==> ch !in b.chunks
    ensures HasChunks(b', c, m, symbols, repo, done + {x})
  {
    hide SameChunks, ForFile, SymbolsOf, ChunksOf, ChunkedAt;
    SameFiles(b.chunks + rows, b'.chunks, t);
    forall y | y in done ensures ChunkedAt(b', c, m, symbols, repo, y) {
      StillChunked(b, b', t, c, m, symbols, repo, y, rows);
    }
  }

  lemma StillChunked(b: DB, b': DB, t: Writes, c: Clone, m: map<Abs, Id>, symbols: seq<Symbol>, repo: Id, y: Abs,
                     rows: map<Id, ChunkRow>)
    requires OnDisk(c, m) && y in m && ChunkedAt(b, c, m, symbols, repo, y)
    requires forall ch :: ch in rows ==> ch !in b.chunks && rows[ch].file != m[y]
    requires SameChunks(b.chunks + rows, b'.chunks, t)
    ensures ChunkedAt(b', c, m, symbols, repo, y)
  {
    hide SameChunks, ForFile, SymbolsOf, ChunksOf;
    SameFiles(b.chunks + rows, b'.chunks, t);
    var cids :| ChunksListed(b.chunks, repo, m[y], ChunksOf(SrcAt(c, y)), IdsOf(ForFile(symbols, m[y])), cids);
    ChunksFrame(b.chunks, b'.chunks, repo, m[y], ChunksOf(SrcAt(c, y)), IdsOf(ForFile(symbols, m[y])), cids);
  }

  ghost predicate Announced(a: DB, b: DB, published: seq<Id>) {
    forall ch :: ch in b.chunks && ch !in a.chunks ==> ch in published
  }

  /** The files at these paths of the clone parse. */
  ghost predicate AllParse(c: Clone, xs: set<Abs>) {
    forall x :: x in xs ==> c.root <= x && x[|c.root|..] in c.tree && c.tree[x[|c.root|..]].parses
  }

  lemma ParsesToo(c: Clone, xs: set<Abs>, x: Abs)
    requires AllParse(c, xs) && c.root <= x && x[|c.root|..] in c.tree && SrcAt(c, x).parses
    ensures AllParse(c, xs + {x})
  {
  }

  lemma NoneToParse(c: Clone)
    ensures AllParse(c, {})
  {
  }

  /** What was published since the list was before: each chunk that is new at most once, and nothing else; all of them,
      if all is set. */
  ghost predicate PublishedOnce(a: DB, b: DB, before: seq<Id>, after: seq<Id>, all: bool) {
    && before <= after && Distinct(after[|before|..])
    && (forall c :: c in after[|before|..] ==> c in b.chunks && c !in a.chunks)
    && (all ==> forall c :: c in b.chunks && c !in a.chunks ==> c in after[|before|..])
  }

  lemma PublishedMore(a: DB, b: DB, b1: DB, b2: DB, t: Writes, t': Writes, chunks: seq<Chunk>, before: seq<Id>,
                      was: seq<Id>, published: seq<Id>, lo: Id, hi: Id, all: bool)
    requires PublishedOnce(a, b, before, was, true) && a.chunks.Keys <= b.chunks.Keys
    requires Drift(WithChunks(b, chunks), b1, t) && Drift(b1, b2, t')
    requires ChunksDrawn(chunks, lo, hi) && forall c :: c in b.chunks ==> c < lo
    requires was <= published && published[|was|..] <= ChunkIds(chunks)
    requires all ==> published[|was|..] == ChunkIds(chunks)
    ensures PublishedOnce(a, b2, before, published, all)
  {
    KeysAfter(b, b1, b2, t, t', chunks, lo, hi);
    var had, more := was[|before|..], published[|was|..];
    assert published[|before|..] == had + more;
    hide *;
    DistinctMore(a.chunks.Keys, b.chunks.Keys, had, more, ChunkIds(chunks), lo);
    OnceWhen(a, b2, before, published, all, had + more);
  }

  lemma OnceWhen(a: DB, b: DB, before: seq<Id>, after: seq<Id>, all: bool, ids: seq<Id>)
    requires before <= after && after[|before|..] == ids && Distinct(ids)
    requires forall c :: c in ids ==> c in b.chunks.Keys && c !in a.chunks.Keys
    requires all ==> forall c :: c in b.chunks.Keys && c !in a.chunks.Keys ==> c in ids
    ensures PublishedOnce(a, b, before, after, all)
  {
  }

  lemma KeysAfter(b: DB, b1: DB, b2: DB, t: Writes, t': Writes, chunks: seq<Chunk>, lo: Id, hi: Id)
    requires Drift(WithChunks(b, chunks), b1, t) && Drift(b1, b2, t') && ChunksDrawn(chunks, lo, hi)
    ensures b2.chunks.Keys == b.chunks.Keys + Elems(ChunkIds(chunks))
    ensures Distinct(ChunkIds(chunks)) && forall c :: c in ChunkIds(chunks) ==> lo <= c
  {
    RowKeys(chunks, lo, hi);
    KeysUnion(b.chunks, b1.chunks, b2.chunks, ChunkRows(chunks), t, t');
  }

  lemma KeysUnion(b: map<Id, ChunkRow>, b1: map<Id, ChunkRow>, b2: map<Id, ChunkRow>, rows: map<Id, ChunkRow>,
                  t: Writes, t': Writes)
    requires SameChunks(b + rows, b1, t) && SameChunks(b1, b2, t')
    ensures b2.Keys == b.Keys + rows.Keys
  {
  }

  lemma RowKeys(chunks: seq<Chunk>, lo: Id, hi: Id)
    requires ChunksDrawn(chunks, lo, hi)
    ensures ChunkRows(chunks).Keys == Elems(ChunkIds(chunks))
    ensures Distinct(ChunkIds(chunks)) && forall c :: c in ChunkIds(chunks) ==> lo <= c
  {
    ChunkRowsAre(chunks);
    hide ChunkRows;
    forall c ensures c in ChunkRows(chunks) <==> c in ChunkIds(chunks) {
      if c in ChunkRows(chunks) {
        var k :| 0 <= k < |chunks| && chunks[k].id == c;
        assert ChunkIds(chunks)[k] == c;
      }
    }
  }

  lemma DistinctMore(a: set<Id>, b: set<Id>, had: seq<Id>, more: seq<Id>, ids: seq<Id>, lo: Id)
    requires a <= b && Distinct(had) && Distinct(ids) && more <= ids
    requires (forall c :: c in had <==> c in b && c !in a) && (forall c :: c in b ==> c < lo)
    requires forall c :: c in ids ==> lo <= c
    ensures Distinct(had + more) && forall c :: c in had + more ==> c in b + Elems(ids) && c !in a
    ensures more == ids ==> forall c :: c in b + Elems(ids) && c !in a ==> c in had + more
  {
    assert forall i :: 0 <= i < |more| ==> more[i] == ids[i] && more[i] in ids;
    assert forall i :: 0 <= i < |had| ==> had[i] in had;
  }

  lemma PublishedSame(a: DB, b: DB, b': DB, before: seq<Id>, after: seq<Id>, all: bool)
    requires PublishedOnce(a, b, before, after, all) && b'.chunks.Keys == b.chunks.Keys
    ensures PublishedOnce(a, b', before, after, all) && PublishedOnce(a, b', before, after, false)
  {
  }

  lemma NonePublished(a: DB, b: DB, published: seq<Id>)
    ensures PublishedOnce(a, b, published, published, false)
    ensures b.chunks.Keys == a.chunks.Keys ==> PublishedOnce(a, b, published, published, true)
  {
  }

  /** The state while files are being chunked. */
  ghost predicate ChunkingState(a: DB, b: DB, t: Writes, m: map<Abs, Id>, repo: Id, c: Clone, lo: Id, hi: Id,
                                symbols: seq<Symbol>, calls: seq<C.CallEdge>, imports: seq<I.ImportEdge>,
                                    done: set<Abs>) {
    && Partial(a, b, t, m, repo, c.root, lo, hi)
    && HasEdges(a, b, calls, imports)
    && OnDisk(c, m) && HasSymbols(b, c, m, symbols, repo) && HasChunks(b, c, m, symbols, repo, done)
  }

  lemma ChunkingFacts(a: DB, b: DB, t: Writes, m: map<Abs, Id>, repo: Id, c: Clone, lo: Id, hi: Id,
                      symbols: seq<Symbol>, calls: seq<C.CallEdge>, imports: seq<I.ImportEdge>, done: set<Abs>, x: Abs)
    requires ChunkingState(a, b, t, m, repo, c, lo, hi, symbols, calls, imports, done) && x in m
    ensures c.root <= x && x[|c.root|..] in c.tree
    ensures Below(b, hi) && SymbolsHere(b, ForFile(symbols, m[x]), repo, m[x])
    ensures Datas(ForFile(symbols, m[x])) == SymbolsOf(SrcAt(c, x))
  {
    PartialFacts(a, b, t, m, repo, c.root, lo, hi);
    FileSymbolsHere(b, c, m, symbols, repo, x);
  }

  lemma ChunkingStep(a: DB, b: DB, b': DB, t: Writes, t': Writes, m: map<Abs, Id>, repo: Id, c: Clone, lo: Id, hi: Id,
                     hi': Id,
                     symbols: seq<Symbol>, calls: seq<C.CallEdge>, imports: seq<I.ImportEdge>, done: set<Abs>,
                     x: Abs, chunks: seq<Chunk>)
    requires ChunkingState(a, b, t, m, repo, c, lo, hi, symbols, calls, imports, done) && x in m && x !in done
    requires c.root <= x && x[|c.root|..] in c.tree
    requires MadeFrom(chunks, ChunksOf(SrcAt(c, x)), ForFile(symbols, m[x]), repo, m[x]) && ChunksDrawn(chunks, hi, hi')
    requires Drift(WithChunks(b, chunks), b', t') && t <= t'
    ensures ChunkingState(a, b', t', m, repo, c, lo, hi', symbols, calls, imports, done + {x})
  {
    var d, mine := WithChunks(b, chunks), ForFile(symbols, m[x]);
    hide *;
    ChunkRowsOf(chunks, ChunksOf(SrcAt(c, x)), mine, repo, m[x], hi, hi');
    ChunkingParts(a, b, t, m, repo, c, lo, hi, symbols, calls, imports, done);
    PartialFacts(a, b, t, m, repo, c.root, lo, hi);
    FileSymbolsHere(b, c, m, symbols, repo, x);
    CanInsertMade(b, chunks, ChunksOf(SrcAt(c, x)), mine, repo, m[x], hi, hi');
    AddedChunks(b, chunks, b', t');
    ChunkedNow(b, b', t', c, m, symbols, repo, done, x, chunks, hi, hi');
    OtherParts(a, b, b', c, m, symbols, repo, calls, imports);
    FoldStep(a, b, d, b', t, t', m, repo, c, lo, hi, hi', symbols, calls, imports, done, x, ChunkRows(chunks), mine);
  }

  lemma ChunkingParts(a: DB, b: DB, t: Writes, m: map<Abs, Id>, repo: Id, c: Clone, lo: Id, hi: Id,
                      symbols: seq<Symbol>, calls: seq<C.CallEdge>, imports: seq<I.ImportEdge>, done: set<Abs>)
    requires ChunkingState(a, b, t, m, repo, c, lo, hi, symbols, calls, imports, done)
    ensures Partial(a, b, t, m, repo, c.root, lo, hi) && HasEdges(a, b, calls, imports)
    ensures OnDisk(c, m) && HasSymbols(b, c, m, symbols, repo) && HasChunks(b, c, m, symbols, repo, done)
  {
  }

  lemma AddedChunks(b: DB, chunks: seq<Chunk>, b': DB, t: Writes)
    requires Drift(WithChunks(b, chunks), b', t)
    ensures WithChunks(b, chunks).chunks == b.chunks + ChunkRows(chunks)
    ensures WithChunks(b, chunks) == b.(chunks := b.chunks + ChunkRows(chunks))
    ensures SameChunks(b.chunks + ChunkRows(chunks), b'.chunks, t)
    ensures b'.files == b.files && b'.symbols == b.symbols && b'.calls == b.calls && b'.imports == b.imports
  {
  }

  lemma OtherParts(a: DB, b: DB, b': DB, c: Clone, m: map<Abs, Id>, symbols: seq<Symbol>, repo: Id,
                   calls: seq<C.CallEdge>, imports: seq<I.ImportEdge>)
    requires OnDisk(c, m) && HasSymbols(b, c, m, symbols, repo) && HasEdges(a, b, calls, imports)
    requires b'.symbols == b.symbols && b'.calls == b.calls && b'.imports == b.imports
    ensures HasSymbols(b', c, m, symbols, repo) && HasEdges(a, b', calls, imports)
  {
  }

  lemma FoldStep(a: DB, b: DB, d: DB, b': DB, t: Writes, t': Writes, m: map<Abs, Id>, repo: Id, c: Clone, lo: Id,
                 hi: Id, hi': Id,
                 symbols: seq<Symbol>, calls: seq<C.CallEdge>, imports: seq<I.ImportEdge>, done: set<Abs>,
                 x: Abs, rows: map<Id, ChunkRow>, mine: seq<Symbol>)
    requires ChunkingState(a, b, t, m, repo, c, lo, hi, symbols, calls, imports, done) && x in m && hi <= hi' && t <= t'
    requires d.chunks == b.chunks + rows && d == b.(chunks := b.chunks + rows) && Drift(d, b', t')
    requires SymbolsHere(b, mine, repo, m[x])
    requires forall ch :: ch in rows ==> hi <= ch < hi' && rows[ch].repo == repo && rows[ch].file == m[x] &&
                                         exists k :: 0 <= k < |mine| && mine[k].id == rows[ch].symbol
    requires HasSymbols(b', c, m, symbols, repo) && HasChunks(b', c, m, symbols, repo, done + {x}) &&
        HasEdges(a, b', calls, imports)
    ensures ChunkingState(a, b', t', m, repo, c, lo, hi', symbols, calls, imports, done + {x})
  {
    hide HasSymbols, HasChunks, HasEdges, SymbolsHere, Drift, Partial;
    PartialFacts(a, b, t, m, repo, c.root, lo, hi);
    hide Sound, Below, Injective, FilesKnown;
    ChunksFit(b, rows, mine, repo, m[x], hi, hi');
    ChunksGrown(b, rows, repo, m[x], lo, hi, t');
    StagePartial(a, b, d, b', t, t', m, repo, c.root, lo, hi, hi');
  }

  lemma ChunkingDrift(a: DB, b: DB, b': DB, t: Writes, t': Writes, m: map<Abs, Id>, repo: Id, c: Clone, lo: Id, hi: Id,
                      hi': Id,
                      symbols: seq<Symbol>, calls: seq<C.CallEdge>, imports: seq<I.ImportEdge>, done: set<Abs>)
    requires ChunkingState(a, b, t, m, repo, c, lo, hi, symbols, calls, imports, done)
    requires Drift(b, b', t') && t <= t' && hi <= hi'
    ensures ChunkingState(a, b', t', m, repo, c, lo, hi', symbols, calls, imports, done)
  {
    CarryFiles(b, b', t', c, m, symbols, repo, done);
    assert HasEdges(a, b', calls, imports);
    hide HasSymbols, HasChunks, HasEdges, Drift;
    PartialFacts(a, b, t, m, repo, c.root, lo, hi);
    BelowWider(b, hi, hi');
    hide Partial, Below;
    DriftGrows(b, b, repo, lo, t') by { DriftSelf(b, t'); }
    StagePartial(a, b, b, b', t, t', m, repo, c.root, lo, hi, hi');
  }

  lemma BelowWider(b: DB, hi: Id, hi': Id)
    requires Below(b, hi) && hi <= hi'
    ensures Below(b, hi')
  {
  }

  lemma OnceIsAnnounced(a: DB, b: DB, before: seq<Id>, after: seq<Id>)
    requires PublishedOnce(a, b, before, after, true)
    ensures Announced(a, b, after)
  {
    assert forall c :: c in after[|before|..] ==> c in after;
  }

  lemma OldChunksKept(a: DB, b: DB, t: Writes, m: map<Abs, Id>, repo: Id, root: Abs, lo: Id, hi: Id)
    requires Partial(a, b, t, m, repo, root, lo, hi)
    ensures a.chunks.Keys <= b.chunks.Keys && forall c :: c in b.chunks ==> c < hi
  {
  }

  /** Chunks every file of the map and queues its chunks for embedding and summarisation. */
  method ChunkAndPublish(b: Backend, ids: IdSource, repo: Id, c: Clone, fileMap: map<Abs, Id>, symbols: seq<Symbol>,
                         ghost a: DB, ghost lo: Id, ghost calls: seq<C.CallEdge>, ghost imports: seq<I.ImportEdge>)
    returns (out: Outcome, ghost done: set<Abs>)
    requires ChunkingState(a, b.db, b.written, fileMap, repo, c, lo, ids.next, symbols, calls, imports, {})
    requires b.db.chunks.Keys == a.chunks.Keys
    modifies b, ids
    ensures ChunkingState(a, b.db, b.written, fileMap, repo, c, lo, ids.next, symbols, calls, imports, done)
    ensures b.vectors == old(b.vectors) && b.deletes == old(b.deletes) && old(b.written) <= b.written &&
        old(ids.next) <= ids.next
    ensures out == Success || (out == Failed(StoreDown) && b.budget == 0) || out == Failed(ParseFailed)
    ensures out == Failed(ParseFailed) ==> exists p :: p in c.tree && !c.tree[p].parses
    ensures PublishedOnce(a, b.db, old(b.published), b.published, out.Success?)
    ensures out.Success? ==> done == fileMap.Keys && AllParse(c, fileMap.Keys)
    ensures b.db.files == old(b.db).files && b.db.symbols == old(b.db).symbols
  {
    hide *;
    out, done := Success, {};
    NonePublished(a, b.db, b.published);
    NoneToParse(c);
    var rest := fileMap.Keys;
    while rest != {}
      invariant done + rest == fileMap.Keys && done !! rest
      invariant ChunkingState(a, b.db, b.written, fileMap, repo, c, lo, ids.next, symbols, calls, imports, done)
      invariant b.vectors == old(b.vectors) && b.deletes == old(b.deletes) && old(b.written) <= b.written &&
          old(ids.next) <= ids.next
      invariant AllParse(c, done)
      invariant out == Success && PublishedOnce(a, b.db, old(b.published), b.published, true)
      invariant b.db.files == old(b.db).files && b.db.symbols == old(b.db).symbols
      decreases rest
    {
      var x :| x in rest;
      ghost var b0, t0, hi, was, done0 := b.db, b.written, ids.next, b.published, done;
      ChunkingFacts(a, b0, t0, fileMap, repo, c, lo, hi, symbols, calls, imports, done, x);
      var fileSymbols := SymbolsForFile(symbols, fileMap[x]);
      var chunks;
      out, chunks := ChunkFile(b, ids, repo, fileMap[x], SrcAt(c, x), fileSymbols);
      if !out.Success? {
        DriftKeys(b0, b.db, b.written);
        ChunkingDrift(a, b0, b.db, t0, b.written, fileMap, repo, c, lo, hi, ids.next, symbols, calls, imports, done);
        SourceIs(c, x);
        PublishedSame(a, b0, b.db, old(b.published), was, true);
        return;
      }
      ghost var b1, t1 := b.db, b.written;
      ChunkingStep(a, b0, b1, t0, t1, fileMap, repo, c, lo, hi, ids.next, symbols, calls, imports, done, x, chunks);
      ParsesToo(c, done, x);
      done, rest := done + {x}, rest - {x};
      ChunkingParts(a, b0, t0, fileMap, repo, c, lo, hi, symbols, calls, imports, done0);
      AddedChunks(b0, chunks, b1, t1);
      out := PublishAll(b, chunks);
      DriftKeys(b1, b.db, b.written);
      ChunkingDrift(a, b1, b.db, t1, b.written, fileMap, repo, c, lo, ids.next, ids.next, symbols, calls, imports,
          done);
      OldChunksKept(a, b0, t0, fileMap, repo, c.root, lo, hi);
      PublishedMore(a, b0, b1, b.db, t1, b.written, chunks, old(b.published), was, b.published, hi, ids.next,
          out.Success?);
      if !out.Success? { return; }
    }
    assert done == fileMap.Keys;
  }

  lemma SourceIs(c: Clone, x: Abs)
    requires c.root <= x && x[|c.root|..] in c.tree
    ensures SrcAt(c, x) == c.tree[x[|c.root|..]]
  {
  }
}
