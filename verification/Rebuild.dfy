/** Rebuilding the rows of the files of a run: symbols, edges, chunks, events. */
module Rebuild {
  import opened Base
  import opened Paths
  import opened SourceTree
  import opened Symbols
  import opened Chunker
  import opened Tables
  import opened Backends
  import opened Index
  import opened FileRows
  import C = Calls
  import I = Imports

  /** The source on disk at an absolute path of the clone. */
  function SrcAt(c: Clone, x: Abs): SourceFile
    requires c.root <= x && x[|c.root|..] in c.tree
  {
    c.tree[x[|c.root|..]]
  }

  ghost predicate OnDisk(c: Clone, m: map<Abs, Id>) {
    forall x :: x in m ==> c.root <= x && x[|c.root|..] in c.tree
  }

  /** Whatever stage a run stops in: rows were only added, for the files of m, and every constraint holds. */
  ghost predicate Partial(a: DB, b: DB, t: Writes, m: map<Abs, Id>, repo: Id, root: Abs, lo: Id, hi: Id) {
    && Sound(b) && Below(b, hi) && lo <= hi && repo in b.repos
    && Grows(a, b, repo, lo, t)
    && NewFiles(a.files, b.files, m, repo, root, lo)
  }

  ghost predicate HasSymbols(b: DB, c: Clone, m: map<Abs, Id>, symbols: seq<Symbol>, repo: Id)
    requires OnDisk(c, m)
  {
    forall x :: x in m ==>
      && Datas(ForFile(symbols, m[x])) == SymbolsOf(SrcAt(c, x))
      && SymbolsListed(b.symbols, repo, m[x], SymbolsOf(SrcAt(c, x)), IdsOf(ForFile(symbols, m[x])))
  }

  ghost predicate ChunkedAt(b: DB, c: Clone, m: map<Abs, Id>, symbols: seq<Symbol>, repo: Id, x: Abs)
    requires OnDisk(c, m) && x in m
  {
    exists cids :: ChunksListed(b.chunks, repo, m[x], ChunksOf(SrcAt(c, x)), IdsOf(ForFile(symbols, m[x])), cids)
  }

  /** The files of done have their chunks, the others of m have none yet. */
  ghost predicate HasChunks(b: DB, c: Clone, m: map<Abs, Id>, symbols: seq<Symbol>, repo: Id, done: set<Abs>)
    requires OnDisk(c, m)
  {
    && (forall x :: x in done ==> x in m && ChunkedAt(b, c, m, symbols, repo, x))
    && (forall x, ch :: x in m && x !in done && ch in b.chunks ==> b.chunks[ch].file != m[x])
  }

  /** The edge tables are those of a with new rows behind. */
  ghost predicate HasEdges(a: DB, b: DB, calls: seq<C.CallEdge>, imports: seq<I.ImportEdge>) {
    b.calls == a.calls + calls && b.imports == a.imports + imports
  }

  // ---------- Symbols ----------

  /** What an insert of symbols for new files does to the tables. */
  lemma SymbolsGrown(a: DB, b: DB, b': DB, t: Writes, t': Writes, m: map<Abs, Id>, repo: Id, root: Abs, lo: Id, hi: Id,
                     symbols: seq<Symbol>, hi': Id)
    requires FilesAdded(a, b, t, m, repo, root, lo, hi) && t <= t'
    requires Drawn(symbols, hi, hi') && InRepo(symbols, repo)
    requires forall s :: s in symbols ==> s.file in m.Values
    requires Drift(b.(symbols := b.symbols + SymbolRows(symbols)), b', t')
    ensures Partial(a, b', t', m, repo, root, lo, hi')
    ensures HasEdges(a, b', [], [])
  {
    hide *;
    var rows := SymbolRows(symbols);
    var d := b.(symbols := b.symbols + rows);
    RowsForMap(symbols, repo, hi, hi', m);
    MapOwners(a, b, t, m, repo, root, lo, hi);
    SymbolInsertSound(b, rows, repo, hi);
    DriftKeepsSound(d, b', t');
    DriftKeys(d, b', t');
    FilesAddedGrow(a, b, t, m, repo, root, lo, hi);
    GrowsWider(a, b, repo, lo, t, t');
    SymbolInsertGrows(b, rows, repo, lo, hi, t');
    DriftGrows(d, b', repo, lo, t');
    GrowsTrans(a, b, d, repo, lo, t', t');
    GrowsTrans(a, d, b', repo, lo, t', t');
    SymbolInsertBelow(b, rows, hi, hi');
    assert d.files == b.files && d.repos == b.repos;
    StillPartial(a, b, b', t, t', m, repo, root, lo, hi, hi');
    FilesAddedDrift(a, b, t, m, repo, root, lo, hi);
    SameEdges(a, b, d, t);
    DriftEdges(d, b', t');
  }

  lemma MapOwners(a: DB, b: DB, t: Writes, m: map<Abs, Id>, repo: Id, root: Abs, lo: Id, hi: Id)
    requires FilesAdded(a, b, t, m, repo, root, lo, hi)
    ensures Sound(b) && Below(b, hi) && lo <= hi
    ensures forall f :: f in m.Values ==> f >= lo && f in b.files && b.files[f].repo == repo
  {
  }

  lemma FilesAddedDrift(a: DB, b: DB, t: Writes, m: map<Abs, Id>, repo: Id, root: Abs, lo: Id, hi: Id)
    requires FilesAdded(a, b, t, m, repo, root, lo, hi)
    ensures Drift(a.(files := b.files), b, t)
  {
  }

  lemma SymbolInsertGrows(b: DB, rows: map<Id, SymbolRow>, repo: Id, lo: Id, hi: Id, t: Writes)
    requires Below(b, hi) && lo <= hi
    requires forall i :: i in rows ==> i >= hi && rows[i].repo == repo && rows[i].file >= lo
    ensures Grows(b, b.(symbols := b.symbols + rows), repo, lo, t)
  {
  }

  lemma SymbolInsertBelow(b: DB, rows: map<Id, SymbolRow>, hi: Id, hi': Id)
    requires Below(b, hi) && hi <= hi' && forall i :: i in rows ==> i < hi'
    ensures Below(b.(symbols := b.symbols + rows), hi')
  {
  }

  lemma StillPartial(a: DB, b: DB, b': DB, t: Writes, t': Writes, m: map<Abs, Id>, repo: Id, root: Abs, lo: Id, hi: Id,
                     hi': Id)
    requires FilesAdded(a, b, t, m, repo, root, lo, hi) && hi <= hi'
    requires Sound(b') && Below(b', hi') && b'.repos == b.repos && b'.files == b.files && Grows(a, b', repo, lo, t')
    ensures Partial(a, b', t', m, repo, root, lo, hi')
  {
  }

  lemma SameEdges(a: DB, b: DB, d: DB, t: Writes)
    requires Drift(a.(files := b.files), b, t) && d.calls == b.calls && d.imports == b.imports
    ensures HasEdges(a, d, [], [])
  {
  }

  lemma DriftEdges(d: DB, b: DB, t: Writes)
    requires Drift(d, b, t)
    ensures forall a, calls, imports :: HasEdges(a, d, calls, imports) ==> HasEdges(a, b, calls, imports)
  {
  }

  lemma RowsForMap(symbols: seq<Symbol>, repo: Id, lo: Id, hi: Id, m: map<Abs, Id>)
    requires Drawn(symbols, lo, hi) && InRepo(symbols, repo)
    requires forall s :: s in symbols ==> s.file in m.Values
    ensures lo <= hi
    ensures forall i :: i in SymbolRows(symbols) ==>
              lo <= i < hi && SymbolRows(symbols)[i].repo == repo && SymbolRows(symbols)[i].file in m.Values
  {
    SymbolRowsAre(symbols);
    forall i | i in SymbolRows(symbols)
      ensures lo <= i < hi && SymbolRows(symbols)[i].repo == repo && SymbolRows(symbols)[i].file in m.Values
    {
      var k :| 0 <= k < |symbols| && symbols[k].id == i;
      assert symbols[k] in symbols;
    }
  }

  lemma FilesAddedGrow(a: DB, b: DB, t: Writes, m: map<Abs, Id>, repo: Id, root: Abs, lo: Id, hi: Id)
    requires FilesAdded(a, b, t, m, repo, root, lo, hi)
    ensures Grows(a, b, repo, lo, t)
  {
  }

  lemma GrowsWider(a: DB, b: DB, r: Id, lo: Id, t: Writes, t': Writes)
    requires Grows(a, b, r, lo, t) && t <= t'
    ensures Grows(a, b, r, lo, t')
  {
  }

  lemma SymbolInsertSound(b: DB, rows: map<Id, SymbolRow>, repo: Id, hi: Id)
    requires Sound(b) && Below(b, hi)
    requires forall i :: i in rows ==>
        i >= hi && rows[i].repo == repo && rows[i].file in b.files && b.files[rows[i].file].repo == repo
    ensures Sound(b.(symbols := b.symbols + rows))
  {
    var d := b.(symbols := b.symbols + rows);
    SymbolRowsSound(b, rows, repo, hi);
    MoreSymbols(b, d, hi, rows);
    hide SymbolsSound, ChunksSound, CallsSound, ImportsSound, Below;
    assert UniquePaths(d) && UniqueExternalIds(d) && FilesSound(d);
  }

  lemma SymbolRowsSound(b: DB, rows: map<Id, SymbolRow>, repo: Id, hi: Id)
    requires SymbolsSound(b)
    requires forall i :: i in rows ==>
        rows[i].repo == repo && rows[i].file in b.files && b.files[rows[i].file].repo == repo
    ensures SymbolsSound(b.(symbols := b.symbols + rows))
  {
  }

  /** What references old symbols still does. */
  lemma MoreSymbols(b: DB, d: DB, hi: Id, rows: map<Id, SymbolRow>)
    requires Below(b, hi) && d == b.(symbols := b.symbols + rows) && forall i :: i in rows ==> i >= hi
    requires ChunksSound(b) && CallsSound(b) && ImportsSound(b)
    ensures ChunksSound(d) && CallsSound(d) && ImportsSound(d)
  {
    assert forall s :: s in b.symbols ==> s in d.symbols && d.symbols[s] == b.symbols[s];
    assert ChunksSound(d);
    hide ChunksSound;
    assert forall e :: CallSound(b, e) ==> CallSound(d, e);
    assert forall e :: ImportSound(b, e) ==> ImportSound(d, e);
  }

  /** Every symbol insert of a run meets its foreign keys: the files were inserted just before. */
  lemma CanInsertExtracted(a: DB, b: DB, t: Writes, m: map<Abs, Id>, repo: Id, root: Abs, lo: Id, hi: Id,
                           symbols: seq<Symbol>, hi': Id)
    requires FilesAdded(a, b, t, m, repo, root, lo, hi)
    requires Drawn(symbols, hi, hi') && InRepo(symbols, repo)
    requires forall s :: s in symbols ==> s.file in m.Values
    ensures forall k :: 0 <= k < |symbols| ==> CanInsertSymbol(b, symbols[k])
  {
    forall k | 0 <= k < |symbols| ensures CanInsertSymbol(b, symbols[k]) {
      assert symbols[k] in symbols;
    }
  }

  lemma ExtractedInMap(symbols: seq<Symbol>, files: seq<Syntax>, m: map<Abs, Id>)
    requires Extracted(symbols, files, m)
    ensures forall s :: s in symbols ==> s.file in m.Values
  {
  }

  lemma AllHaveSymbols(a: DB, b: DB, b': DB, t: Writes, t': Writes, m: map<Abs, Id>, repo: Id, c: Clone, lo: Id, hi: Id,
                       symbols: seq<Symbol>, hi': Id, files: seq<Syntax>, only: Option<set<Abs>>)
    requires FilesAdded(a, b, t, m, repo, c.root, lo, hi) && Sound(a) && Below(a, lo)
    requires LoadsFiles(files, c.root, c.tree) && OnlyThese(m, files, only)
    requires Extracted(symbols, files, m) && Drawn(symbols, hi, hi') && InRepo(symbols, repo)
    requires b'.symbols == b.symbols + SymbolRows(symbols)
    ensures OnDisk(c, m) && HasSymbols(b', c, m, symbols, repo)
  {
    hide FilesAdded, Sound, Below, Extracted, SymbolRows, ForFile, SymbolsOf, Drawn, InRepo, SymbolsListed;
    forall x | x in m
      ensures c.root <= x && x[|c.root|..] in c.tree
      ensures Datas(ForFile(symbols, m[x])) == SymbolsOf(SrcAt(c, x))
      ensures SymbolsListed(b'.symbols, repo, m[x], SymbolsOf(SrcAt(c, x)), IdsOf(ForFile(symbols, m[x])))
    {
      var k :| 0 <= k < |files| && files[k].abs == x;
      assert LoadedFrom(files[k], c.root, c.tree);
      assert files[k].src == SrcAt(c, x);
      ExtractedAt(symbols, files, m, k);
      OldSymbolsElsewhere(a, b, t, m, repo, c.root, lo, hi, x);
      SymbolsInserted(b.symbols, repo, hi, hi', symbols, m[x]);
    }
  }

  lemma ExtractedAt(symbols: seq<Symbol>, files: seq<Syntax>, m: map<Abs, Id>, k: nat)
    requires Extracted(symbols, files, m) && k < |files| && files[k].abs in m
    ensures Datas(ForFile(symbols, m[files[k].abs])) == SymbolsOf(files[k].src)
  {
  }

  lemma OldSymbolsElsewhere(a: DB, b: DB, t: Writes, m: map<Abs, Id>, repo: Id, root: Abs, lo: Id, hi: Id, x: Abs)
    requires FilesAdded(a, b, t, m, repo, root, lo, hi) && Sound(a) && Below(a, lo) && x in m
    ensures forall s :: s in b.symbols ==> s < hi && b.symbols[s].file != m[x]
    ensures forall ch :: ch in b.chunks ==> b.chunks[ch].file != m[x]
  {
    assert m[x] >= lo;
    forall ch | ch in b.chunks ensures b.chunks[ch].file != m[x] {
      assert Core(a.chunks[ch]) == Core(b.chunks[ch]);
    }
  }

  method ExtractAndSave(b: Backend, ids: IdSource, repo: Id, fileMap: map<Abs, Id>, pkgs: seq<Package>,
                        ghost c: Clone, ghost a: DB, ghost lo: Id, ghost only: Option<set<Abs>>)
    returns (out: Outcome, symbols: seq<Symbol>)
    requires FilesAdded(a, b.db, b.written, fileMap, repo, c.root, lo, ids.next) && Sound(a) && Below(a, lo)
    requires LoadsFiles(Files(pkgs), c.root, c.tree) && OnlyThese(fileMap, Files(pkgs), only)
    modifies b, ids
    ensures b.vectors == old(b.vectors) && b.published == old(b.published) && b.deletes == old(b.deletes) &&
        old(b.written) <= b.written && old(ids.next) <= ids.next
    ensures out == Success || (out == Failed(StoreDown) && b.budget == 0)
    ensures Partial(a, b.db, b.written, fileMap, repo, c.root, lo, ids.next) && HasEdges(a, b.db, [], [])
    ensures out.Success? ==> OnDisk(c, fileMap) && HasSymbols(b.db, c, fileMap, symbols, repo)
    ensures out.Success? ==> HasChunks(b.db, c, fileMap, symbols, repo, {})
    ensures out.Success? ==> SymbolsStored(b.db, symbols, repo)
    ensures forall i, j :: 0 <= i < j < |symbols| ==> symbols[i].id < symbols[j].id
    ensures out.Success? ==> b.db.symbols == old(b.db).symbols + SymbolRows(symbols)
    ensures b.db.files == old(b.db).files && b.db.chunks.Keys == old(b.db).chunks.Keys
  {
    hide *;
    ghost var b0, t0, hi := b.db, b.written, ids.next;
    FilesAddedInjective(a, b0, t0, fileMap, repo, c.root, lo, hi);
    symbols := Extract(ids, repo, fileMap, pkgs, c.root, c.tree);
    ExtractedInMap(symbols, Files(pkgs), fileMap);
    DrawnBounds(symbols, hi, ids.next);
    out := Success;
    if |symbols| == 0 {
      NoRowsToInsert(b0, symbols, t0);
    } else {
      CanInsertExtracted(a, b0, t0, fileMap, repo, c.root, lo, hi, symbols, ids.next);
      var r := b.InsertSymbols(symbols);
      out := FromCall(r);
      if !r.Done? {
        DriftKeys(b0, b.db, b.written);
        AddedDrift(a, b0, b.db, t0, b.written, fileMap, repo, c.root, lo, hi, ids.next);
        FilesAddedPartial(a, b.db, b.written, fileMap, repo, c.root, lo, ids.next);
        return;
      }
    }
    SymbolsGrown(a, b0, b.db, t0, b.written, fileMap, repo, c.root, lo, hi, symbols, ids.next);
    DriftKeys(b0.(symbols := b0.symbols + SymbolRows(symbols)), b.db, b.written);
    AllHaveSymbols(a, b0, b.db, t0, b.written, fileMap, repo, c, lo, hi, symbols, ids.next, Files(pkgs), only);
    StoredNow(b0, b.db, symbols, repo, hi, ids.next);
    NoChunksYet(a, b0, b.db, t0, b.written, fileMap, repo, c, lo, hi, symbols);
  }

  /** Every symbol of the list is a row of the repository. */
  ghost predicate SymbolsStored(b: DB, symbols: seq<Symbol>, repo: Id) {
    forall k :: 0 <= k < |symbols| ==> symbols[k].id in b.symbols && b.symbols[symbols[k].id].repo == repo &&
                                       b.symbols[symbols[k].id].data == symbols[k].data
  }

  lemma StoredNow(b: DB, b': DB, symbols: seq<Symbol>, repo: Id, lo: Id, hi: Id)
    requires b'.symbols == b.symbols + SymbolRows(symbols) && Drawn(symbols, lo, hi) && InRepo(symbols, repo)
    ensures SymbolsStored(b', symbols, repo)
    ensures b.symbols.Keys <= b'.symbols.Keys
  {
    SymbolRowsAre(symbols);
    assert forall k :: 0 <= k < |symbols| ==> symbols[k] in symbols;
  }

  lemma NoChunksYet(a: DB, b: DB, b': DB, t: Writes, t': Writes, m: map<Abs, Id>, repo: Id, c: Clone, lo: Id, hi: Id,
                    symbols: seq<Symbol>)
    requires FilesAdded(a, b, t, m, repo, c.root, lo, hi) && Sound(a) && Below(a, lo)
    requires Drift(b.(symbols := b.symbols + SymbolRows(symbols)), b', t')
    requires OnDisk(c, m)
    ensures HasChunks(b', c, m, symbols, repo, {})
  {
    hide SymbolRows, Sound;
    forall x, ch | x in m && ch in b'.chunks ensures b'.chunks[ch].file != m[x] {
      OldSymbolsElsewhere(a, b, t, m, repo, c.root, lo, hi, x);
      assert Core(b.chunks[ch]) == Core(b'.chunks[ch]);
    }
  }

  lemma DrawnBounds(symbols: seq<Symbol>, lo: Id, hi: Id)
    requires Drawn(symbols, lo, hi)
    ensures lo <= hi && forall i, j :: 0 <= i < j < |symbols| ==> symbols[i].id < symbols[j].id
  {
  }

  lemma FilesAddedInjective(a: DB, b: DB, t: Writes, m: map<Abs, Id>, repo: Id, root: Abs, lo: Id, hi: Id)
    requires FilesAdded(a, b, t, m, repo, root, lo, hi)
    ensures Injective(m)
  {
  }

  lemma NoRowsToInsert(b: DB, symbols: seq<Symbol>, t: Writes)
    requires symbols == []
    ensures Drift(b.(symbols := b.symbols + SymbolRows(symbols)), b, t)
  {
    assert b.symbols + map[] == b.symbols;
  }

  lemma FilesAddedPartial(a: DB, b: DB, t: Writes, m: map<Abs, Id>, repo: Id, root: Abs, lo: Id, hi: Id)
    requires FilesAdded(a, b, t, m, repo, root, lo, hi)
    ensures Partial(a, b, t, m, repo, root, lo, hi) && HasEdges(a, b, [], [])
  {
    FilesAddedGrow(a, b, t, m, repo, root, lo, hi);
  }

  // ---------- Edges ----------

  ghost predicate SymbolsKnown(b: DB, m: map<string, Id>, repo: Id) {
    forall n :: n in m ==> m[n] in b.symbols && b.symbols[m[n]].repo == repo
  }

  ghost predicate FilesKnown(b: DB, m: map<Abs, Id>, repo: Id) {
    forall x :: x in m ==> m[x] in b.files && b.files[m[x]].repo == repo
  }

  function WithEdges(b: DB, calls: seq<C.CallEdge>, imports: seq<I.ImportEdge>): DB {
    b.(calls := b.calls + calls, imports := b.imports + imports)
  }

  /** Rows appended to the edge tables, whose ends are all present. */
  ghost predicate EdgesFit(b: DB, calls: seq<C.CallEdge>, imports: seq<I.ImportEdge>, repo: Id) {
    && (forall e :: e in calls ==> e.repo == repo && CallSound(b, e))
    && (forall e :: e in imports ==> e.repo == repo && ImportSound(b, e))
  }

  lemma BuiltEdgesFit(b: DB, files: seq<Syntax>, fileMap: map<Abs, Id>, m: map<string, Id>, repo: Id)
    requires SymbolsKnown(b, m, repo) && FilesKnown(b, fileMap, repo)
    ensures EdgesFit(b, C.AllEdges(files, fileMap, m, repo), I.AllEdges(files, fileMap, repo), repo)
  {
    C.AllEdgesInMaps(files, fileMap, m, repo);
    I.AllEdgesInMap(files, fileMap, repo);
    hide C.AllEdges, I.AllEdges;
  }

  lemma EdgesKeepSound(b: DB, calls: seq<C.CallEdge>, imports: seq<I.ImportEdge>, repo: Id)
    requires Sound(b) && EdgesFit(b, calls, imports, repo)
    ensures Sound(WithEdges(b, calls, imports))
  {
    var d := WithEdges(b, calls, imports);
    assert CallsSound(d) by {
      forall e | e in d.calls ensures CallSound(d, e) { assert CallSound(b, e); }
    }
    assert ImportsSound(d) by {
      forall e | e in d.imports ensures ImportSound(d, e) { assert ImportSound(b, e); }
    }
  }

  lemma EdgesFitInsert(b: DB, calls: seq<C.CallEdge>, imports: seq<I.ImportEdge>, repo: Id)
    requires EdgesFit(b, calls, imports, repo) && repo in b.repos
    ensures forall e :: e in calls ==> CanInsertCall(b, e)
    ensures forall e :: e in imports ==> CanInsertImport(b, e)
    ensures EdgesFit(b, calls, [], repo) && EdgesFit(b, [], [], repo)
  {
  }

  lemma NoEdges(b: DB, calls: seq<C.CallEdge>)
    ensures WithEdges(b, [], []) == b
    ensures WithEdges(b, calls, []) == b.(calls := b.calls + calls)
  {
    assert b.calls + [] == b.calls && b.imports + [] == b.imports;
  }

  /** Rebuilds the call and import edges of the whole repository; the rows are added to those there are. */
  method BuildEdges(b: Backend, repo: Id, fileMap: map<Abs, Id>, symbolMap: map<string, Id>, pkgs: seq<Package>)
    returns (out: Outcome, ghost calls: seq<C.CallEdge>, ghost imports: seq<I.ImportEdge>)
    requires Sound(b.db) && repo in b.db.repos
    requires SymbolsKnown(b.db, symbolMap, repo) && FilesKnown(b.db, fileMap, repo)
    modifies b
    ensures b.vectors == old(b.vectors) && b.published == old(b.published) && b.deletes == old(b.deletes) &&
        old(b.written) <= b.written
    ensures out == Success || (out == Failed(StoreDown) && b.budget == 0)
    ensures EdgesFit(old(b.db), calls, imports, repo)
    ensures Drift(WithEdges(old(b.db), calls, imports), b.db, b.written)
    // each insert is one transaction: nothing, all the call edges, or all edges of both tables
    ensures calls == [] || calls == C.AllEdges(Files(pkgs), fileMap, symbolMap, repo)
    ensures if out.Success? then calls == C.AllEdges(Files(pkgs), fileMap, symbolMap, repo) else imports == []
    ensures out.Success? ==> imports == I.AllEdges(Files(pkgs), fileMap, repo)
  {
    hide *;
    ghost var b0, all := b.db, Files(pkgs);
    BuiltEdgesFit(b0, all, fileMap, symbolMap, repo);
    EdgesFitInsert(b0, C.AllEdges(all, fileMap, symbolMap, repo), I.AllEdges(all, fileMap, repo), repo);
    calls, imports := [], [];
    NoEdges(b0, C.AllEdges(all, fileMap, symbolMap, repo));
    DriftSelf(b0, b.written);
    out := Success;
    var callEdges := C.Build(repo, fileMap, symbolMap, pkgs);
    if |callEdges| > 0 {
      var r := b.InsertCallEdges(callEdges);
      out := FromCall(r);
      if !r.Done? { return; }
    }
    calls := callEdges;
    var importEdges := I.Build(repo, fileMap, pkgs);
    if |importEdges| > 0 {
      ghost var b1, t1 := b.db, b.written;
      DriftCanInsert(WithEdges(b0, calls, []), b1, t1);
      SameTables(b0, calls);
      var r := b.InsertImportEdges(importEdges);
      out := FromCall(r);
      if !r.Done? {
        DriftTrans(WithEdges(b0, calls, []), b1, b.db, t1, b.written);
        return;
      }
      ImportsAfterCalls(b0, b1, b.db, t1, b.written, calls, importEdges);
    }
    imports := importEdges;
  }

  lemma DriftSelf(b: DB, t: Writes)
    ensures Drift(b, b, t)
  {
  }

  lemma DriftCanInsert(a: DB, b: DB, t: Writes)
    requires Drift(a, b, t)
    ensures forall e :: CanInsertImport(a, e) ==> CanInsertImport(b, e)
  {
  }

  lemma SameTables(b: DB, calls: seq<C.CallEdge>)
    ensures forall e :: CanInsertImport(b, e) ==> CanInsertImport(WithEdges(b, calls, []), e)
  {
  }

  lemma ImportsAfterCalls(b: DB, b1: DB, b2: DB, t: Writes, t': Writes, calls: seq<C.CallEdge>,
                          imports: seq<I.ImportEdge>)
    requires Drift(WithEdges(b, calls, []), b1, t) && Drift(b1.(imports := b1.imports + imports), b2, t') && t <= t'
    ensures Drift(WithEdges(b, calls, imports), b2, t')
  {
  }

  /** Appended edges leave the rest of the run's state as it was. */
  lemma EdgesStage(a: DB, b: DB, b': DB, t: Writes, t': Writes, m: map<Abs, Id>, repo: Id, root: Abs, lo: Id, hi: Id,
                   calls: seq<C.CallEdge>, imports: seq<I.ImportEdge>)
    requires Partial(a, b, t, m, repo, root, lo, hi) && HasEdges(a, b, [], []) && t <= t'
    requires EdgesFit(b, calls, imports, repo) && Drift(WithEdges(b, calls, imports), b', t')
    ensures Partial(a, b', t', m, repo, root, lo, hi) && HasEdges(a, b', calls, imports)
  {
    hide *;
    var d := WithEdges(b, calls, imports);
    PartialFacts(a, b, t, m, repo, root, lo, hi);
    EdgesKeepSound(b, calls, imports, repo);
    EdgesGrown(b, calls, imports, repo, lo, t');
    SameRows(b, calls, imports, hi);
    StagePartial(a, b, d, b', t, t', m, repo, root, lo, hi, hi);
    EdgesBehind(a, b, calls, imports);
    DriftEdges(d, b', t');
  }

  lemma PartialFacts(a: DB, b: DB, t: Writes, m: map<Abs, Id>, repo: Id, root: Abs, lo: Id, hi: Id)
    requires Partial(a, b, t, m, repo, root, lo, hi)
    ensures Sound(b) && Below(b, hi) && lo <= hi && repo in b.repos
    ensures FilesKnown(b, m, repo) && Injective(m)
    ensures forall x :: x in m ==> m[x] >= lo
  {
  }

  lemma SameRows(b: DB, calls: seq<C.CallEdge>, imports: seq<I.ImportEdge>, hi: Id)
    requires Below(b, hi)
    ensures var d := WithEdges(b, calls, imports);
            Below(d, hi) && d.files == b.files && d.repos == b.repos && d.symbols == b.symbols && d.chunks == b.chunks
  {
  }

  lemma EdgesBehind(a: DB, b: DB, calls: seq<C.CallEdge>, imports: seq<I.ImportEdge>)
    requires HasEdges(a, b, [], [])
    ensures HasEdges(a, WithEdges(b, calls, imports), calls, imports)
  {
  }

  /** One more stage: rows inserted without breaking a constraint, then column writes. */
  lemma StagePartial(a: DB, b: DB, d: DB, b': DB, t: Writes, t': Writes, m: map<Abs, Id>, repo: Id, root: Abs, lo: Id,
                     hi: Id, hi': Id)
    requires Partial(a, b, t, m, repo, root, lo, hi) && t <= t' && hi <= hi'
    requires Sound(d) && Below(d, hi') && d.files == b.files && d.repos == b.repos && Grows(b, d, repo, lo, t')
    requires Drift(d, b', t')
    ensures Partial(a, b', t', m, repo, root, lo, hi')
  {
    DriftKeepsSound(d, b', t');
    DriftKeys(d, b', t');
    DriftGrows(d, b', repo, lo, t');
    hide Sound, Grows, NewFiles, Drift, Below;
    GrowsWider(a, b, repo, lo, t, t');
    GrowsTrans(a, b, d, repo, lo, t', t');
    GrowsTrans(a, d, b', repo, lo, t', t');
  }

  lemma EdgesGrown(b: DB, calls: seq<C.CallEdge>, imports: seq<I.ImportEdge>, repo: Id, lo: Id, t: Writes)
    requires EdgesFit(b, calls, imports, repo)
    ensures Grows(b, WithEdges(b, calls, imports), repo, lo, t)
  {
    assert forall k :: 0 <= k < |calls| ==> calls[k] in calls;
    assert forall k :: 0 <= k < |imports| ==> imports[k] in imports;
  }

  /** Column writes and appended edges touch neither the symbols nor the chunk cores. */
  lemma CarryFiles(b: DB, b': DB, t: Writes, c: Clone, m: map<Abs, Id>, symbols: seq<Symbol>, repo: Id, done: set<Abs>)
    requires OnDisk(c, m) && HasSymbols(b, c, m, symbols, repo) && HasChunks(b, c, m, symbols, repo, done)
    requires b'.symbols == b.symbols && SameChunks(b.chunks, b'.chunks, t)
    ensures HasSymbols(b', c, m, symbols, repo) && HasChunks(b', c, m, symbols, repo, done)
  {
    forall ch | ch in b'.chunks ensures Core(b.chunks[ch]) == Core(b'.chunks[ch]) &&
        b.chunks[ch].file == b'.chunks[ch].file {
      assert Core(b.chunks[ch]).file == Core(b'.chunks[ch]).file;
    }
    forall x | x in done ensures ChunkedAt(b', c, m, symbols, repo, x) {
      var cids :| ChunksListed(b.chunks, repo, m[x], ChunksOf(SrcAt(c, x)), IdsOf(ForFile(symbols, m[x])), cids);
      ChunksFrame(b.chunks, b'.chunks, repo, m[x], ChunksOf(SrcAt(c, x)), IdsOf(ForFile(symbols, m[x])), cids);
    }
  }
}
