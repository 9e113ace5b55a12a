/** What one run of the pipeline does to the stores, whatever call it stops at. */
module Runs {
  import opened Base
  import opened Paths
  import opened SourceTree
  import opened Symbols
  import opened Chunker
  import opened Tables
  import opened Backends
  import opened Index
  import opened FileRows
  import opened Rebuild
  import opened Chunking
  import opened Discards
  import C = Calls
  import I = Imports

  /** From tables a and vectors v0 to tables b and vectors v1: the files in gone were discarded, new ones were
      added, all of them at the given paths of one repository; only vectors of files in cleaned were
      deleted, among them every vector of the files in gone; every constraint holds. */
  ghost predicate RunEffect(a: DB, b: DB, repo: Id, lo: Id, hi: Id, t: Writes, gone: set<Id>, cleaned: set<Id>,
                            paths: iset<Rel>, v0: set<VecId>, v1: set<VecId>) {
    && Sound(b) && Below(b, hi) && lo <= hi
    && Replaces(a, b, repo, lo, t, gone, paths)
    && AtPaths(a, repo, cleaned, paths) && gone <= cleaned
    && OnlyTheirVectors(a, v0, v1, cleaned, t) && TheirVectorsGone(a, v1, gone, t)
  }

  /** Every file row that was added is of a file the tree expects. */
  ghost predicate NewFromTree(a: DB, b: DB, tree: Tree) {
    forall f :: f in b.files && f !in a.files ==>
      b.files[f].path.RelPath? && Expected(tree, b.files[f].path.rel).Some?
  }

  /** The edge rows a run inserted by the time it stopped. Each insert is one transaction, so it is nothing, the call
      edges of a build of the whole repository, or both tables of it. */
  ghost predicate Inserted(b: DB, repo: Id, c: Clone, calls: seq<C.CallEdge>, imports: seq<I.ImportEdge>) {
    || (calls == [] && imports == [])
    || (c.pkgs.Some? && exists all ::
          Built(b, repo, c.root, Files(c.pkgs.value), calls, all) && (imports == [] || imports == all))
  }

  /** The edge tables are what the cascade left, and behind it what was inserted. */
  ghost predicate EdgesInserted(a: DB, b: DB, repo: Id, c: Clone, gone: set<Id>) {
    exists calls, imports :: Inserted(b, repo, c, calls, imports) && HasEdges(DeleteFiles(a, gone), b, calls, imports)
  }

  /** A run as the stores see it: the tables and vectors it found, those there were when it stopped, wherever that
      was, the ids it drew from, the worker writes made by then, and the files it discarded and whose vectors it
      cleaned. */
  datatype Run = Run(start: DB, stop: DB, lo: Id, hi: Id, t: Writes, gone: set<Id>, cleaned: set<Id>,
                     v0: set<VecId>, v1: set<VecId>)

  /** As far as rows go: only rows of the repository at the given paths were discarded and added. */
  ghost predicate Confined(r: Run, repo: Id, paths: iset<Rel>) {
    Replaces(r.start, r.stop, repo, r.lo, r.t, r.gone, paths)
  }

  ghost predicate Effect(r: Run, repo: Id, paths: iset<Rel>) {
    RunEffect(r.start, r.stop, repo, r.lo, r.hi, r.t, r.gone, r.cleaned, paths, r.v0, r.v1)
  }

  lemma EffectParts(r: Run, repo: Id, paths: iset<Rel>)
    requires Effect(r, repo, paths)
    ensures Confined(r, repo, paths) && AtPaths(r.start, repo, r.cleaned, paths) && Sound(r.stop) && Below(r.stop, r.hi)
    ensures OnlyTheirVectors(r.start, r.v0, r.v1, r.cleaned, r.t)
  {
  }

  ghost predicate MapAtPaths(m: map<Abs, Id>, root: Abs, paths: iset<Rel>) {
    forall x :: x in m ==> root <= x && x[|root|..] in paths
  }

  lemma NothingDiscarded(a: DB, t: Writes, v: set<VecId>, hi: Id)
    requires Sound(a) && Below(a, hi)
    ensures Discarded(a, a, t, v, v, {}, {}, hi)
  {
    DeleteNothing(a);
    DriftSelf(a, t);
  }

  lemma StillDiscarded(a: DB, b: DB, b': DB, t: Writes, t': Writes, v0: set<VecId>, v1: set<VecId>, gone: set<Id>,
                       cleaned: set<Id>, hi: Id)
    requires Sound(a) && Below(a, hi) && Discarded(a, b, t, v0, v1, gone, cleaned, hi) && t <= t' && Drift(b, b', t')
    ensures Discarded(a, b', t', v0, v1, gone, cleaned, hi)
  {
    hide Sound, Below, Drift, OnlyTheirVectors, TheirVectorsGone;
    Wider(a, v0, v1, cleaned, gone, gone, t, t');
    DiscardedDrift(a, b, b', t, t', v0, v1, v1, gone, cleaned, cleaned, hi);
  }

  /** The run stopped before it inserted anything. */
  lemma EffectOfDiscard(a: DB, b: DB, repo: Id, c: Clone, lo: Id, t: Writes, gone: set<Id>, cleaned: set<Id>,
                        paths: iset<Rel>, v0: set<VecId>, v1: set<VecId>)
    requires Discarded(a, b, t, v0, v1, gone, cleaned, lo) && AtPaths(a, repo, cleaned, paths)
    ensures RunEffect(a, b, repo, lo, lo, t, gone, cleaned, paths, v0, v1) && NewFromTree(a, b, c.tree)
    ensures EdgesInserted(a, b, repo, c, gone)
  {
    hide Sound, Below, OnlyTheirVectors, TheirVectorsGone, Grows;
    DriftGrows(DeleteFiles(a, gone), b, repo, lo, t);
    hide KeepCalls, KeepImports;
    assert AtPaths(a, repo, gone, paths);
    assert HasEdges(DeleteFiles(a, gone), b, [], []);
    assert Inserted(b, repo, c, [], []);
  }

  lemma NewAreInMap(a: DB, a1: DB, b: DB, t: Writes, gone: set<Id>, m: map<Abs, Id>, repo: Id, root: Abs, lo: Id,
                    paths: iset<Rel>)
    requires Drift(DeleteFiles(a, gone), a1, t) && NewFiles(a1.files, b.files, m, repo, root, lo) &&
        MapAtPaths(m, root, paths)
    requires Below(a, lo) && FilesGrow(a1, b, repo, lo)
    ensures NewAtPaths(a, b, paths)
  {
    hide KeepCalls, KeepImports;
    forall f | f in b.files && f !in a.files ensures b.files[f].path.RelPath? && b.files[f].path.rel in paths {
      assert f !in a1.files;
      var x :| x in m && m[x] == f;
    }
  }

  lemma NewAreInTree(a: DB, a1: DB, b: DB, t: Writes, gone: set<Id>, m: map<Abs, Id>, repo: Id, c: Clone, lo: Id,
                     files: seq<Syntax>, only: Option<set<Abs>>)
    requires Drift(DeleteFiles(a, gone), a1, t) && NewFiles(a1.files, b.files, m, repo, c.root, lo)
    requires OnlyThese(m, files, only) && LoadsFiles(files, c.root, c.tree)
    ensures NewFromTree(a, b, c.tree)
  {
    hide KeepCalls, KeepImports;
    forall f | f in b.files && f !in a.files
      ensures b.files[f].path.RelPath? && Expected(c.tree, b.files[f].path.rel).Some?
    {
      assert f !in a1.files;
      var x :| x in m && m[x] == f;
      var k :| 0 <= k < |files| && files[k].abs == x;
      assert LoadedFrom(files[k], c.root, c.tree);
    }
  }

  /** The run stopped while it was adding rows, or finished. */
  lemma EffectOfRebuild(a: DB, a1: DB, b: DB, repo: Id, c: Clone, lo: Id, hi: Id, t1: Writes, t: Writes,
                        gone: set<Id>, cleaned: set<Id>, paths: iset<Rel>, v0: set<VecId>, v1: set<VecId>,
                        m: map<Abs, Id>, files: seq<Syntax>, only: Option<set<Abs>>,
                        calls: seq<C.CallEdge>, imports: seq<I.ImportEdge>)
    requires Sound(a) && Below(a, lo) && t1 <= t
    requires Discarded(a, a1, t1, v0, v1, gone, cleaned, lo) && AtPaths(a, repo, cleaned, paths)
    requires Partial(a1, b, t, m, repo, c.root, lo, hi) && MapAtPaths(m, c.root, paths)
    requires OnlyThese(m, files, only) && LoadsFiles(files, c.root, c.tree)
    requires HasEdges(a1, b, calls, imports) && Inserted(b, repo, c, calls, imports)
    ensures RunEffect(a, b, repo, lo, hi, t, gone, cleaned, paths, v0, v1) && NewFromTree(a, b, c.tree)
    ensures EdgesInserted(a, b, repo, c, gone)
  {
    StillDiscarded(a, a1, a1, t1, t, v0, v1, gone, cleaned, lo) by { DriftSelf(a1, t); }
    hide Sound, OnlyTheirVectors, TheirVectorsGone, OnlyThese, LoadsFiles, HasEdges, Inserted;
    EdgesFromStart(a, a1, b, t, gone, calls, imports);
    DriftGrows(DeleteFiles(a, gone), a1, repo, lo, t);
    NewAreInMap(a, a1, b, t, gone, m, repo, c.root, lo, paths);
    NewAreInTree(a, a1, b, t, gone, m, repo, c, lo, files, only);
    hide Drift, DeleteFiles, NewFiles, MapAtPaths, NewFromTree;
    GrowsTrans(DeleteFiles(a, gone), a1, b, repo, lo, t, t);
    assert AtPaths(a, repo, gone, paths);
  }

  // ---------- The files a run rebuilt ----------

  /** A path with its file rebuilt from the clone, or with no built file in the clone, is clean. */
  lemma RebuiltClean(a: DB, b: DB, t: Writes, m: map<Abs, Id>, repo: Id, c: Clone, lo: Id, hi: Id, symbols: seq<Symbol>,
                     calls: seq<C.CallEdge>, imports: seq<I.ImportEdge>, files: seq<Syntax>, only: Option<set<Abs>>,
                         p: Rel)
    requires ChunkingState(a, b, t, m, repo, c, lo, hi, symbols, calls, imports, m.Keys)
    requires LoadsFiles(files, c.root, c.tree) && OnlyThese(m, files, only) && AllThese(m, files, only)
    requires Absent(a, repo, p) && Selected(only, Join(c.root, p))
    ensures CleanAt(b, repo, c.tree, p)
  {
    hide ForFile, SymbolsOf, ChunksOf, SymbolsListed, ChunksListed, Sound, Below, Grows, HasEdges;
    var x := Join(c.root, p);
    assert x[|c.root|..] == p;
    match Expected(c.tree, p) {
      case Some(src) =>
        assert IsLoaded(files, x);
        assert x in m;
        assert ChunkedAt(b, c, m, symbols, repo, x);
        var cids :| ChunksListed(b.chunks, repo, m[x], ChunksOf(src), IdsOf(ForFile(symbols, m[x])), cids);
        assert Listed(b, repo, p, src, m[x], IdsOf(ForFile(symbols, m[x])), cids);
      case None =>
        forall f | f in b.files ensures b.files[f] != FileRow(repo, RelPath(p)) {
          if f !in a.files {
            var y :| y in m && m[y] == f;
            var k :| 0 <= k < |files| && files[k].abs == y;
            assert LoadedFrom(files[k], c.root, c.tree);
          }
        }
    }
  }

  ghost function Everywhere(): (r: iset<Rel>)
    ensures forall p :: p in r
  {
    iset p: Rel | |p| >= 0
  }

  lemma FullMapAtPaths(m: map<Abs, Id>, files: seq<Syntax>, only: Option<set<Abs>>, root: Abs, tree: Tree)
    requires OnlyThese(m, files, only) && LoadsFiles(files, root, tree)
    ensures MapAtPaths(m, root, Everywhere())
  {
    forall x | x in m ensures root <= x {
      var k :| 0 <= k < |files| && files[k].abs == x;
      assert LoadedFrom(files[k], root, tree);
    }
  }

  // ---------- The edges a run built ----------

  /** m sends the absolute path of every file row of the repository to that row. */
  ghost predicate FileMapOf(db: DB, repo: Id, root: Abs, m: map<Abs, Id>) {
    && (forall x :: x in m ==> root <= x && m[x] in db.files && db.files[m[x]] == FileRow(repo, RelPath(x[|root|..])))
    && (forall f :: f in db.files && db.files[f].repo == repo ==>
          db.files[f].path.RelPath? && Join(root, db.files[f].path.rel) in m &&
              m[Join(root, db.files[f].path.rel)] == f)
  }

  /** m sends the name of every symbol row of the repository to a row of that name. */
  ghost predicate NameMapOf(db: DB, repo: Id, m: map<string, Id>) {
    && (forall n :: n in m ==> m[n] in db.symbols && db.symbols[m[n]].repo == repo && db.symbols[m[n]].data.fqName == n)
    && (forall s :: s in db.symbols && db.symbols[s].repo == repo ==> db.symbols[s].data.fqName in m)
  }

  /** The edges are those of the whole repository, over the files and symbols the tables now hold. */
  ghost predicate Built(db: DB, repo: Id, root: Abs, files: seq<Syntax>, calls: seq<C.CallEdge>,
                        imports: seq<I.ImportEdge>) {
    exists fm, sm ::
      FileMapOf(db, repo, root, fm) && NameMapOf(db, repo, sm) &&
      calls == C.AllEdges(files, fm, sm, repo) && imports == I.AllEdges(files, fm, repo)
  }

  lemma FileMapKnown(db: DB, repo: Id, root: Abs, m: map<Abs, Id>)
    requires FileMapOf(db, repo, root, m)
    ensures FilesKnown(db, m, repo)
  {
  }

  lemma NameMapKnown(db: DB, repo: Id, m: map<string, Id>)
    requires NameMapOf(db, repo, m)
    ensures SymbolsKnown(db, m, repo)
  {
  }

  /** With no file left before, the files just inserted are all the repository has. */
  lemma FullFileMap(a: DB, b: DB, t: Writes, m: map<Abs, Id>, repo: Id, root: Abs, lo: Id, hi: Id)
    requires Partial(a, b, t, m, repo, root, lo, hi) && forall f :: f in a.files ==> a.files[f].repo != repo
    ensures FileMapOf(b, repo, root, m)
  {
    hide Sound, Below;
    forall f | f in b.files && b.files[f].repo == repo
      ensures b.files[f].path.RelPath? && Join(root, b.files[f].path.rel) in m &&
          m[Join(root, b.files[f].path.rel)] == f
    {
      var x :| x in m && m[x] == f;
      assert Join(root, x[|root|..]) == x;
    }
  }

  /** The symbols just extracted are all the repository has. */
  lemma FullNameMap(a: DB, b: DB, symbols: seq<Symbol>, repo: Id, sm: map<string, Id>)
    requires forall s :: s in a.symbols ==> a.symbols[s].repo != repo
    requires b.symbols == a.symbols + SymbolRows(symbols) && SymbolsStored(b, symbols, repo)
    requires forall i, j :: 0 <= i < j < |symbols| ==> symbols[i].id < symbols[j].id
    requires IsNameMap(sm, symbols)
    ensures NameMapOf(b, repo, sm)
  {
    hide SymbolRows;
    forall s | s in b.symbols && b.symbols[s].repo == repo ensures b.symbols[s].data.fqName in sm {
      NameOfNew(b, symbols, repo, sm, s);
    }
    NamesStored(b, symbols, repo, sm);
  }

  lemma NameOfNew(b: DB, symbols: seq<Symbol>, repo: Id, sm: map<string, Id>, s: Id)
    requires SymbolsStored(b, symbols, repo) && IsNameMap(sm, symbols)
    requires forall i, j :: 0 <= i < j < |symbols| ==> symbols[i].id < symbols[j].id
    requires s in SymbolRows(symbols) && s in b.symbols
    ensures b.symbols[s].data.fqName in sm
  {
    SymbolRowsAre(symbols);
    hide SymbolRows, LastWith;
    var k :| 0 <= k < |symbols| && symbols[k].id == s;
    assert symbols[k].data.fqName in sm;
  }

  lemma NamesStored(b: DB, symbols: seq<Symbol>, repo: Id, sm: map<string, Id>)
    requires SymbolsStored(b, symbols, repo) && IsNameMap(sm, symbols)
    ensures forall n :: n in sm ==>
        sm[n] in b.symbols && b.symbols[sm[n]].repo == repo && b.symbols[sm[n]].data.fqName == n
  {
    forall n | n in sm ensures sm[n] in b.symbols && b.symbols[sm[n]].repo == repo &&
        b.symbols[sm[n]].data.fqName == n {
      var k := NamedBy(n, sm[n], symbols);
      assert b.symbols[symbols[k].id].data == symbols[k].data;
    }
  }

  lemma NamedBy(name: string, id: Id, symbols: seq<Symbol>) returns (k: nat)
    requires LastWith(name, id, symbols)
    ensures k < |symbols| && symbols[k].data.fqName == name && symbols[k].id == id
  {
    k :| 0 <= k < |symbols| && symbols[k].data.fqName == name && symbols[k].id == id;
  }

  /** The symbols read back are all the repository has. */
  lemma ListedNameMap(b: DB, rows: seq<Symbol>, repo: Id, sm: map<string, Id>)
    requires ListsSymbols(rows, b, repo) && IsNameMap(sm, rows)
    ensures NameMapOf(b, repo, sm)
  {
    forall n | n in sm ensures sm[n] in b.symbols && b.symbols[sm[n]].repo == repo &&
        b.symbols[sm[n]].data.fqName == n {
      assert LastWith(n, sm[n], rows);
    }
    forall s | s in b.symbols && b.symbols[s].repo == repo ensures b.symbols[s].data.fqName in sm {
      var k :| 0 <= k < |rows| && rows[k].id == s;
      assert RowOfSymbol(rows[k]) == b.symbols[rows[k].id];
    }
  }

  /** Edges, chunks and columns written later do not change what the edges were built over. */
  lemma BuiltStays(b: DB, b': DB, repo: Id, root: Abs, files: seq<Syntax>, fm: map<Abs, Id>, sm: map<string, Id>,
                   calls: seq<C.CallEdge>, imports: seq<I.ImportEdge>)
    requires FileMapOf(b, repo, root, fm) && NameMapOf(b, repo, sm)
    requires calls == C.AllEdges(files, fm, sm, repo) && imports == I.AllEdges(files, fm, repo)
    requires b'.files == b.files && b'.symbols == b.symbols
    ensures Built(b', repo, root, files, calls, imports)
  {
    hide C.AllEdges, I.AllEdges;
    assert FileMapOf(b', repo, root, fm) && NameMapOf(b', repo, sm);
  }

  /** Edges relative to the tables the run started from. */
  lemma EdgesFromStart(a: DB, a1: DB, b: DB, t: Writes, gone: set<Id>, calls: seq<C.CallEdge>,
                       imports: seq<I.ImportEdge>)
    requires Drift(DeleteFiles(a, gone), a1, t) && HasEdges(a1, b, calls, imports)
    ensures HasEdges(DeleteFiles(a, gone), b, calls, imports)
  {
  }

  lemma NoneInserted(repo: Id, c: Clone)
    ensures forall b :: Inserted(b, repo, c, [], [])
  {
  }

  /** An insert that failed leaves the call edges of the build or none of them, and no import edges. */
  lemma InsertedWhen(b: DB, repo: Id, c: Clone, files: seq<Syntax>, fm: map<Abs, Id>, sm: map<string, Id>,
                     calls: seq<C.CallEdge>, imports: seq<I.ImportEdge>)
    requires FileMapOf(b, repo, c.root, fm) && NameMapOf(b, repo, sm) && c.pkgs.Some? && files == Files(c.pkgs.value)
    requires calls == [] || calls == C.AllEdges(files, fm, sm, repo)
    requires imports == [] || (calls == C.AllEdges(files, fm, sm, repo) && imports == I.AllEdges(files, fm, repo))
    ensures Inserted(b, repo, c, calls, imports)
  {
    hide C.AllEdges, I.AllEdges, Files, FileMapOf, NameMapOf;
    if calls != [] || imports != [] {
      assert Built(b, repo, c.root, files, calls, I.AllEdges(files, fm, repo));
    }
  }

  lemma AnnouncedFromStart(a: DB, a1: DB, b: DB, t: Writes, gone: set<Id>, published: seq<Id>)
    requires Drift(DeleteFiles(a, gone), a1, t) && Announced(a1, b, published)
    ensures Announced(DeleteFiles(a, gone), b, published)
  {
  }

  // ---------- What a successful run achieved ----------

  /** The discarded files are all the files at the paths. */
  ghost predicate GoneExactly(a: DB, repo: Id, gone: set<Id>, paths: iset<Rel>) {
    forall f :: f in gone <==> f in a.files && a.files[f].repo == repo && (a.files[f].path.RelPath? ==>
        a.files[f].path.rel in paths)
  }

  /** A run that rebuilt everything at the paths. */
  ghost predicate Rebuilt(a: DB, b: DB, repo: Id, c: Clone, gone: set<Id>, paths: iset<Rel>, published: seq<Id>) {
    && c.pkgs.Some?
    && GoneExactly(a, repo, gone, paths)
    && Announced(DeleteFiles(a, gone), b, published)
    && exists calls, imports ::
         && Built(b, repo, c.root, Files(c.pkgs.value), calls, imports)
         && HasEdges(DeleteFiles(a, gone), b, calls, imports)
  }

  /** A run that succeeded inserted both tables of the build. */
  lemma RebuiltInserts(a: DB, b: DB, repo: Id, c: Clone, gone: set<Id>, paths: iset<Rel>, published: seq<Id>)
    requires Rebuilt(a, b, repo, c, gone, paths, published)
    ensures EdgesInserted(a, b, repo, c, gone)
  {
    hide Built, HasEdges, DeleteFiles, GoneExactly, Announced;
    var calls, imports :| Built(b, repo, c.root, Files(c.pkgs.value), calls, imports) &&
      HasEdges(DeleteFiles(a, gone), b, calls, imports);
    assert Inserted(b, repo, c, calls, imports);
  }
}
