/** The analysis pipeline: full and incremental index runs over the stores. */
module Pipeline {
  import opened Base
  import opened Paths
  import opened SourceTree
  import opened Symbols
  import opened Tables
  import opened Backends
  import opened Index
  import opened FileRows
  import opened Rebuild
  import opened Chunking
  import opened Discards
  import opened Runs
  import C = Calls
  import I = Imports

  function LoadPackages(c: Clone): (r: (Outcome, seq<Package>))
    ensures r.0 == Success || r.0 == Failed(LoadFailed) || r.0 == Failed(NoPackages)
    ensures r.0.Success? <==> c.pkgs.Some? && c.pkgs.value != []
    ensures r.0.Success? ==> c.pkgs == Some(r.1)
    ensures r.0 == Failed(LoadFailed) ==> c.pkgs.None?
    ensures r.0 == Failed(NoPackages) ==> c.pkgs == Some([])
  {
    if c.pkgs.None? then (Failed(LoadFailed), [])
    else if |c.pkgs.value| == 0 then (Failed(NoPackages), [])
    else (Success, c.pkgs.value)
  }

  /** The clone loads, not to nothing, and every file of it that is to be indexed parses. */
  ghost predicate Readable(c: Clone, todo: iset<Rel>) {
    && c.pkgs.Some? && c.pkgs.value != []
    && forall p :: p in todo && p in c.tree && c.tree[p].built ==> c.tree[p].parses
  }

  /** How a run may end: no constraint is ever broken, and a failure of the sources has a cause. */
  ghost predicate MayEnd(out: Outcome, c: Clone) {
    match out
    case Success => true
    case Failed(StoreDown) => true
    case Failed(LoadFailed) => c.pkgs.None?
    case Failed(NoPackages) => c.pkgs == Some([])
    case Failed(ParseFailed) => exists p :: p in c.tree && !c.tree[p].parses
    case Failed(ConstraintBroken) => false
  }

  /** Chunks the new files after the edges were built. */
  method FinishRun(b: Backend, ids: IdSource, repo: Id, c: Clone, newFiles: map<Abs, Id>, symbols: seq<Symbol>,
                   fileMap: map<Abs, Id>, symbolMap: map<string, Id>,
                   pkgs: seq<Package>, ghost a: DB, ghost lo: Id)
    returns (out: Outcome, ghost calls: seq<C.CallEdge>, ghost imports: seq<I.ImportEdge>)
    requires Partial(a, b.db, b.written, newFiles, repo, c.root, lo, ids.next) && HasEdges(a, b.db, [], [])
    requires OnDisk(c, newFiles) && HasSymbols(b.db, c, newFiles, symbols, repo) &&
        HasChunks(b.db, c, newFiles, symbols, repo, {})
    requires FileMapOf(b.db, repo, c.root, fileMap) && NameMapOf(b.db, repo, symbolMap)
    requires b.db.chunks.Keys == a.chunks.Keys && c.pkgs == Some(pkgs)
    modifies b, ids
    ensures HasEdges(a, b.db, calls, imports) && Inserted(b.db, repo, c, calls, imports)
    ensures b.vectors == old(b.vectors) && old(b.written) <= b.written && old(ids.next) <= ids.next
    ensures out == Success || (out == Failed(StoreDown) && b.budget == 0) ||
        (out == Failed(ParseFailed) && exists p :: p in c.tree && !c.tree[p].parses)
    ensures Partial(a, b.db, b.written, newFiles, repo, c.root, lo, ids.next)
    ensures out.Success? ==>
        ChunkingState(a, b.db, b.written, newFiles, repo, c, lo, ids.next, symbols, calls, imports, newFiles.Keys)
    ensures PublishedOnce(a, b.db, old(b.published), b.published, out.Success?)
    ensures out.Success? ==> Announced(a, b.db, b.published) && AllParse(c, newFiles.Keys)
    ensures out.Success? ==> Built(b.db, repo, c.root, Files(pkgs), calls, imports)
  {
    hide *;
    ghost var b0, t0, files := b.db, b.written, Files(pkgs);
    PartialFacts(a, b0, t0, newFiles, repo, c.root, lo, ids.next);
    FileMapKnown(b0, repo, c.root, fileMap);
    NameMapKnown(b0, repo, symbolMap);
    out, calls, imports := BuildEdges(b, repo, fileMap, symbolMap, pkgs);
    ghost var b1, t1 := b.db, b.written;
    EdgesStage(a, b0, b1, t0, t1, newFiles, repo, c.root, lo, ids.next, calls, imports);
    SameAfterEdges(b0, b1, t1, calls, imports);
    MapsStay(b0, b1, repo, c.root, fileMap, symbolMap);
    InsertedWhen(b1, repo, c, files, fileMap, symbolMap, calls, imports);
    NonePublished(a, b1, b.published);
    if !out.Success? { return; }
    CarryFiles(b0, b1, t1, c, newFiles, symbols, repo, {});
    ChunkingBegins(a, b1, t1, newFiles, repo, c, lo, ids.next, symbols, calls, imports);
    ghost var done;
    out, done := ChunkAndPublish(b, ids, repo, c, newFiles, symbols, a, lo, calls, imports);
    ChunkingParts(a, b.db, b.written, newFiles, repo, c, lo, ids.next, symbols, calls, imports, done);
    BuiltStaysIf(out.Success?, b0, b.db, repo, c.root, files, fileMap, symbolMap, calls, imports);
    MapsStay(b0, b.db, repo, c.root, fileMap, symbolMap);
    InsertedWhen(b.db, repo, c, files, fileMap, symbolMap, calls, imports);
    if out.Success? { OnceIsAnnounced(a, b.db, old(b.published), b.published); }
  }

  lemma MapsStay(b: DB, b': DB, repo: Id, root: Abs, fm: map<Abs, Id>, sm: map<string, Id>)
    requires FileMapOf(b, repo, root, fm) && NameMapOf(b, repo, sm) && b'.files == b.files && b'.symbols == b.symbols
    ensures FileMapOf(b', repo, root, fm) && NameMapOf(b', repo, sm)
  {
  }

  lemma BuiltStaysIf(done: bool, b: DB, b': DB, repo: Id, root: Abs, files: seq<Syntax>, fm: map<Abs, Id>,
                     sm: map<string, Id>,
                     calls: seq<C.CallEdge>, imports: seq<I.ImportEdge>)
    requires FileMapOf(b, repo, root, fm) && NameMapOf(b, repo, sm)
    requires calls == C.AllEdges(files, fm, sm, repo) && imports == I.AllEdges(files, fm, repo)
    requires b'.files == b.files && b'.symbols == b.symbols
    ensures done ==> Built(b', repo, root, files, calls, imports)
  {
    BuiltStays(b, b', repo, root, files, fm, sm, calls, imports);
  }

  lemma SameAfterEdges(b: DB, b': DB, t: Writes, calls: seq<C.CallEdge>, imports: seq<I.ImportEdge>)
    requires Drift(WithEdges(b, calls, imports), b', t)
    ensures b'.files == b.files && b'.symbols == b.symbols && b'.chunks.Keys == b.chunks.Keys &&
        SameChunks(b.chunks, b'.chunks, t)
  {
  }

  lemma ChunkingBegins(a: DB, b: DB, t: Writes, m: map<Abs, Id>, repo: Id, c: Clone, lo: Id, hi: Id,
                       symbols: seq<Symbol>, calls: seq<C.CallEdge>, imports: seq<I.ImportEdge>)
    requires Partial(a, b, t, m, repo, c.root, lo, hi) && HasEdges(a, b, calls, imports)
    requires OnDisk(c, m) && HasSymbols(b, c, m, symbols, repo) && HasChunks(b, c, m, symbols, repo, {})
    ensures ChunkingState(a, b, t, m, repo, c, lo, hi, symbols, calls, imports, {})
  {
  }

  // ---------- A full run ----------

  lemma AllFilesAtPaths(a: DB, b: DB, t: Writes, v0: set<VecId>, v1: set<VecId>, repo: Id, hi: Id, cleaned: set<Id>)
    requires Sound(a) && Below(a, hi) && Discarded(a, b, t, v0, v1, {}, {}, hi)
    requires cleaned == {} || cleaned == FilesOf(b, repo)
    ensures FilesOf(b, repo) == FilesOf(a, repo)
    ensures AtPaths(a, repo, cleaned, Everywhere())
  {
    DeleteNothing(a);
  }

  /** What remains when every file of the repository is gone. */
  lemma Emptied(a: DB, b: DB, t: Writes, repo: Id, gone: set<Id>)
    requires Sound(b) && Drift(DeleteFiles(a, gone), b, t) && gone == FilesOf(a, repo)
    ensures forall f :: f in b.files ==> b.files[f].repo != repo
    ensures forall s :: s in b.symbols ==> b.symbols[s].repo != repo
    ensures forall p :: Absent(b, repo, p)
    ensures GoneExactly(a, repo, gone, Everywhere())
    ensures b.repos == a.repos
  {
    hide KeepCalls, KeepImports;
  }

  lemma NoneThere(b: DB, repo: Id, root: Abs, files: seq<Syntax>, only: Option<set<Abs>>)
    requires forall p :: Absent(b, repo, p)
    ensures NoRowYet(b, repo, root, files, only)
  {
  }

  lemma DiscardedDriftOnly(a: DB, b: DB, t: Writes, v0: set<VecId>, v1: set<VecId>, gone: set<Id>, cleaned: set<Id>,
                           hi: Id)
    requires Discarded(a, b, t, v0, v1, gone, cleaned, hi)
    ensures Sound(b) && Below(b, hi) && Drift(DeleteFiles(a, gone), b, t)
  {
  }

  lemma FullIndexFromRun(a1: DB, b: DB, t: Writes, m: map<Abs, Id>, repo: Id, c: Clone, lo: Id, hi: Id,
                         symbols: seq<Symbol>,
                         calls: seq<C.CallEdge>, imports: seq<I.ImportEdge>, files: seq<Syntax>)
    requires ChunkingState(a1, b, t, m, repo, c, lo, hi, symbols, calls, imports, m.Keys)
    requires LoadsFiles(files, c.root, c.tree) && OnlyThese(m, files, None) && AllThese(m, files, None)
    requires forall p :: Absent(a1, repo, p)
    requires Built(b, repo, c.root, files, calls, imports)
    ensures FullIndex(b, repo, c.tree)
  {
    hide ChunkingState, LoadsFiles, OnlyThese, AllThese, Absent, CleanAt, C.AllEdges, I.AllEdges;
    forall p ensures CleanAt(b, repo, c.tree, p) {
      RebuiltClean(a1, b, t, m, repo, c, lo, hi, symbols, calls, imports, files, None, p);
    }
  }

  lemma RebuiltFromRun(a: DB, a1: DB, b: DB, t1: Writes, repo: Id, c: Clone, gone: set<Id>, paths: iset<Rel>,
                       published: seq<Id>,
                       calls: seq<C.CallEdge>, imports: seq<I.ImportEdge>)
    requires c.pkgs.Some? && GoneExactly(a, repo, gone, paths)
    requires Drift(DeleteFiles(a, gone), a1, t1)
    requires Announced(a1, b, published) && HasEdges(a1, b, calls, imports)
    requires Built(b, repo, c.root, Files(c.pkgs.value), calls, imports)
    ensures Rebuilt(a, b, repo, c, gone, paths, published)
  {
    hide Built, GoneExactly, Drift, Announced, HasEdges;
    EdgesFromStart(a, a1, b, t1, gone, calls, imports);
    AnnouncedFromStart(a, a1, b, t1, gone, published);
  }

  /** Rebuilds the entire graph of a repository. a and v0 are the stores as the run found them. */
  method ProcessFull(b: Backend, ids: IdSource, repo: Id, c: Clone, reindex: bool, ghost a: DB, ghost v0: set<VecId>)
    returns (out: Outcome, ghost gone: set<Id>, ghost cleaned: set<Id>)
    requires Sound(a) && Below(a, ids.next) && Discarded(a, b.db, b.written, v0, b.vectors, {}, {}, ids.next)
    requires repo in a.repos && Loads(c)
    requires reindex || FilesOf(a, repo) == {}
    modifies b, ids
    ensures RunEffect(a, b.db, repo, old(ids.next), ids.next, b.written, gone, cleaned, Everywhere(), v0, b.vectors)
    ensures old(b.written) <= b.written && MayEnd(out, c) && NewFromTree(a, b.db, c.tree)
    ensures EdgesInserted(a, b.db, repo, c, gone)
    ensures PublishedOnce(a, b.db, old(b.published), b.published, out.Success?)
    ensures out == Failed(StoreDown) ==> b.budget == 0
    ensures gone == {} || gone == FilesOf(a, repo)
    ensures out.Success? ==> gone == FilesOf(a, repo) && FullIndex(b.db, repo, c.tree)
    ensures out.Success? ==> Readable(c, Everywhere())
    ensures out.Success? ==> Rebuilt(a, b.db, repo, c, gone, Everywhere(), b.published)
  {
    hide *;
    ghost var lo := ids.next;
    out, gone, cleaned := Success, {}, {};
    NothingPublished(b.published);
    AllFilesAtPaths(a, b.db, b.written, v0, b.vectors, repo, lo, {});
    AllFilesAtPaths(a, b.db, b.written, v0, b.vectors, repo, lo, FilesOf(b.db, repo));
    if reindex {
      ghost var more := ScopeIds(b.db, OfRepository(repo));
      RepoScope(b.db, repo);
      out, gone, cleaned := DiscardScope(b, OfRepository(repo), a, v0, {}, {}, lo);
      assert {} + more == more;
      EffectOfDiscard(a, b.db, repo, c, lo, b.written, gone, cleaned, Everywhere(), v0, b.vectors);
      FailureKept(out, c);
      if !out.Success? { return; }
    } else {
      EffectOfDiscard(a, b.db, repo, c, lo, b.written, gone, cleaned, Everywhere(), v0, b.vectors);
    }
    ghost var a1, t1 := b.db, b.written;
    DiscardedDriftOnly(a, a1, t1, v0, b.vectors, gone, cleaned, lo);
    Emptied(a, a1, t1, repo, gone);

    var loaded := LoadPackages(c);
    out := loaded.0;
    LoadEnd(out, c);
    if !out.Success? { return; }
    var pkgs := loaded.1;
    ghost var files := Files(pkgs);
    LoadedClone(c, pkgs);
    NoneThere(a1, repo, c.root, files, None);
    NoneInserted(repo, c);

    var fileMap;
    out, fileMap := ProcessFiles(b, ids, repo, c, c.root, pkgs, None);
    FailureKept(out, c);
    FullMapAtPaths(fileMap, files, None, c.root, c.tree);
    FilesAddedPartial(a1, b.db, b.written, fileMap, repo, c.root, lo, ids.next);
    EffectOfRebuild(a, a1, b.db, repo, c, lo, ids.next, t1, b.written, gone, cleaned, Everywhere(), v0, b.vectors,
        fileMap, files, None, [], []);
    if !out.Success? { return; }
    FilesAddedSame(a1, b.db, b.written, fileMap, repo, c.root, lo, ids.next);

    var symbols;
    out, symbols := ExtractAndSave(b, ids, repo, fileMap, pkgs, c, a1, lo, None);
    FailureKept(out, c);
    EffectOfRebuild(a, a1, b.db, repo, c, lo, ids.next, t1, b.written, gone, cleaned, Everywhere(), v0, b.vectors,
        fileMap, files, None, [], []);
    if !out.Success? { return; }

    var symbolMap := ToFqNameMap(symbols);
    FullFileMap(a1, b.db, b.written, fileMap, repo, c.root, lo, ids.next);
    FullNameMap(a1, b.db, symbols, repo, symbolMap);
    ghost var calls, imports;
    out, calls, imports := FinishRun(b, ids, repo, c, fileMap, symbols, fileMap, symbolMap, pkgs, a1, lo);
    FailureKept(out, c);
    EffectOfRebuild(a, a1, b.db, repo, c, lo, ids.next, t1, b.written, gone, cleaned, Everywhere(), v0, b.vectors,
        fileMap, files, None, calls, imports);
    OnceFromStart(a, a1, b.db, t1, b.written, gone, fileMap, repo, c.root, lo, ids.next, old(b.published),
        b.published, out.Success?);
    if !out.Success? { return; }
    ChunkingParts(a1, b.db, b.written, fileMap, repo, c, lo, ids.next, symbols, calls, imports, fileMap.Keys);
    AllReadable(c, files, fileMap);
    FullIndexFromRun(a1, b.db, b.written, fileMap, repo, c, lo, ids.next, symbols, calls, imports, files);
    RebuiltFromRun(a, a1, b.db, t1, repo, c, gone, Everywhere(), b.published, calls, imports);
  }

  /** Every selected built file was chunked, so it parses. */
  lemma SelectedParse(c: Clone, files: seq<Syntax>, m: map<Abs, Id>, only: Option<set<Abs>>, p: Rel)
    requires AllParse(c, m.Keys) && LoadsFiles(files, c.root, c.tree) && AllThese(m, files, only)
    requires p in c.tree && c.tree[p].built && Selected(only, Join(c.root, p))
    ensures c.tree[p].parses
  {
    assert IsLoaded(files, Join(c.root, p));
    assert Join(c.root, p) in m && Join(c.root, p)[|c.root|..] == p;
  }

  lemma AllReadable(c: Clone, files: seq<Syntax>, m: map<Abs, Id>)
    requires AllParse(c, m.Keys) && LoadsFiles(files, c.root, c.tree) && AllThese(m, files, None)
    requires c.pkgs.Some? && c.pkgs.value != []
    ensures Readable(c, Everywhere())
  {
    hide LoadsFiles, AllThese, AllParse;
    forall p | p in c.tree && c.tree[p].built ensures c.tree[p].parses { SelectedParse(c, files, m, None, p); }
  }

  lemma ChangedReadable(c: Clone, files: seq<Syntax>, m: map<Abs, Id>, only: set<Abs>, changed: seq<Rel>)
    requires AllParse(c, m.Keys) && LoadsFiles(files, c.root, c.tree) && AllThese(m, files, Some(only))
    requires OnlyFor(only, c.root, changed) && c.pkgs.Some? && c.pkgs.value != []
    ensures Readable(c, iset p | p in changed)
  {
    hide LoadsFiles, AllThese, AllParse;
    forall p | p in changed && p in c.tree && c.tree[p].built ensures c.tree[p].parses {
      SelectedParse(c, files, m, Some(only), p);
    }
  }

  lemma NothingPublished(published: seq<Id>)
    ensures forall a: DB, b: DB :: PublishedOnce(a, b, published, published, false)
  {
  }

  /** A chunk that is new since the discards is new since the run began. */
  lemma OnceFromStart(a: DB, a1: DB, b: DB, t1: Writes, t: Writes, gone: set<Id>, m: map<Abs, Id>, repo: Id, root: Abs,
                      lo: Id, hi: Id, before: seq<Id>, after: seq<Id>, all: bool)
    requires Below(a, lo) && Drift(DeleteFiles(a, gone), a1, t1) && Partial(a1, b, t, m, repo, root, lo, hi)
    requires PublishedOnce(a1, b, before, after, all)
    ensures PublishedOnce(a, b, before, after, all)
  {
    hide Sound, NewFiles, FilesGrow, SymbolsGrow, EdgesGrow, KeepCalls, KeepImports, Distinct;
    assert a1.chunks.Keys <= a.chunks.Keys;
    assert forall c :: c in a.chunks ==> c < lo;
  }

  lemma RepoScope(b: DB, repo: Id)
    ensures ScopeIds(b, OfRepository(repo)) == FilesOf(b, repo)
  {
  }

  lemma FailureKept(out: Outcome, c: Clone)
    requires out == Success || out == Failed(StoreDown) ||
        (out == Failed(ParseFailed) && exists p :: p in c.tree && !c.tree[p].parses)
    ensures MayEnd(out, c)
  {
  }

  lemma LoadEnd(out: Outcome, c: Clone)
    requires out == Success || (out == Failed(LoadFailed) && c.pkgs.None?) ||
        (out == Failed(NoPackages) && c.pkgs == Some([]))
    ensures MayEnd(out, c)
  {
  }

  lemma LoadedClone(c: Clone, pkgs: seq<Package>)
    requires Loads(c) && c.pkgs == Some(pkgs)
    ensures LoadsFiles(Files(pkgs), c.root, c.tree)
  {
  }

  lemma FilesAddedSame(a: DB, b: DB, t: Writes, m: map<Abs, Id>, repo: Id, root: Abs, lo: Id, hi: Id)
    requires FilesAdded(a, b, t, m, repo, root, lo, hi)
    ensures b.symbols == a.symbols && b.chunks.Keys == a.chunks.Keys
  {
  }

  // ---------- An incremental run ----------

  /** The paths a run may replace: the Go files the push mentions; every path when the index still holds
      absolute paths. */
  ghost function ScopeOfRun(a: DB, repo: Id, changed: seq<Rel>, removed: seq<Rel>): iset<Rel> {
    if NoLegacy(a, repo) then iset p | p in GoOnly(changed + removed) else Everywhere()
  }

  /** What a successful run for a push leaves behind. */
  ghost predicate PushApplied(a: DB, b: DB, repo: Id, c: Clone, changed: seq<Rel>, removed: seq<Rel>, gone: set<Id>,
                              t: Writes, published: seq<Id>) {
    if !NoLegacy(a, repo) then
      FullIndex(b, repo, c.tree) && Rebuilt(a, b, repo, c, gone, Everywhere(), published)
    else
      && (forall p :: p in GoOnly(changed) ==> CleanAt(b, repo, c.tree, p))
      && (forall p :: p in GoOnly(removed) && p !in GoOnly(changed) ==> Absent(b, repo, p))
      && if GoOnly(changed + removed) == [] then Drift(a, b, t)
         else Rebuilt(a, b, repo, c, gone, ScopeOfRun(a, repo, changed, removed), published)
  }

  method IndexByPath(rows: seq<File>, ghost db: DB, ghost repo: Id) returns (legacy: bool, byRelPath: map<Rel, Id>)
    requires ListsFiles(rows, db, repo) && Sound(db)
    ensures legacy <==> !NoLegacy(db, repo)
    ensures !legacy ==> ByPath(db, repo, byRelPath)
  {
    byRelPath, legacy := map[], false;
    for k := 0 to |rows|
      invariant forall j :: 0 <= j < k ==> rows[j].path.RelPath?
    {
      if rows[k].path.AbsPath? {
        assert db.files[rows[k].id].path.AbsPath?;
        return true, byRelPath;
      }
    }
    forall f | f in db.files && db.files[f].repo == repo ensures db.files[f].path.RelPath? {
      var k :| 0 <= k < |rows| && rows[k].id == f;
      assert rows[k].path.RelPath?;
    }
    for k := 0 to |rows|
      invariant forall p :: p in byRelPath ==>
          byRelPath[p] in db.files && db.files[byRelPath[p]] == FileRow(repo, RelPath(p))
      invariant forall j :: 0 <= j < k ==> rows[j].path.rel in byRelPath
    {
      byRelPath := byRelPath[rows[k].path.rel := rows[k].id];
    }
    forall f | f in db.files && db.files[f].repo == repo
      ensures db.files[f].path.rel in byRelPath && byRelPath[db.files[f].path.rel] == f
    {
      var k :| 0 <= k < |rows| && rows[k].id == f;
      assert rows[k].path.rel in byRelPath;
    }
  }

  ghost predicate OnlyFor(only: set<Abs>, root: Abs, changed: seq<Rel>) {
    && (forall p :: p in changed ==> Join(root, p) in only)
    && (forall x :: x in only ==> root <= x && x[|root|..] in changed)
  }

  method OnlySet(root: Abs, changed: seq<Rel>) returns (only: set<Abs>)
    ensures OnlyFor(only, root, changed)
  {
    only := {};
    for k := 0 to |changed|
      invariant forall j :: 0 <= j < k ==> Join(root, changed[j]) in only
      invariant forall x :: x in only ==> root <= x && x[|root|..] in changed
    {
      assert Join(root, changed[k])[|root|..] == changed[k];
      only := only + {Join(root, changed[k])};
    }
  }

  /** The files that survived and the new ones, by absolute path. */
  ghost predicate Merged(all: map<Abs, Id>, root: Abs, left: map<Rel, Id>, newFiles: map<Abs, Id>) {
    && (forall x :: x in newFiles ==> x in all && all[x] == newFiles[x])
    && (forall p :: p in left ==> Join(root, p) in all && (Join(root, p) !in newFiles ==>
        all[Join(root, p)] == left[p]))
    && (forall x :: x in all ==> x in newFiles || (root <= x && x[|root|..] in left && all[x] == left[x[|root|..]]))
  }

  method MergeFiles(root: Abs, left: map<Rel, Id>, newFiles: map<Abs, Id>) returns (all: map<Abs, Id>)
    ensures Merged(all, root, left, newFiles)
  {
    all := map[];
    var rels := left.Keys;
    while rels != {}
      invariant rels <= left.Keys
      invariant forall p :: p in left && p !in rels ==> Join(root, p) in all && all[Join(root, p)] == left[p]
      invariant forall x :: x in all ==> root <= x && x[|root|..] in left && all[x] == left[x[|root|..]]
      decreases rels
    {
      var p :| p in rels;
      rels := rels - {p};
      assert Join(root, p)[|root|..] == p;
      forall q | q in left && Join(root, q) == Join(root, p) ensures q == p {
        assert Join(root, q)[|root|..] == q;
      }
      all := all[Join(root, p) := left[p]];
    }
    var rest := newFiles.Keys;
    while rest != {}
      invariant rest <= newFiles.Keys
      invariant forall x :: x in newFiles && x !in rest ==> x in all && all[x] == newFiles[x]
      invariant forall p :: p in left ==>
          Join(root, p) in all && (Join(root, p) !in newFiles ==> all[Join(root, p)] == left[p])
      invariant forall x :: x in all ==>
          x in newFiles || (root <= x && x[|root|..] in left && all[x] == left[x[|root|..]])
      decreases rest
    {
      var x :| x in rest;
      rest := rest - {x};
      all := all[x := newFiles[x]];
    }
  }

  lemma MergedEntries(a: map<Id, FileRow>, b: map<Id, FileRow>, m: map<Abs, Id>, repo: Id, root: Abs, lo: Id,
                      left: map<Rel, Id>, all: map<Abs, Id>)
    requires NewFiles(a, b, m, repo, root, lo) && Merged(all, root, left, m)
    requires forall p :: p in left ==> left[p] in a && a[left[p]] == FileRow(repo, RelPath(p))
    ensures forall x :: x in all ==> root <= x && all[x] in b && b[all[x]] == FileRow(repo, RelPath(x[|root|..]))
  {
    hide Injective;
  }

  lemma MergedCovers(a: map<Id, FileRow>, b: map<Id, FileRow>, m: map<Abs, Id>, repo: Id, root: Abs, lo: Id,
                     left: map<Rel, Id>, all: map<Abs, Id>, f: Id)
    requires NewFiles(a, b, m, repo, root, lo) && Merged(all, root, left, m) && f in b && b[f].repo == repo
    requires forall g :: g in a && a[g].repo == repo ==>
        a[g].path.RelPath? && a[g].path.rel in left && left[a[g].path.rel] == g
    requires forall g, h :: g in b && h in b && b[g] == b[h] ==> g == h
    ensures b[f].path.RelPath? && Join(root, b[f].path.rel) in all && all[Join(root, b[f].path.rel)] == f
  {
    hide Injective;
    if f in a {
      var x := Join(root, b[f].path.rel);
      assert x in all && x[|root|..] == b[f].path.rel;
    } else {
      var x :| x in m && m[x] == f;
      assert Join(root, x[|root|..]) == x;
    }
  }

  /** The merged map covers the files of the whole repository. */
  lemma MergedFileMap(a: DB, b: DB, t: Writes, m: map<Abs, Id>, repo: Id, root: Abs, lo: Id, hi: Id, left: map<Rel,
                      Id>, all: map<Abs, Id>)
    requires Partial(a, b, t, m, repo, root, lo, hi) && ByPath(a, repo, left) && Merged(all, root, left, m)
    ensures FileMapOf(b, repo, root, all)
  {
    hide Below, Grows, UniqueExternalIds, FilesSound, SymbolsSound, ChunksSound, CallsSound, ImportsSound, Merged,
        NewFiles;
    MergedEntries(a.files, b.files, m, repo, root, lo, left, all);
    forall f | f in b.files && b.files[f].repo == repo
      ensures b.files[f].path.RelPath? && Join(root, b.files[f].path.rel) in all &&
          all[Join(root, b.files[f].path.rel)] == f
    {
      MergedCovers(a.files, b.files, m, repo, root, lo, left, all, f);
    }
  }

  lemma SameFilesStart(a: DB, b: DB, t: Writes, v0: set<VecId>, v1: set<VecId>, hi: Id, repo: Id)
    requires Sound(a) && Discarded(a, b, t, v0, v1, {}, {}, hi)
    ensures Sound(b) && Below(b, hi) && Drift(a, b, t) && b.repos == a.repos
    ensures NoLegacy(a, repo) <==> NoLegacy(b, repo)
  {
    DeleteNothing(a);
  }

  lemma MentionedPaths(a: DB, repo: Id, changed: seq<Rel>, removed: seq<Rel>)
    requires NoLegacy(a, repo)
    ensures forall p :: p in GoOnly(changed) + GoOnly(removed) <==> p in ScopeOfRun(a, repo, changed, removed)
    ensures GoOnly(changed + removed) == [] <==> GoOnly(changed) == [] && GoOnly(removed) == []
  {
    NoMember(GoOnly(changed));
    NoMember(GoOnly(removed));
    NoMember(GoOnly(changed + removed));
  }

  lemma NothingMentioned(changed: seq<Rel>, removed: seq<Rel>)
    requires GoOnly(changed) == [] && GoOnly(removed) == []
    ensures GoOnly(changed + removed) == []
  {
    assert forall p :: p in changed + removed && IsGo(p) ==> p in GoOnly(changed) || p in GoOnly(removed);
    NoMember(GoOnly(changed + removed));
  }

  lemma NoneLeft(a1: DB, repo: Id, left: map<Rel, Id>, rels: seq<Rel>)
    requires ByPath(a1, repo, left) && forall p :: p in rels ==> p !in left
    ensures forall p :: p in rels ==> Absent(a1, repo, p)
  {
    forall p | p in rels ensures Absent(a1, repo, p) { NoEntry(a1, repo, left, p); }
  }

  lemma NoRowOfThese(a1: DB, repo: Id, root: Abs, files: seq<Syntax>, only: set<Abs>, changed: seq<Rel>, tree: Tree)
    requires OnlyFor(only, root, changed) && LoadsFiles(files, root, tree)
    requires forall p :: p in changed ==> Absent(a1, repo, p)
    ensures NoRowYet(a1, repo, root, files, Some(only))
  {
    hide Absent;
    forall k | 0 <= k < |files| && Selected(Some(only), files[k].abs) ensures Absent(a1, repo, RelOf(root, files[k])) {
      assert LoadedFrom(files[k], root, tree);
    }
  }

  lemma OnlyAtPaths(m: map<Abs, Id>, files: seq<Syntax>, only: set<Abs>, root: Abs, changed: seq<Rel>, paths: iset<Rel>)
    requires OnlyThese(m, files, Some(only)) && OnlyFor(only, root, changed) && forall p :: p in changed ==> p in paths
    ensures MapAtPaths(m, root, paths)
  {
  }

  lemma AllGone(a: DB, a1: DB, t: Writes, repo: Id, gone: set<Id>, paths: iset<Rel>)
    requires Drift(DeleteFiles(a, gone), a1, t) && AtPaths(a, repo, gone, paths) && NoLegacy(a, repo)
    requires forall p :: p in paths ==> Absent(a1, repo, p)
    ensures GoneExactly(a, repo, gone, paths)
  {
    hide KeepCalls, KeepImports;
    assert forall f :: f in a.files && f !in gone ==> f in a1.files && a1.files[f] == a.files[f];
    forall f | f in a.files && a.files[f].repo == repo && a.files[f].path.RelPath? &&
        a.files[f].path.rel in paths ensures f in gone {
      assert Absent(a1, repo, a.files[f].path.rel);
    }
  }

  lemma StaysAbsent(a: DB, a1: DB, b: DB, t: Writes, m: map<Abs, Id>, repo: Id, root: Abs, lo: Id, hi: Id,
                    files: seq<Syntax>, only: set<Abs>, changed: seq<Rel>, p: Rel)
    requires Partial(a1, b, t, m, repo, root, lo, hi) && OnlyThese(m, files, Some(only)) && OnlyFor(only, root, changed)
    requires Absent(a1, repo, p) && p !in changed
    ensures Absent(b, repo, p)
  {
    hide Sound, Below;
    forall f | f in b.files ensures b.files[f] != FileRow(repo, RelPath(p)) {
      if f !in a1.files {
        var x :| x in m && m[x] == f;
      }
    }
  }

  /** The rows at the paths of the push are as they should be. */
  lemma PushPathsDone(a: DB, a1: DB, b: DB, t: Writes, m: map<Abs, Id>, repo: Id, c: Clone, lo: Id, hi: Id,
                      symbols: seq<Symbol>,
                      calls: seq<C.CallEdge>, imports: seq<I.ImportEdge>, files: seq<Syntax>, only: set<Abs>,
                          changed: seq<Rel>, removed: seq<Rel>)
    requires ChunkingState(a1, b, t, m, repo, c, lo, hi, symbols, calls, imports, m.Keys)
    requires LoadsFiles(files, c.root, c.tree) && OnlyThese(m, files, Some(only)) && AllThese(m, files, Some(only))
    requires OnlyFor(only, c.root, changed)
    requires forall p :: p in changed + removed ==> Absent(a1, repo, p)
    ensures forall p :: p in changed ==> CleanAt(b, repo, c.tree, p)
    ensures forall p :: p in removed && p !in changed ==> Absent(b, repo, p)
  {
    hide LoadsFiles, OnlyThese, AllThese, Absent, CleanAt, Partial, HasSymbols, HasChunks, HasEdges;
    forall p | p in changed ensures CleanAt(b, repo, c.tree, p) {
      RebuiltClean(a1, b, t, m, repo, c, lo, hi, symbols, calls, imports, files, Some(only), p);
    }
    forall p | p in removed && p !in changed ensures Absent(b, repo, p) {
      StaysAbsent(a, a1, b, t, m, repo, c.root, lo, hi, files, only, changed, p);
    }
  }

  lemma PushAppliedFull(a: DB, b: DB, repo: Id, c: Clone, changed: seq<Rel>, removed: seq<Rel>, gone: set<Id>,
                        t: Writes, published: seq<Id>)
    requires !NoLegacy(a, repo)
    ensures ScopeOfRun(a, repo, changed, removed) == Everywhere()
    ensures PushApplied(a, b, repo, c, changed, removed, gone, t, published) <==>
            FullIndex(b, repo, c.tree) && Rebuilt(a, b, repo, c, gone, Everywhere(), published)
  {
  }

  lemma PushAppliedEmpty(a: DB, b: DB, repo: Id, c: Clone, changed: seq<Rel>, removed: seq<Rel>, t: Writes,
                         published: seq<Id>)
    requires NoLegacy(a, repo) && GoOnly(changed) == [] && GoOnly(removed) == [] && Drift(a, b, t)
    ensures PushApplied(a, b, repo, c, changed, removed, {}, t, published)
  {
    MentionedPaths(a, repo, changed, removed);
    assert forall p :: p !in GoOnly(changed) && p !in GoOnly(removed);
  }

  lemma PushAppliedNow(a: DB, b: DB, repo: Id, c: Clone, changed: seq<Rel>, removed: seq<Rel>, gone: set<Id>,
                       t: Writes, published: seq<Id>)
    requires NoLegacy(a, repo) && !(GoOnly(changed) == [] && GoOnly(removed) == [])
    requires forall p :: p in GoOnly(changed) ==> CleanAt(b, repo, c.tree, p)
    requires forall p :: p in GoOnly(removed) && p !in GoOnly(changed) ==> Absent(b, repo, p)
    requires Rebuilt(a, b, repo, c, gone, ScopeOfRun(a, repo, changed, removed), published)
    ensures PushApplied(a, b, repo, c, changed, removed, gone, t, published)
  {
    MentionedPaths(a, repo, changed, removed);
  }

  /** Rebuilds the touched files once their old rows are gone; left holds the rows that survived. a, v0, gone, cleaned
      and paths are those of the whole run. */
  method RebuildTouched(b: Backend, ids: IdSource, repo: Id, c: Clone, left: map<Rel, Id>, changed: seq<Rel>,
                        ghost removed: seq<Rel>, ghost a: DB, ghost v0: set<VecId>, ghost gone: set<Id>,
                        ghost cleaned: set<Id>, ghost paths: iset<Rel>)
    returns (out: Outcome, ghost calls: seq<C.CallEdge>, ghost imports: seq<I.ImportEdge>)
    requires Sound(a) && Below(a, ids.next) && repo in b.db.repos && Loads(c)
    requires Discarded(a, b.db, b.written, v0, b.vectors, gone, cleaned, ids.next) && AtPaths(a, repo, cleaned, paths)
    requires ByPath(b.db, repo, left) && forall p :: p in changed + removed ==> p !in left
    requires forall p :: p in changed ==> p in paths
    modifies b, ids
    ensures RunEffect(a, b.db, repo, old(ids.next), ids.next, b.written, gone, cleaned, paths, v0, b.vectors)
    ensures old(b.written) <= b.written && MayEnd(out, c) && NewFromTree(a, b.db, c.tree)
    ensures EdgesInserted(a, b.db, repo, c, gone)
    ensures PublishedOnce(a, b.db, old(b.published), b.published, out.Success?)
    ensures out == Failed(StoreDown) ==> b.budget == 0
    ensures out.Success? ==> c.pkgs.Some? && Built(b.db, repo, c.root, Files(c.pkgs.value), calls, imports)
    ensures out.Success? ==> HasEdges(old(b.db), b.db, calls, imports) && Announced(old(b.db), b.db, b.published)
    ensures out.Success? ==> forall p :: p in changed ==> CleanAt(b.db, repo, c.tree, p)
    ensures out.Success? ==> forall p :: p in removed && p !in changed ==> Absent(b.db, repo, p)
    ensures out.Success? ==> Readable(c, iset p | p in changed)
  {
    hide *;
    ghost var a1, t1, lo := b.db, b.written, ids.next;
    calls, imports := [], [];
    NothingPublished(b.published);
    EffectOfDiscard(a, b.db, repo, c, lo, b.written, gone, cleaned, paths, v0, b.vectors);
    DiscardedDriftOnly(a, a1, t1, v0, b.vectors, gone, cleaned, lo);
    NoneLeft(a1, repo, left, changed + removed);

    var loaded := LoadPackages(c);
    out := loaded.0;
    LoadEnd(out, c);
    if !out.Success? { return; }
    var pkgs := loaded.1;
    ghost var files := Files(pkgs);
    LoadedClone(c, pkgs);

    var only := OnlySet(c.root, changed);
    NoRowOfThese(a1, repo, c.root, files, only, changed, c.tree);
    NoneInserted(repo, c);
    var newFiles;
    out, newFiles := ProcessFiles(b, ids, repo, c, c.root, pkgs, Some(only));
    FailureKept(out, c);
    OnlyAtPaths(newFiles, files, only, c.root, changed, paths);
    FilesAddedPartial(a1, b.db, b.written, newFiles, repo, c.root, lo, ids.next);
    EffectOfRebuild(a, a1, b.db, repo, c, lo, ids.next, t1, b.written, gone, cleaned, paths, v0, b.vectors,
        newFiles, files, Some(only), [], []);
    if !out.Success? { return; }
    FilesAddedSame(a1, b.db, b.written, newFiles, repo, c.root, lo, ids.next);

    var newSymbols;
    out, newSymbols := ExtractAndSave(b, ids, repo, newFiles, pkgs, c, a1, lo, Some(only));
    FailureKept(out, c);
    EffectOfRebuild(a, a1, b.db, repo, c, lo, ids.next, t1, b.written, gone, cleaned, paths, v0, b.vectors,
        newFiles, files, Some(only), [], []);
    if !out.Success? { return; }

    var allFiles := MergeFiles(c.root, left, newFiles);
    ghost var b2, t2 := b.db, b.written;
    var r, allSymbols := b.GetSymbolsByRepositoryID(repo);
    out := FromCall(r);
    FailureKept(out, c);
    AfterReading(a1, b2, b.db, t2, b.written, newFiles, repo, c, lo, ids.next, newSymbols);
    EffectOfRebuild(a, a1, b.db, repo, c, lo, ids.next, t1, b.written, gone, cleaned, paths, v0, b.vectors,
        newFiles, files, Some(only), [], []);
    if !r.Done? { return; }

    var symbolMap := ToFqNameMap(allSymbols);
    MergedFileMap(a1, b.db, b.written, newFiles, repo, c.root, lo, ids.next, left, allFiles);
    ListedNameMap(b.db, allSymbols, repo, symbolMap);
    out, calls, imports := FinishRun(b, ids, repo, c, newFiles, newSymbols, allFiles, symbolMap, pkgs, a1, lo);
    FailureKept(out, c);
    EffectOfRebuild(a, a1, b.db, repo, c, lo, ids.next, t1, b.written, gone, cleaned, paths, v0, b.vectors,
        newFiles, files, Some(only), calls, imports);
    OnceFromStart(a, a1, b.db, t1, b.written, gone, newFiles, repo, c.root, lo, ids.next, old(b.published),
        b.published, out.Success?);
    if !out.Success? { return; }
    ChunkingParts(a1, b.db, b.written, newFiles, repo, c, lo, ids.next, newSymbols, calls, imports, newFiles.Keys);
    ChangedReadable(c, files, newFiles, only, changed);
    PushPathsDone(a, a1, b.db, b.written, newFiles, repo, c, lo, ids.next, newSymbols, calls, imports, files, only,
        changed, removed);
  }

  /** Reprocesses only the files a push touched. a and v0 are the stores as the run found them. */
  method ProcessIncremental(b: Backend, ids: IdSource, repo: Id, c: Clone, changedPaths: seq<Rel>,
                            removedPaths: seq<Rel>,
                            ghost a: DB, ghost v0: set<VecId>)
    returns (out: Outcome, ghost gone: set<Id>, ghost cleaned: set<Id>)
    requires Sound(a) && Below(a, ids.next) && Discarded(a, b.db, b.written, v0, b.vectors, {}, {}, ids.next)
    requires repo in a.repos && Loads(c)
    modifies b, ids
    ensures RunEffect(a, b.db, repo, old(ids.next), ids.next, b.written, gone, cleaned,
        ScopeOfRun(a, repo, changedPaths, removedPaths), v0, b.vectors)
    ensures old(b.written) <= b.written && MayEnd(out, c) && NewFromTree(a, b.db, c.tree)
    ensures EdgesInserted(a, b.db, repo, c, gone)
    ensures PublishedOnce(a, b.db, old(b.published), b.published, out.Success?)
    ensures out == Failed(StoreDown) ==> b.budget == 0
    ensures !NoLegacy(a, repo) ==> gone == {} || gone == FilesOf(a, repo)
    ensures out.Success? ==> PushApplied(a, b.db, repo, c, changedPaths, removedPaths, gone, b.written, b.published)
    // it could read all it was to index, or there was nothing to do
    ensures out.Success? ==>
              if !NoLegacy(a, repo) then Readable(c, Everywhere())
              else GoOnly(changedPaths + removedPaths) == [] || Readable(c, iset p | p in GoOnly(changedPaths))
  {
    hide *;
    ghost var lo, paths := ids.next, ScopeOfRun(a, repo, changedPaths, removedPaths);
    gone, cleaned := {}, {};
    NothingPublished(b.published);
    ghost var b0, t0 := b.db, b.written;
    var r, rows := b.GetFilesByRepositoryID(repo);
    out := FromCall(r);
    FailureKept(out, c);
    StillDiscarded(a, b0, b.db, t0, b.written, v0, b.vectors, {}, {}, lo);
    SameFilesStart(a, b.db, b.written, v0, b.vectors, lo, repo);
    NothingAtPaths(a, repo, paths);
    EffectOfDiscard(a, b.db, repo, c, lo, b.written, {}, {}, paths, v0, b.vectors);
    if !r.Done? { return; }

    var legacy, byRelPath := IndexByPath(rows, b.db, repo);
    if legacy {
      out, gone, cleaned := ProcessFull(b, ids, repo, c, true, a, v0);
      PushAppliedFull(a, b.db, repo, c, changedPaths, removedPaths, gone, b.written, b.published);
      return;
    }

    var changed := GoFiles(changedPaths);
    var removed := GoFiles(removedPaths);
    if |changed| == 0 && |removed| == 0 {
      DriftKeys(a, b.db, b.written);
      NonePublished(a, b.db, b.published);
      NothingMentioned(changedPaths, removedPaths);
      PushAppliedEmpty(a, b.db, repo, c, changedPaths, removedPaths, b.written, b.published);
      return;
    }
    MentionedPaths(a, repo, changedPaths, removedPaths);

    var left;
    out, left, gone, cleaned := DiscardTouched(b, repo, byRelPath, changed + removed, a, v0, lo, paths);
    FailureKept(out, c);
    EffectOfDiscard(a, b.db, repo, c, lo, b.written, gone, cleaned, paths, v0, b.vectors);
    if !out.Success? { return; }
    ghost var a1, t1 := b.db, b.written;
    DiscardedDriftOnly(a, a1, t1, v0, b.vectors, gone, cleaned, lo);
    NoneLeft(a1, repo, left, changed + removed);
    AllGone(a, a1, t1, repo, gone, paths);
    SameRepos(a, a1, t1, gone);

    ghost var calls, imports;
    out, calls, imports := RebuildTouched(b, ids, repo, c, left, changed, removed, a, v0, gone, cleaned, paths);
    if !out.Success? { return; }
    RebuiltFromRun(a, a1, b.db, t1, repo, c, gone, paths, b.published, calls, imports);
    PushAppliedNow(a, b.db, repo, c, changedPaths, removedPaths, gone, b.written, b.published);
  }

  lemma SameRepos(a: DB, a1: DB, t: Writes, gone: set<Id>)
    requires Drift(DeleteFiles(a, gone), a1, t)
    ensures a1.repos == a.repos
  {
  }

  /** Reading the symbols back changes nothing but worker columns. */
  lemma AfterReading(a1: DB, b: DB, b': DB, t: Writes, t': Writes, m: map<Abs, Id>, repo: Id, c: Clone, lo: Id, hi: Id,
                     symbols: seq<Symbol>)
    requires Partial(a1, b, t, m, repo, c.root, lo, hi) && HasEdges(a1, b, [], []) && t <= t' && Drift(b, b', t')
    requires OnDisk(c, m) && HasSymbols(b, c, m, symbols, repo) && HasChunks(b, c, m, symbols, repo, {})
    requires b.chunks.Keys == a1.chunks.Keys
    ensures Partial(a1, b', t', m, repo, c.root, lo, hi) && HasEdges(a1, b', [], [])
    ensures HasSymbols(b', c, m, symbols, repo) && HasChunks(b', c, m, symbols, repo, {})
    ensures b'.chunks.Keys == a1.chunks.Keys
  {
    CarryFiles(b, b', t', c, m, symbols, repo, {});
    hide HasSymbols, HasChunks;
    DriftKeys(b, b', t');
    hide Drift, Partial, Sound, Below;
    EdgesStageDrift(a1, b, b', t, t', m, repo, c.root, lo, hi);
  }

  lemma EdgesStageDrift(a1: DB, b: DB, b': DB, t: Writes, t': Writes, m: map<Abs, Id>, repo: Id, root: Abs, lo: Id,
                        hi: Id)
    requires Partial(a1, b, t, m, repo, root, lo, hi) && HasEdges(a1, b, [], []) && t <= t' && Drift(b, b', t')
    ensures Partial(a1, b', t', m, repo, root, lo, hi) && HasEdges(a1, b', [], [])
  {
    NoEdges(b, []);
    hide Partial, Drift, HasEdges;
    EdgesStage(a1, b, b', t, t', m, repo, root, lo, hi, [], []);
  }
}
