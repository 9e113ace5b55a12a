/** What the runs guarantee together: the incremental path against the full one, interrupted runs, and the
    repositories a run is not about. */
module Refinement {
  import opened Base
  import opened Paths
  import opened SourceTree
  import opened Symbols
  import opened Chunker
  import opened Tables
  import opened Index
  import opened Runs
  import opened Pipeline

  // ---------- Rows of the files a run leaves alone ----------

  /** File f is in both stores with the very same rows; only worker writes may have changed its chunks. */
  ghost predicate SameRowsOf(a: DB, b: DB, t: Writes, f: Id) {
    f in a.files && f in b.files && b.files[f] == a.files[f] && SymbolsKept(a, b, f) && ChunksKept(a, b, t, f)
  }

  /** At every prefix of a run, a file it was not asked about keeps its rows, their ids and its embeddings. */
  lemma UntouchedRows(r: Run, repo: Id, paths: iset<Rel>, f: Id)
    requires Sound(r.start) && Below(r.start, r.lo) && Confined(r, repo, paths) && f in r.start.files
    requires r.start.files[f].repo != repo || (r.start.files[f].path.RelPath? && r.start.files[f].path.rel !in paths)
    ensures f !in r.gone && SameRowsOf(r.start, r.stop, r.t, f)
  {
    assert f !in r.gone && Grows(DeleteFiles(r.start, r.gone), r.stop, repo, r.lo, r.t);
    hide Confined, Replaces, Below, Grows, DeleteFiles, UniquePaths, UniqueExternalIds, CallsSound, ImportsSound;
    hide SymbolsKept, ChunksKept, SymbolsSound, ChunksSound;
    SurvivingSymbols(r.start, r.stop, repo, r.lo, r.t, r.gone, f);
    SurvivingChunks(r.start, r.stop, repo, r.lo, r.t, r.gone, f);
  }

  lemma CleanFrameBack(a: DB, b: DB, r: Id, lo: Id, t: Writes, gone: set<Id>, paths: iset<Rel>, tree: Tree, p: Rel)
    requires Sound(a) && Below(a, lo) && Replaces(a, b, r, lo, t, gone, paths) && p !in paths
    requires CleanAt(b, r, tree, p)
    ensures CleanAt(a, r, tree, p)
  {
    hide Sound, Below, Grows, DeleteFiles, Listed;
    match Expected(tree, p) {
      case Some(src) =>
        var f, sids, cids :| Listed(b, r, p, src, f, sids, cids);
        ListedBack(a, b, r, lo, t, gone, paths, p, src, f, sids, cids);
      case None =>
        forall f | f in a.files ensures a.files[f] != FileRow(r, RelPath(p)) {
          if a.files[f] == FileRow(r, RelPath(p)) {
            SurvivingSymbols(a, b, r, lo, t, gone, f);
          }
        }
    }
  }

  lemma ListedBack(a: DB, b: DB, r: Id, lo: Id, t: Writes, gone: set<Id>, paths: iset<Rel>, p: Rel, src: SourceFile,
                   f: Id, sids: seq<Id>, cids: seq<Id>)
    requires Sound(a) && Below(a, lo) && Replaces(a, b, r, lo, t, gone, paths) && p !in paths
    requires Listed(b, r, p, src, f, sids, cids)
    ensures Listed(a, r, p, src, f, sids, cids)
  {
    OldRow(a, b, r, lo, t, gone, paths, p, f) by { assert FileAt(b, r, p, f); }
    assert SymbolsSound(a) && ChunksSound(a);
    hide *;
    SurvivingSymbols(a, b, r, lo, t, gone, f);
    SurvivingChunks(a, b, r, lo, t, gone, f);
    KeptBack(a, b, r, t, p, src, f, sids, cids);
  }

  lemma KeptBack(a: DB, b: DB, r: Id, t: Writes, p: Rel, src: SourceFile, f: Id, sids: seq<Id>, cids: seq<Id>)
    requires f in a.files && f in b.files && a.files[f] == b.files[f] && SymbolsKept(a, b, f) && ChunksKept(a, b, t, f)
    requires Listed(b, r, p, src, f, sids, cids)
    ensures Listed(a, r, p, src, f, sids, cids)
  {
    hide SymbolsListed, ChunksListed, WroteEmbedding, WroteSummary;
    SymbolsFrame(b.symbols, a.symbols, r, f, SymbolsOf(src), sids);
    ChunksFrame(b.chunks, a.chunks, r, f, ChunksOf(src), sids, cids);
  }

  lemma OldRow(a: DB, b: DB, r: Id, lo: Id, t: Writes, gone: set<Id>, paths: iset<Rel>, p: Rel, f: Id)
    requires Below(a, lo) && Replaces(a, b, r, lo, t, gone, paths) && p !in paths && FileAt(b, r, p, f)
    ensures f in a.files && f !in gone && Grows(DeleteFiles(a, gone), b, r, lo, t)
  {
    hide KeepCalls, KeepImports, SymbolsGrow, ChunksGrow, EdgesGrow;
    assert f in a.files;
    assert f in DeleteFiles(a, gone).files;
  }

  lemma GrownFiles(d: DB, b: DB, r: Id, lo: Id, t: Writes, f: Id)
    requires Grows(d, b, r, lo, t) && f in b.files && f < lo
    ensures f in d.files
  {
  }

  // ---------- Incremental refines full ----------

  ghost predicate GoTree(tree: Tree) { forall p :: p in tree && tree[p].built ==> IsGo(p) }

  ghost predicate Mentioned(changed: seq<Rel>, removed: seq<Rel>, p: Rel) { IsGo(p) && (p in changed || p in removed) }

  /** The lists mention every Go file whose rows differ, and list as removed only files that are not there any more
      (a file that is in both lists counts as changed). */
  ghost predicate CoversDiff(before: Tree, after: Tree, changed: seq<Rel>, removed: seq<Rel>) {
    && (forall p :: !Mentioned(changed, removed, p) ==> SameYield(before, after, p))
    && (forall p :: IsGo(p) && p in removed && p !in changed ==> Expected(after, p).None?)
  }

  lemma NoLegacyStays(r: Run, repo: Id, paths: iset<Rel>)
    requires Below(r.start, r.lo) && NoLegacy(r.start, repo) && Confined(r, repo, paths)
    ensures NoLegacy(r.stop, repo)
  {
    hide KeepCalls, KeepImports;
    forall f | f in r.stop.files && r.stop.files[f].repo == repo ensures r.stop.files[f].path.RelPath? {
      if f in r.start.files {
        GrownFiles(DeleteFiles(r.start, r.gone), r.stop, repo, r.lo, r.t, f);
        assert r.stop.files[f] == r.start.files[f];
      }
    }
  }

  ghost function PathsIn(changed: seq<Rel>, removed: seq<Rel>): (paths: iset<Rel>)
    ensures forall p :: p in paths <==> Mentioned(changed, removed, p)
  {
    iset p | Mentioned(changed, removed, p)
  }

  /** The rows at the paths of the lists are as the tree has them. */
  ghost predicate ListsApplied(b: DB, repo: Id, tree: Tree, changed: seq<Rel>, removed: seq<Rel>) {
    && (forall p :: IsGo(p) && p in changed ==> CleanAt(b, repo, tree, p))
    && (forall p :: IsGo(p) && p in removed && p !in changed ==> Absent(b, repo, p))
  }

  /** A successful incremental run for the lists, on an index without absolute paths. */
  ghost predicate AppliedRun(r: Run, repo: Id, c: Clone, changed: seq<Rel>, removed: seq<Rel>) {
    && Sound(r.start) && Below(r.start, r.lo) && NoLegacy(r.start, repo)
    && Confined(r, repo, PathsIn(changed, removed))
    && ListsApplied(r.stop, repo, c.tree, changed, removed)
  }

  /** This is what the pipeline's contract gives: at any stop the run is confined to the mentioned paths, and a
      successful one applied the lists. */
  lemma AppliedByContract(r: Run, repo: Id, c: Clone, changed: seq<Rel>, removed: seq<Rel>, published: seq<Id>)
    requires Sound(r.start) && Below(r.start, r.lo) && NoLegacy(r.start, repo)
    requires Effect(r, repo, ScopeOfRun(r.start, repo, changed, removed))
    ensures Confined(r, repo, PathsIn(changed, removed))
    ensures PushApplied(r.start, r.stop, repo, c, changed, removed, r.gone, r.t, published) ==>
              AppliedRun(r, repo, c, changed, removed)
  {
    EffectParts(r, repo, ScopeOfRun(r.start, repo, changed, removed));
    ScopeIsMentioned(r.start, repo, changed, removed);
    hide Sound, Below, Effect, Confined, NoLegacy, ListsApplied, PushApplied, ScopeOfRun, PathsIn;
    if PushApplied(r.start, r.stop, repo, c, changed, removed, r.gone, r.t, published) {
      PushParts(r.start, r.stop, repo, c, changed, removed, r.gone, r.t, published);
    }
  }

  lemma ScopeIsMentioned(a: DB, repo: Id, changed: seq<Rel>, removed: seq<Rel>)
    requires NoLegacy(a, repo)
    ensures ScopeOfRun(a, repo, changed, removed) == PathsIn(changed, removed)
  {
    MentionedPaths(a, repo, changed, removed);
    assert forall p :: p in ScopeOfRun(a, repo, changed, removed) <==> p in PathsIn(changed, removed);
  }

  /** Which trees a successful incremental run makes the index of: exactly when every path the push does not mention
      was already as the cloned tree has it, and no path listed as removed is in that tree. */
  lemma IncrementalMakesFullIff(r: Run, repo: Id, c: Clone, changed: seq<Rel>, removed: seq<Rel>)
    requires AppliedRun(r, repo, c, changed, removed)
    ensures FullIndex(r.stop, repo, c.tree) <==>
            && (forall p :: !Mentioned(changed, removed, p) ==> CleanAt(r.start, repo, c.tree, p))
            && (forall p :: IsGo(p) && p in removed && p !in changed ==> Expected(c.tree, p).None?)
  {
    AppliedFacts(r, repo, c, changed, removed);
    hide *;
    forall p ensures !Mentioned(changed, removed, p) ==>
        (CleanAt(r.stop, repo, c.tree, p) <==> CleanAt(r.start, repo, c.tree, p))
    {
      if !Mentioned(changed, removed, p) { AppliedUnmentioned(r, repo, c, changed, removed, c.tree, p); }
    }
    forall p | IsGo(p) && p in removed && p !in changed
      ensures CleanAt(r.stop, repo, c.tree, p) <==> Expected(c.tree, p).None?
    {
      AbsentOrIndexed(r.stop, repo, c.tree, p);
    }
    Split(r.stop, repo, c.tree, changed, removed);
  }

  lemma AppliedFacts(r: Run, repo: Id, c: Clone, changed: seq<Rel>, removed: seq<Rel>)
    requires AppliedRun(r, repo, c, changed, removed)
    ensures Sound(r.start) && Below(r.start, r.lo) && NoLegacy(r.start, repo) && NoLegacy(r.stop, repo)
    ensures Confined(r, repo, PathsIn(changed, removed))
    ensures forall p :: IsGo(p) && p in changed ==> CleanAt(r.stop, repo, c.tree, p)
    ensures forall p :: IsGo(p) && p in removed && p !in changed ==> Absent(r.stop, repo, p)
  {
    hide Sound, Below, Confined, NoLegacy, CleanAt, Absent;
    NoLegacyStays(r, repo, PathsIn(changed, removed));
  }

  lemma AppliedUnmentioned(r: Run, repo: Id, c: Clone, changed: seq<Rel>, removed: seq<Rel>, tree: Tree, p: Rel)
    requires AppliedRun(r, repo, c, changed, removed) && !Mentioned(changed, removed, p)
    ensures CleanAt(r.stop, repo, tree, p) <==> CleanAt(r.start, repo, tree, p)
  {
    hide Sound, Below, Confined, NoLegacy, CleanAt, Absent, Mentioned;
    SameUnmentioned(r, repo, PathsIn(changed, removed), tree, p);
  }

  lemma AppliedUntouched(r: Run, repo: Id, c: Clone, changed: seq<Rel>, removed: seq<Rel>, f: Id)
    requires AppliedRun(r, repo, c, changed, removed)
    requires f in r.start.files && r.start.files[f].repo == repo
    ensures r.start.files[f].path.RelPath?
    ensures !Mentioned(changed, removed, r.start.files[f].path.rel) ==> SameRowsOf(r.start, r.stop, r.t, f)
  {
    AppliedFacts(r, repo, c, changed, removed);
    RelativePath(r.start, repo, f);
    hide AppliedRun, Sound, Below, Confined, NoLegacy, CleanAt, Absent, Mentioned, SameRowsOf;
    if !Mentioned(changed, removed, r.start.files[f].path.rel) {
      UntouchedRows(r, repo, PathsIn(changed, removed), f);
    }
  }

  lemma PushParts(a: DB, b: DB, repo: Id, c: Clone, changed: seq<Rel>, removed: seq<Rel>, gone: set<Id>, t: Writes,
                  published: seq<Id>)
    requires NoLegacy(a, repo) && PushApplied(a, b, repo, c, changed, removed, gone, t, published)
    ensures forall p :: Mentioned(changed, removed, p) <==> p in ScopeOfRun(a, repo, changed, removed)
    ensures forall p :: IsGo(p) && p in changed ==> CleanAt(b, repo, c.tree, p)
    ensures forall p :: IsGo(p) && p in removed && p !in changed ==> Absent(b, repo, p)
  {
    MentionedPaths(a, repo, changed, removed);
  }

  lemma SameUnmentioned(r: Run, repo: Id, paths: iset<Rel>, tree: Tree, p: Rel)
    requires Sound(r.start) && Below(r.start, r.lo) && Confined(r, repo, paths) && p !in paths
    ensures CleanAt(r.stop, repo, tree, p) <==> CleanAt(r.start, repo, tree, p)
  {
    assert Replaces(r.start, r.stop, repo, r.lo, r.t, r.gone, paths);
    hide *;
    if CleanAt(r.start, repo, tree, p) {
      CleanFrame(r.start, r.stop, repo, r.lo, r.t, r.gone, paths, tree, p);
    }
    if CleanAt(r.stop, repo, tree, p) {
      CleanFrameBack(r.start, r.stop, repo, r.lo, r.t, r.gone, paths, tree, p);
    }
  }

  lemma AbsentOrIndexed(b: DB, repo: Id, tree: Tree, p: Rel)
    requires Absent(b, repo, p)
    ensures CleanAt(b, repo, tree, p) <==> Expected(tree, p).None?
  {
    hide SymbolsListed, ChunksListed;
  }

  lemma Split(b: DB, repo: Id, tree: Tree, changed: seq<Rel>, removed: seq<Rel>)
    requires NoLegacy(b, repo)
    requires forall p :: IsGo(p) && p in changed ==> CleanAt(b, repo, tree, p)
    ensures FullIndex(b, repo, tree) <==>
            && (forall p :: !Mentioned(changed, removed, p) ==> CleanAt(b, repo, tree, p))
            && (forall p :: IsGo(p) && p in removed && p !in changed ==> CleanAt(b, repo, tree, p))
  {
    hide NoLegacy, CleanAt;
    if (forall p :: !Mentioned(changed, removed, p) ==> CleanAt(b, repo, tree, p)) &&
       (forall p :: IsGo(p) && p in removed && p !in changed ==> CleanAt(b, repo, tree, p)) {
      forall p ensures CleanAt(b, repo, tree, p) {
        assert !Mentioned(changed, removed, p) || p in changed || p in removed;
      }
    }
  }

  /** From the full index of the old tree, with lists that cover the difference, an incremental run leaves the index
      a full run on the new tree leaves, row for row up to ids; and the files it was not asked about keep
      their very rows. */
  lemma IncrementalRefinesFull(before: Tree, r: Run, repo: Id, c: Clone, changed: seq<Rel>, removed: seq<Rel>,
                               full: DB, fullRepo: Id)
    requires AppliedRun(r, repo, c, changed, removed)
    requires FullIndex(r.start, repo, before) && CoversDiff(before, c.tree, changed, removed)
    requires FullIndex(full, fullRepo, c.tree)
    ensures FullIndex(r.stop, repo, c.tree)
    ensures forall p :: SameAt(r.stop, repo, full, fullRepo, p)
    ensures forall f :: f in r.start.files && r.start.files[f].repo == repo ==>
        r.start.files[f].path.RelPath? &&
        (!Mentioned(changed, removed, r.start.files[f].path.rel) ==> SameRowsOf(r.start, r.stop, r.t, f))
  {
    hide AppliedRun, CleanAt, SameAt, SameRowsOf, Mentioned;
    forall p | !Mentioned(changed, removed, p) ensures CleanAt(r.start, repo, c.tree, p) {
      SameYieldClean(r.start, repo, before, c.tree, p);
    }
    IncrementalMakesFullIff(r, repo, c, changed, removed);
    forall p ensures SameAt(r.stop, repo, full, fullRepo, p) {
      CleanIsUnique(r.stop, repo, full, fullRepo, c.tree, p);
    }
    forall f | f in r.start.files && r.start.files[f].repo == repo
      ensures r.start.files[f].path.RelPath?
      ensures !Mentioned(changed, removed, r.start.files[f].path.rel) ==> SameRowsOf(r.start, r.stop, r.t, f)
    {
      AppliedUntouched(r, repo, c, changed, removed, f);
    }
  }

  // ---------- Interrupted runs ----------

  /** An incremental run interrupted anywhere, then run again for the same message on the same clone, leaves the files,
      symbols and chunks an uninterrupted run leaves: the same up to ids at mentioned paths, the very rows there
      were at the others. */
  lemma CrashReplay(stopped: Run, again: Run, straight: Run, repo: Id, c: Clone, changed: seq<Rel>, removed: seq<Rel>)
    requires Confined(stopped, repo, PathsIn(changed, removed))
    requires again.start == stopped.stop && again.lo == stopped.hi
    requires straight.start == stopped.start && straight.lo == stopped.lo
    requires AppliedRun(again, repo, c, changed, removed)
    requires AppliedRun(straight, repo, c, changed, removed)
    ensures forall p :: Mentioned(changed, removed, p) ==> SameAt(again.stop, repo, straight.stop, repo, p)
    ensures forall tree, p :: !Mentioned(changed, removed, p) ==>
        (CleanAt(again.stop, repo, tree, p) <==> CleanAt(straight.stop, repo, tree, p))
    ensures forall f :: f in straight.start.files && straight.start.files[f].repo == repo ==>
        straight.start.files[f].path.RelPath? &&
        (!Mentioned(changed, removed, straight.start.files[f].path.rel) ==>
           SameRowsOf(stopped.start, stopped.stop, stopped.t, f) && SameRowsOf(again.start, again.stop, again.t, f)
           && SameRowsOf(straight.start, straight.stop, straight.t, f))
  {
    AppliedFacts(again, repo, c, changed, removed);
    AppliedFacts(straight, repo, c, changed, removed);
    assert forall p :: p in PathsIn(changed, removed) <==> Mentioned(changed, removed, p);
    hide *;
    forall p ensures Mentioned(changed, removed, p) ==> SameAt(again.stop, repo, straight.stop, repo, p) {
      if Mentioned(changed, removed, p) {
        MentionedIs(changed, removed, p);
        if p in changed {
          CleanIsUnique(again.stop, repo, straight.stop, repo, c.tree, p);
        } else {
          BothAbsent(again.stop, repo, straight.stop, repo, p);
        }
      }
    }
    forall tree, p ensures !Mentioned(changed, removed, p) ==>
        (CleanAt(again.stop, repo, tree, p) <==> CleanAt(straight.stop, repo, tree, p))
    {
      if !Mentioned(changed, removed, p) {
        SameUnmentioned(stopped, repo, PathsIn(changed, removed), tree, p);
        AppliedUnmentioned(again, repo, c, changed, removed, tree, p);
        AppliedUnmentioned(straight, repo, c, changed, removed, tree, p);
      }
    }
    forall f | f in straight.start.files && straight.start.files[f].repo == repo
      ensures straight.start.files[f].path.RelPath?
      ensures !Mentioned(changed, removed, straight.start.files[f].path.rel) ==>
           SameRowsOf(stopped.start, stopped.stop, stopped.t, f) && SameRowsOf(again.start, again.stop, again.t, f)
           && SameRowsOf(straight.start, straight.stop, straight.t, f)
    {
      AppliedUntouched(straight, repo, c, changed, removed, f);
      if !Mentioned(changed, removed, straight.start.files[f].path.rel) {
        UntouchedRows(stopped, repo, PathsIn(changed, removed), f);
        SameRowOf(stopped.start, stopped.stop, stopped.t, f);
        AppliedUntouched(again, repo, c, changed, removed, f);
      }
    }
  }

  lemma MentionedIs(changed: seq<Rel>, removed: seq<Rel>, p: Rel)
    requires Mentioned(changed, removed, p)
    ensures IsGo(p) && (p in changed || p in removed)
  {
  }

  lemma BothAbsent(a: DB, ra: Id, b: DB, rb: Id, p: Rel)
    requires Absent(a, ra, p) && Absent(b, rb, p)
    ensures SameAt(a, ra, b, rb, p)
  {
  }

  lemma RelativePath(a: DB, repo: Id, f: Id)
    requires NoLegacy(a, repo) && f in a.files && a.files[f].repo == repo
    ensures a.files[f].path.RelPath?
  {
  }

  lemma SameRowOf(a: DB, b: DB, t: Writes, f: Id)
    requires SameRowsOf(a, b, t, f)
    ensures f in b.files && f in a.files && b.files[f] == a.files[f]
  {
  }
}
