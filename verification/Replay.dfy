/** Redelivery: a run for a message that stopped anywhere, then another run for it, against one that was never
    interrupted. */
module Replay {
  import opened Base
  import opened Paths
  import opened SourceTree
  import opened Tables
  import opened Backends
  import opened Index
  import opened Discards
  import opened Rebuild
  import opened Runs
  import opened Pipeline
  import opened Messages
  import opened Refinement

  /** A run for the message that did all it was asked. */
  ghost predicate Succeeded(a: DB, from: Id, repo: Id, c: Clone, input: RepositoryInput, r: Run, published: seq<Id>) {
    Ran(a, from, repo, c, input, r) && Applied(a, r.start, r.stop, repo, c, input, r.gone, r.t, published)
  }

  // ---------- Likeness of two indexes at a path ----------

  /** File f is in both stores with the very same symbols and chunks, ids included, the workers' columns aside. */
  ghost predicate VeryRows(x: DB, y: DB, f: Id) {
    && f in x.files && f in y.files && x.files[f] == y.files[f]
    && (forall s :: s in x.symbols && x.symbols[s].file == f ==> s in y.symbols && y.symbols[s] == x.symbols[s])
    && (forall s :: s in y.symbols && y.symbols[s].file == f ==> s in x.symbols && x.symbols[s] == y.symbols[s])
    && (forall c :: c in x.chunks && x.chunks[c].file == f ==> c in y.chunks && Core(y.chunks[c]) == Core(x.chunks[c]))
    && (forall c :: c in y.chunks && y.chunks[c].file == f ==> c in x.chunks && Core(x.chunks[c]) == Core(y.chunks[c]))
  }

  /** The same rows up to a renaming of ids, or the very same rows. */
  ghost predicate Alike(x: DB, rx: Id, y: DB, ry: Id, p: Rel) {
    SameAt(x, rx, y, ry, p) || exists f :: FileAt(x, rx, p, f) && FileAt(y, ry, p, f) && VeryRows(x, y, f)
  }

  lemma SameFile(x: ChunkRow, y: ChunkRow)
    requires Core(x) == Core(y)
    ensures x.file == y.file
  {
    assert Core(x).file == Core(y).file;
  }

  lemma VeryRowsJoin(a: DB, x: DB, y: DB, f: Id)
    requires VeryRows(a, x, f) && VeryRows(a, y, f)
    ensures VeryRows(x, y, f)
  {
    forall c | c in x.chunks && x.chunks[c].file == f ensures c in y.chunks && Core(y.chunks[c]) == Core(x.chunks[c]) {
      SameFile(a.chunks[c], x.chunks[c]);
    }
    forall c | c in y.chunks && y.chunks[c].file == f ensures c in x.chunks && Core(x.chunks[c]) == Core(y.chunks[c]) {
      SameFile(a.chunks[c], y.chunks[c]);
    }
  }

  lemma VeryRowsTrans(a: DB, x: DB, y: DB, f: Id)
    requires VeryRows(a, x, f) && VeryRows(x, y, f)
    ensures VeryRows(a, y, f)
  {
    forall c | c in a.chunks && a.chunks[c].file == f ensures c in y.chunks && Core(y.chunks[c]) == Core(a.chunks[c]) {
      SameFile(a.chunks[c], x.chunks[c]);
    }
    forall c | c in y.chunks && y.chunks[c].file == f ensures c in a.chunks && Core(a.chunks[c]) == Core(y.chunks[c]) {
      SameFile(x.chunks[c], y.chunks[c]);
    }
  }

  lemma KeptAreVery(a: DB, b: DB, t: Writes, f: Id)
    requires SameRowsOf(a, b, t, f)
    ensures VeryRows(a, b, f)
  {
    hide WroteEmbedding, WroteSummary;
    forall c | c in b.chunks && b.chunks[c].file == f ensures c in a.chunks && Core(a.chunks[c]) == Core(b.chunks[c]) {
      assert SameChunk(c, a.chunks[c], b.chunks[c], t);
    }
  }

  lemma DriftedAreVery(a: DB, b: DB, t: Writes, f: Id)
    requires b.files == a.files && b.symbols == a.symbols && SameChunks(a.chunks, b.chunks, t) && f in a.files
    ensures VeryRows(a, b, f)
  {
    hide WroteEmbedding, WroteSummary;
    forall c | c in b.chunks && b.chunks[c].file == f ensures c in a.chunks && Core(a.chunks[c]) == Core(b.chunks[c]) {
      assert SameChunk(c, a.chunks[c], b.chunks[c], t);
    }
  }

  // ---------- One run for a message ----------

  ghost predicate RecordIs(a: DB, from: Id, repo: Id, ext: string) {
    Sound(a) && Below(a, from) && repo in a.repos && a.repos[repo].ext == ext
  }

  /** The record is known and no absolute path is left: an incremental message gets an incremental run. */
  ghost predicate Baseline(a: DB, repo: Id, ext: string) {
    repo in a.repos && a.repos[repo].ext == ext && NoLegacy(a, repo)
  }

  lemma RunRecord(a: DB, from: Id, repo: Id, ext: string, q: Id, c: Clone, input: RepositoryInput, r: Run)
    requires RecordIs(a, from, repo, ext) && input.ext == ext && Ran(a, from, q, c, input, r)
    ensures q == repo && Known(a, ext) && RecordIs(r.stop, r.hi, repo, ext)
    ensures NoLegacy(r.start, repo) <==> NoLegacy(a, repo)
    ensures FullRun(a, r.start, repo, input) <==> !input.incremental || !NoLegacy(a, repo)
  {
    MidTables(a, from, q, c, input, r);
    hide Effect, Confined;
  }

  /** A full run that succeeds makes the full index of its clone. */
  lemma FullEnds(a: DB, from: Id, repo: Id, c: Clone, input: RepositoryInput, r: Run, published: seq<Id>)
    requires Succeeded(a, from, repo, c, input, r, published) && FullRun(a, r.start, repo, input)
    ensures FullIndex(r.stop, repo, c.tree)
  {
    hide NoLegacy, FullIndex, Rebuilt, Ran;
  }

  /** An incremental run that succeeds leaves the rows its lists ask for. */
  lemma ListsEnd(a: DB, from: Id, repo: Id, c: Clone, input: RepositoryInput, r: Run, published: seq<Id>)
    requires Succeeded(a, from, repo, c, input, r, published) && !FullRun(a, r.start, repo, input)
    ensures ListsApplied(r.stop, repo, c.tree, input.changed, input.removed)
  {
    assert PushApplied(r.start, r.stop, repo, c, input.changed, input.removed, r.gone, r.t, published);
    hide Succeeded, NoLegacy, PushApplied, CleanAt, Absent;
    PushParts(r.start, r.stop, repo, c, input.changed, input.removed, r.gone, r.t, published);
  }

  /** No absolute path is left after a run that succeeds, of either kind. */
  lemma NoAbsolutePaths(a: DB, from: Id, repo: Id, c: Clone, input: RepositoryInput, r: Run, published: seq<Id>)
    requires Succeeded(a, from, repo, c, input, r, published)
    ensures NoLegacy(r.stop, repo)
  {
    assert Ran(a, from, repo, c, input, r);
    MidTables(a, from, repo, c, input, r);
    hide Succeeded, Ran, NoLegacy, Confined, Below, Sound, SameChunks;
    if FullRun(a, r.start, repo, input) {
      FullEnds(a, from, repo, c, input, r, published);
    } else {
      NoLegacyStays(r, repo, PathsOfRun(a, r.start, repo, input));
    }
  }

  /** Wherever it stops, an incremental run leaves every path its message does not mention as it found it. */
  lemma Leaves(a: DB, from: Id, repo: Id, c: Clone, input: RepositoryInput, r: Run, p: Rel)
    requires Ran(a, from, repo, c, input, r) && !FullRun(a, r.start, repo, input)
    requires !Mentioned(input.changed, input.removed, p)
    ensures forall f :: FileAt(a, repo, p, f) ==> VeryRows(a, r.stop, f)
    ensures Absent(a, repo, p) ==> Absent(r.stop, repo, p)
  {
    MidTables(a, from, repo, c, input, r);
    ScopeIsMentioned(r.start, repo, input.changed, input.removed);
    var paths := PathsOfRun(a, r.start, repo, input);
    assert p !in paths && paths == PathsIn(input.changed, input.removed);
    hide Ran, Sound, Below, Confined, SameChunks, VeryRows, Mentioned, PathsOfRun, NoLegacy, FullRun;
    forall f | FileAt(a, repo, p, f) ensures VeryRows(a, r.stop, f) {
      UntouchedRows(r, repo, paths, f);
      KeptAreVery(r.start, r.stop, r.t, f);
      DriftedAreVery(a, r.start, r.t, f);
      VeryRowsTrans(a, r.start, r.stop, f);
    }
    if Absent(a, repo, p) {
      AbsentIsClean(r.start, repo, p);
      AbsentIsClean(r.stop, repo, p);
      hide Absent, CleanAt;
      SameUnmentioned(r, repo, paths, map[], p);
    }
  }

  lemma AbsentIsClean(b: DB, repo: Id, p: Rel)
    ensures CleanAt(b, repo, map[], p) <==> Absent(b, repo, p)
  {
  }

  // ---------- When redelivery is harmless ----------

  ghost predicate AllChanged(tree: Tree, changed: seq<Rel>) {
    forall p :: Expected(tree, p).Some? ==> IsGo(p) && p in changed
  }

  ghost predicate AllMentioned(tree: Tree, changed: seq<Rel>, removed: seq<Rel>) {
    forall p :: Expected(tree, p).Some? ==> Mentioned(changed, removed, p)
  }

  /** What a caller can check before the first delivery: the message asks for a full run; or there is a record and no
      absolute path; or the message names everything the clones hold. */
  ghost predicate ReplaySafe(a: DB, first: Clone, c: Clone, input: RepositoryInput) {
    || !input.incremental
    || (exists repo :: Baseline(a, repo, input.ext))
    || (AllChanged(c.tree, input.changed) && AllMentioned(first.tree, input.changed, input.removed))
  }

  lemma IsBaseline(a: DB, repo: Id, ext: string)
    ensures Baseline(a, repo, ext) <==> repo in a.repos && a.repos[repo].ext == ext && NoLegacy(a, repo)
  {
  }

  lemma BothIndexed(x: DB, rx: Id, y: DB, ry: Id, tree: Tree, p: Rel)
    requires CleanAt(x, rx, tree, p) && CleanAt(y, ry, tree, p)
    ensures Alike(x, rx, y, ry, p)
  {
    CleanIsUnique(x, rx, y, ry, tree, p);
  }

  lemma BothKept(a: DB, x: DB, y: DB, repo: Id, p: Rel)
    requires forall f :: FileAt(a, repo, p, f) ==> VeryRows(a, x, f) && VeryRows(a, y, f)
    requires Absent(a, repo, p) ==> Absent(x, repo, p) && Absent(y, repo, p)
    ensures Alike(x, repo, y, repo, p)
  {
    if Absent(a, repo, p) {
      BothAbsent(x, repo, y, repo, p);
    } else {
      var f :| f in a.files && a.files[f] == FileRow(repo, RelPath(p));
      assert FileAt(a, repo, p, f) && VeryRows(a, x, f) && FileAt(x, repo, p, f) && FileAt(y, repo, p, f);
      VeryRowsJoin(a, x, y, f);
    }
  }

  lemma MentionedDone(x: DB, y: DB, repo: Id, tree: Tree, changed: seq<Rel>, removed: seq<Rel>, p: Rel)
    requires ListsApplied(x, repo, tree, changed, removed) && ListsApplied(y, repo, tree, changed, removed)
    requires Mentioned(changed, removed, p)
    ensures Alike(x, repo, y, repo, p)
  {
    hide CleanAt, Alike;
    if p in changed {
      BothIndexed(x, repo, y, repo, tree, p);
    } else {
      BothAbsent(x, repo, y, repo, p);
      assert SameAt(x, repo, y, repo, p);
      SameIsAlike(x, repo, y, repo, p);
    }
  }

  lemma SameIsAlike(x: DB, rx: Id, y: DB, ry: Id, p: Rel)
    requires SameAt(x, rx, y, ry, p)
    ensures Alike(x, rx, y, ry, p)
  {
  }

  /** Every run for the message was incremental. */
  lemma ReplayIncremental(a: DB, from: Id, first: Clone, c: Clone, input: RepositoryInput, repo: Id, stopped: Run,
                          again: Run, published: seq<Id>, straight: Run, published': seq<Id>, p: Rel)
    requires Ran(a, from, repo, first, input, stopped) && !FullRun(a, stopped.start, repo, input)
    requires Succeeded(stopped.stop, stopped.hi, repo, c, input, again, published)
    requires !FullRun(stopped.stop, again.start, repo, input)
    requires Succeeded(a, from, repo, c, input, straight, published') && !FullRun(a, straight.start, repo, input)
    ensures Alike(again.stop, repo, straight.stop, repo, p)
  {
    assert Ran(stopped.stop, stopped.hi, repo, c, input, again) && Ran(a, from, repo, c, input, straight);
    ListsEnd(stopped.stop, stopped.hi, repo, c, input, again, published);
    ListsEnd(a, from, repo, c, input, straight, published');
    hide *;
    if Mentioned(input.changed, input.removed, p) {
      MentionedDone(again.stop, straight.stop, repo, c.tree, input.changed, input.removed, p);
    } else {
      Leaves(a, from, repo, first, input, stopped, p);
      Leaves(stopped.stop, stopped.hi, repo, c, input, again, p);
      Leaves(a, from, repo, c, input, straight, p);
      forall f | FileAt(a, repo, p, f) ensures VeryRows(a, again.stop, f) && VeryRows(a, straight.stop, f) {
        VeryStaysAt(a, stopped.stop, repo, p, f);
        VeryRowsTrans(a, stopped.stop, again.stop, f);
      }
      BothKept(a, again.stop, straight.stop, repo, p);
    }
  }

  lemma VeryStaysAt(a: DB, b: DB, repo: Id, p: Rel, f: Id)
    requires FileAt(a, repo, p, f) && VeryRows(a, b, f)
    ensures FileAt(b, repo, p, f)
  {
  }

  // ---------- The first run was full, the second is not ----------

  /** All the repository then has are files of the first run's clone. */
  ghost predicate OnlyFromTree(b: DB, repo: Id, tree: Tree) {
    forall f :: f in b.files && b.files[f].repo == repo ==>
      b.files[f].path.RelPath? && Expected(tree, b.files[f].path.rel).Some?
  }

  lemma AllDiscarded(r: Run, repo: Id, paths: iset<Rel>, tree: Tree)
    requires Below(r.start, r.lo) && Confined(r, repo, paths) && NewFromTree(r.start, r.stop, tree)
    requires r.gone == FilesOf(r.start, repo)
    ensures OnlyFromTree(r.stop, repo, tree)
  {
    hide KeepCalls, KeepImports, SymbolsGrow, ChunksGrow, EdgesGrow;
    var d := DeleteFiles(r.start, r.gone);
    assert forall f :: f in r.stop.files && r.stop.files[f].repo == repo ==> f !in d.files;
  }

  lemma NoneDiscarded(r: Run, repo: Id, paths: iset<Rel>)
    requires Confined(r, repo, paths) && r.gone == {} && !NoLegacy(r.start, repo)
    ensures !NoLegacy(r.stop, repo)
  {
    hide KeepCalls, KeepImports, SymbolsGrow, ChunksGrow, EdgesGrow;
    var f :| f in r.start.files && r.start.files[f].repo == repo && !r.start.files[f].path.RelPath?;
    assert f in DeleteFiles(r.start, r.gone).files;
  }

  /** If the redelivery finds a record and no absolute path where the first delivery did not, then the first run had
      discarded everything, or there was nothing. */
  lemma FirstRunEmptied(a: DB, from: Id, first: Clone, input: RepositoryInput, q: Id, stopped: Run, repo: Id)
    requires Sound(a) && Below(a, from) && Ran(a, from, q, first, input, stopped) && input.incremental
    requires Baseline(stopped.stop, repo, input.ext) && !exists i :: Baseline(a, i, input.ext)
    ensures OnlyFromTree(stopped.stop, repo, first.tree)
  {
    MidTables(a, from, q, first, input, stopped);
    SameRecord(a, from, first, input, q, stopped, repo);
    assert FullRun(a, stopped.start, q, input) ==> AllOrNothing(stopped, q);
    var paths := PathsOfRun(a, stopped.start, q, input);
    hide Confined, Sound, Below, SameChunks, Effect, FullRun, OnlyFromTree;
    if q in a.repos {
      assert !Baseline(a, q, input.ext);
      assert !NoLegacy(a, q) && !NoLegacy(stopped.start, q);
      WasFull(a, stopped.start, q, input);
      if stopped.gone == {} { NoneDiscarded(stopped, q, paths); }
    } else {
      NoFilesYet(a, q);
      assert FilesOf(stopped.start, q) == {};
      GoneIsNone(stopped, q, paths);
    }
    AllDiscarded(stopped, q, paths, first.tree);
  }

  lemma WasFull(a: DB, mid: DB, repo: Id, input: RepositoryInput)
    requires !NoLegacy(mid, repo)
    ensures FullRun(a, mid, repo, input)
  {
  }

  lemma GoneIsNone(r: Run, repo: Id, paths: iset<Rel>)
    requires Confined(r, repo, paths) && FilesOf(r.start, repo) == {}
    ensures r.gone == FilesOf(r.start, repo)
  {
    assert r.gone <= FilesOf(r.start, repo);
  }

  /** The record after the stop is the one the run was about. */
  lemma SameRecord(a: DB, from: Id, first: Clone, input: RepositoryInput, q: Id, stopped: Run, repo: Id)
    requires Sound(a) && Below(a, from) && Ran(a, from, q, first, input, stopped)
    requires repo in stopped.stop.repos && stopped.stop.repos[repo].ext == input.ext
    ensures repo == q
    ensures q in a.repos ==> a.repos[q].ext == input.ext
  {
    assert stopped.stop.repos == stopped.start.repos;
    hide Effect, SameChunks, SymbolsSound, ChunksSound, CallsSound, ImportsSound, NewFromTree;
  }

  lemma ReplayEmptied(a: DB, from: Id, repo: Id, c: Clone, input: RepositoryInput, again: Run, published: seq<Id>,
                      first: Clone, p: Rel)
    requires Succeeded(a, from, repo, c, input, again, published) && !FullRun(a, again.start, repo, input)
    requires OnlyFromTree(a, repo, first.tree)
    requires AllChanged(c.tree, input.changed) && AllMentioned(first.tree, input.changed, input.removed)
    ensures CleanAt(again.stop, repo, c.tree, p)
  {
    assert Ran(a, from, repo, c, input, again);
    ListsEnd(a, from, repo, c, input, again, published);
    hide Succeeded, Ran, FullRun, CleanAt;
    if Mentioned(input.changed, input.removed, p) {
      if p !in input.changed { AbsentOrIndexed(again.stop, repo, c.tree, p); }
    } else {
      assert Absent(a, repo, p);
      Leaves(a, from, repo, c, input, again, p);
      AbsentOrIndexed(again.stop, repo, c.tree, p);
    }
  }

  lemma KnownThen(a: DB, mid: DB, repo: Id, input: RepositoryInput)
    requires !FullRun(a, mid, repo, input)
    ensures input.incremental && Known(a, input.ext) && NoLegacy(mid, repo)
  {
  }

  lemma RanRecord(a: DB, from: Id, repo: Id, c: Clone, input: RepositoryInput, r: Run)
    requires Ran(a, from, repo, c, input, r) && Known(a, input.ext)
    ensures repo in a.repos && a.repos[repo].ext == input.ext
    ensures NoLegacy(a, repo) <==> NoLegacy(r.start, repo)
  {
    MidTables(a, from, repo, c, input, r);
    hide Effect, Confined, SameChunks;
  }

  lemma StopParts(a: DB, from: Id, repo: Id, c: Clone, input: RepositoryInput, r: Run)
    requires Ran(a, from, repo, c, input, r)
    ensures Sound(r.stop) && Below(r.stop, r.hi)
  {
    hide Sound, Below;
  }

  lemma StillBaseline(a: DB, from: Id, repo: Id, c: Clone, input: RepositoryInput, q: Id, r: Run)
    requires Sound(a) && Below(a, from) && Baseline(a, repo, input.ext) && Ran(a, from, q, c, input, r)
    ensures q == repo && Baseline(r.stop, repo, input.ext)
    ensures FullRun(a, r.start, repo, input) <==> !input.incremental
  {
    RunRecord(a, from, repo, input.ext, q, c, input, r);
    MidTables(a, from, q, c, input, r);
    hide Sound, Below, Ran, Confined, NoLegacy, SameChunks;
    NoLegacyStays(r, repo, PathsOfRun(a, r.start, q, input));
  }

  /** An uninterrupted run, where there is no baseline, makes the full index. */
  lemma StraightIsFull(a: DB, from: Id, repo: Id, c: Clone, input: RepositoryInput, r: Run, published: seq<Id>)
    requires Sound(a) && Below(a, from) && Succeeded(a, from, repo, c, input, r, published)
    requires !exists i :: Baseline(a, i, input.ext)
    ensures FullIndex(r.stop, repo, c.tree)
  {
    assert Ran(a, from, repo, c, input, r);
    hide Succeeded, Ran, Baseline, FullIndex, NoLegacy;
    if !FullRun(a, r.start, repo, input) {
      KnownThen(a, r.start, repo, input);
      RanRecord(a, from, repo, c, input, r);
      IsBaseline(a, repo, input.ext);
    }
    FullEnds(a, from, repo, c, input, r, published);
  }

  /** With a baseline all three runs are of the same kind. */
  lemma ReplayOnBaseline(a: DB, from: Id, first: Clone, c: Clone, input: RepositoryInput, q: Id, stopped: Run,
                         q': Id, again: Run, published: seq<Id>, repo: Id, straight: Run, published': seq<Id>, p: Rel,
                         i: Id)
    requires Sound(a) && Below(a, from) && Ran(a, from, q, first, input, stopped)
    requires Succeeded(stopped.stop, stopped.hi, q', c, input, again, published)
    requires Succeeded(a, from, repo, c, input, straight, published')
    requires Baseline(a, i, input.ext)
    ensures Alike(again.stop, q', straight.stop, repo, p)
  {
    var b := stopped.stop;
    assert Ran(b, stopped.hi, q', c, input, again) && Ran(a, from, repo, c, input, straight);
    hide *;
    StopParts(a, from, q, first, input, stopped);
    StillBaseline(a, from, i, first, input, q, stopped);
    StillBaseline(b, stopped.hi, i, c, input, q', again);
    StillBaseline(a, from, i, c, input, repo, straight);
    if input.incremental {
      ReplayIncremental(a, from, first, c, input, i, stopped, again, published, straight, published', p);
    } else {
      FullEnds(a, from, repo, c, input, straight, published');
      FullEnds(b, stopped.hi, q', c, input, again, published);
      FullIsClean(straight.stop, repo, c.tree, p);
      FullIsClean(again.stop, q', c.tree, p);
      BothIndexed(again.stop, q', straight.stop, repo, c.tree, p);
    }
  }

  lemma FullIsClean(b: DB, repo: Id, tree: Tree, p: Rel)
    requires FullIndex(b, repo, tree)
    ensures CleanAt(b, repo, tree, p)
  {
  }

  /** Without one the uninterrupted run is full, and the redelivery is full or finds what the first run left. */
  lemma ReplayOffBaseline(a: DB, from: Id, first: Clone, c: Clone, input: RepositoryInput, q: Id, stopped: Run,
                          q': Id, again: Run, published: seq<Id>, p: Rel)
    requires Sound(a) && Below(a, from) && Ran(a, from, q, first, input, stopped)
    requires Succeeded(stopped.stop, stopped.hi, q', c, input, again, published)
    requires !(exists i :: Baseline(a, i, input.ext)) && ReplaySafe(a, first, c, input)
    ensures CleanAt(again.stop, q', c.tree, p)
  {
    var b := stopped.stop;
    assert Ran(b, stopped.hi, q', c, input, again);
    hide Sound, Below, Ran, Succeeded, Baseline, CleanAt, FullRun;
    if FullRun(b, again.start, q', input) {
      FullEnds(b, stopped.hi, q', c, input, again, published);
    } else {
      KnownThen(b, again.start, q', input);
      RanRecord(b, stopped.hi, q', c, input, again);
      IsBaseline(b, q', input.ext);
      FirstRunEmptied(a, from, first, input, q, stopped, q');
      ReplayEmptied(b, stopped.hi, q', c, input, again, published, first, p);
    }
  }

  /** Wherever the first delivery stopped, a redelivery that succeeds leaves at every path what a run that was never
      interrupted leaves: the same rows up to ids, or the very rows there were. Full and incremental messages, records
      known or not, indexes with and without absolute paths. */
  lemma MessageReplay(a: DB, from: Id, first: Clone, c: Clone, input: RepositoryInput, q: Id, stopped: Run,
                      q': Id, again: Run, published: seq<Id>, repo: Id, straight: Run, published': seq<Id>, p: Rel)
    requires Sound(a) && Below(a, from) && Ran(a, from, q, first, input, stopped)
    requires Succeeded(stopped.stop, stopped.hi, q', c, input, again, published)
    requires Succeeded(a, from, repo, c, input, straight, published')
    requires ReplaySafe(a, first, c, input)
    ensures Alike(again.stop, q', straight.stop, repo, p)
    ensures NoLegacy(again.stop, q') && NoLegacy(straight.stop, repo)
  {
    hide Sound, Below, Ran, Succeeded, Baseline, Alike, CleanAt, ReplaySafe, NoLegacy;
    NoAbsolutePaths(stopped.stop, stopped.hi, q', c, input, again, published);
    NoAbsolutePaths(a, from, repo, c, input, straight, published');
    if i :| Baseline(a, i, input.ext) {
      ReplayOnBaseline(a, from, first, c, input, q, stopped, q', again, published, repo, straight, published', p, i);
    } else {
      StraightIsFull(a, from, repo, c, input, straight, published');
      ReplayOffBaseline(a, from, first, c, input, q, stopped, q', again, published, p);
      FullIsClean(straight.stop, repo, c.tree, p);
      BothIndexed(again.stop, q', straight.stop, repo, c.tree, p);
    }
  }

  // ---------- When it is not ----------

  function VectorsOf(a: DB, files: set<Id>): set<VecId> {
    set c | c in a.chunks && a.chunks[c].file in files && a.chunks[c].embedding.Some? :: a.chunks[c].embedding.value
  }

  lemma VectorsDiscarded(a: DB, v: set<VecId>, gone: set<Id>, hi: Id)
    requires Sound(a) && Below(a, hi)
    ensures Discarded(a, DeleteFiles(a, gone), {}, v, v - VectorsOf(a, gone), gone, gone, hi)
  {
    var v1 := v - VectorsOf(a, gone);
    assert OnlyTheirVectors(a, v, v1, gone, {}) by {
      forall x | x in v && x !in v1 ensures PointedFrom(a, x, gone, {}) {
        var c :| c in a.chunks && a.chunks[c].file in gone && a.chunks[c].embedding.Some? &&
                 a.chunks[c].embedding.value == x;
        assert a.chunks[c].file in gone && a.chunks[c].embedding == Some(x);
      }
    }
    hide OnlyTheirVectors, Sound, Below, DeleteFiles;
    DriftSelf(DeleteFiles(a, gone), {});
    SoundAfterDelete(a, DeleteFiles(a, gone), {}, gone, hi);
  }

  ghost predicate RecordFound(a: DB, from: Id, ext: string, q: Id) {
    if Known(a, ext) then q in a.repos && a.repos[q].ext == ext else q == from
  }

  lemma RecordUpserted(a: DB, from: Id, q: Id, row: RepoRow)
    requires Below(a, from) && RecordFound(a, from, row.ext, q)
    ensures q < from + 1 && Below(a, from + 1)
    ensures Upserted(a, Refreshed(a, q, row), {}, q, row)
    ensures if Known(a, row.ext) then q in a.repos && a.repos[q].ext == row.ext else q !in a.repos
  {
    DriftSelf(Refreshed(a, q, row), {});
    hide Drift;
  }

  lemma RefreshedRecord(a: DB, from: Id, q: Id, row: RepoRow, input: RepositoryInput)
    requires Below(a, from) && Sound(a) && row.ext == input.ext && RecordFound(a, from, row.ext, q)
    requires !Baseline(a, q, input.ext)
    ensures var mid := Refreshed(a, q, row);
            && q in mid.repos && mid.repos[q].ext == input.ext && (Known(a, input.ext) ==> !NoLegacy(mid, q))
  {
    assert Refreshed(a, q, row).files == a.files;
    hide SymbolsSound, ChunksSound, CallsSound, ImportsSound, UniquePaths;
  }

  /** Where there is no baseline, a run may discard everything, and then nothing is left. */
  lemma EverythingGoes(a: DB, from: Id, q: Id, row: RepoRow, input: RepositoryInput)
    requires Below(a, from) && Sound(a) && row.ext == input.ext && RecordFound(a, from, row.ext, q)
    requires !Baseline(a, q, input.ext)
    ensures var mid := Refreshed(a, q, row);
            var b := DeleteFiles(mid, FilesOf(mid, q));
            && PathsOfRun(a, mid, q, input) == Everywhere() && AtPaths(mid, q, FilesOf(mid, q), Everywhere())
            && q in b.repos && b.repos[q].ext == input.ext && FilesOf(b, q) == {}
  {
    RefreshedRecord(a, from, q, row, input);
    hide KeepCalls, KeepImports, Sound, Below, Refreshed, Known, NoLegacy;
  }

  lemma EffectIs(r: Run, repo: Id, paths: iset<Rel>)
    requires RunEffect(r.start, r.stop, repo, r.lo, r.hi, r.t, r.gone, r.cleaned, paths, r.v0, r.v1)
    ensures Effect(r, repo, paths) && Sound(r.stop) && Below(r.stop, r.hi)
  {
    hide Sound, Below;
  }

  /** A full run that stops once it has recorded the repository and deleted the files there were. */
  lemma StopsEmptied(a: DB, from: Id, c: Clone, input: RepositoryInput, v: set<VecId>, q: Id) returns (r: Run)
    requires Sound(a) && Below(a, from) && RecordFound(a, from, input.ext, q) && !Baseline(a, q, input.ext)
    ensures Ran(a, from, q, c, input, r) && r.v0 == v && Sound(r.stop) && Below(r.stop, r.hi)
    ensures EdgesInserted(r.start, r.stop, q, c, r.gone)
    ensures q in r.stop.repos && r.stop.repos[q].ext == input.ext && FilesOf(r.stop, q) == {}
  {
    var row := RecordOf(input, c.root);
    var mid, lo := Refreshed(a, q, row), from + 1;
    var gone := FilesOf(mid, q);
    r := Run(mid, DeleteFiles(mid, gone), lo, lo, {}, gone, gone, v, v - VectorsOf(mid, gone));
    hide *;
    PathsAre(a, mid, q, input);
    RecordUpserted(a, from, q, row);
    EverythingGoes(a, from, q, row, input);
    UpsertSound(a, mid, {}, q, row, lo);
    VectorsDiscarded(mid, v, gone, lo);
    EffectOfDiscard(mid, r.stop, q, c, lo, {}, gone, gone, Everywhere(), v, r.v1);
    EffectIs(r, q, Everywhere());
    IdentityKept(a, mid, r.stop, q, lo, lo, {}, gone, gone, Everywhere(), v, r.v1);
    RunKind(a, mid, q, input, r);
    RanWhen(a, from, q, c, input, r);
  }

  lemma NoFiles(b: DB, repo: Id, ext: string)
    requires repo in b.repos && b.repos[repo].ext == ext && FilesOf(b, repo) == {}
    ensures Baseline(b, repo, ext) && forall p :: Absent(b, repo, p)
  {
    assert forall f :: f in b.files ==> f !in FilesOf(b, repo) ==> b.files[f].repo != repo;
  }

  /** A redelivery that finds a record without files runs incrementally, and leaves nothing at a path that the message
      does not name as changed. */
  lemma LeftEmpty(b: DB, from: Id, q: Id, c: Clone, input: RepositoryInput, q': Id, again: Run, published: seq<Id>,
                  p: Rel)
    requires Sound(b) && Below(b, from) && q in b.repos && b.repos[q].ext == input.ext && FilesOf(b, q) == {}
    requires Succeeded(b, from, q', c, input, again, published) && input.incremental
    requires !(IsGo(p) && p in input.changed)
    ensures q' == q && Absent(again.stop, q, p)
  {
    assert Ran(b, from, q', c, input, again);
    NoFiles(b, q, input.ext);
    StillBaseline(b, from, q, c, input, q', again);
    ListsEnd(b, from, q', c, input, again, published);
    hide Ran, FullRun, Succeeded, Absent, CleanAt, IsGo, Baseline, FilesOf;
    if !Mentioned(input.changed, input.removed, p) { Leaves(b, from, q, c, input, again, p); }
  }

  lemma NotAlike(x: DB, rx: Id, y: DB, ry: Id, tree: Tree, p: Rel)
    requires Absent(x, rx, p) && FullIndex(y, ry, tree) && Expected(tree, p).Some?
    ensures !Alike(x, rx, y, ry, p) && !FullIndex(x, rx, tree)
  {
    hide SymbolsListed, ChunksListed, VeryRows;
    assert CleanAt(y, ry, tree, p) && !Absent(y, ry, p);
    assert FullIndex(x, rx, tree) ==> CleanAt(x, rx, tree, p);
  }

  /** Two deliveries of the message from these tables, the first stopped, and one run that was not interrupted. */
  datatype Deliveries = Deliveries(q: Id, again: Run, published: seq<Id>, repo: Id, straight: Run, published': seq<Id>)

  ghost predicate Delivered(a: DB, from: Id, c: Clone, input: RepositoryInput, stopped: Run, d: Deliveries) {
    && Succeeded(stopped.stop, stopped.hi, d.q, c, input, d.again, d.published)
    && Succeeded(a, from, d.repo, c, input, d.straight, d.published')
  }

  /** In every other case redelivery may lose files for good: the first run stops when the record is there and the old
      files are not; whatever succeeds next takes the empty index for a baseline, and a file the message does not
      name as changed is missing from then on, while an uninterrupted run indexes it. */
  lemma ReplayDiffers(a: DB, from: Id, c: Clone, input: RepositoryInput, v: set<VecId>, p: Rel)
    returns (q: Id, stopped: Run)
    requires Sound(a) && Below(a, from) && input.incremental && !exists i :: Baseline(a, i, input.ext)
    requires Expected(c.tree, p).Some? && !(IsGo(p) && p in input.changed)
    ensures Ran(a, from, q, c, input, stopped) && stopped.v0 == v
    ensures EdgesInserted(stopped.start, stopped.stop, q, c, stopped.gone)
    ensures forall d :: Delivered(a, from, c, input, stopped, d) ==>
              && FullIndex(d.straight.stop, d.repo, c.tree) && !FullIndex(d.again.stop, d.q, c.tree)
              && !Alike(d.again.stop, d.q, d.straight.stop, d.repo, p)
  {
    q := RecordFor(a, input.ext, from);
    stopped := StopsEmptied(a, from, c, input, v, q);
    hide Sound, Below, Ran, Succeeded, Alike, FullIndex, Baseline, IsGo, EdgesInserted;
    forall d | Delivered(a, from, c, input, stopped, d)
      ensures FullIndex(d.straight.stop, d.repo, c.tree) && !FullIndex(d.again.stop, d.q, c.tree)
      ensures !Alike(d.again.stop, d.q, d.straight.stop, d.repo, p)
    {
      LeftEmpty(stopped.stop, stopped.hi, q, c, input, d.q, d.again, d.published, p);
      StraightIsFull(a, from, d.repo, c, input, d.straight, d.published');
      NotAlike(d.again.stop, d.q, d.straight.stop, d.repo, c.tree, p);
    }
  }
}
