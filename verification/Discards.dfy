/** Discarding the files a run replaces: vectors first, then the rows. */
module Discards {
  import opened Base
  import opened Paths
  import opened Tables
  import opened Backends
  import opened Index
  import opened Vectors
  import opened FileRows

  /** Only vectors of chunks of the files in cleaned were deleted (a worker may have changed which). */
  ghost predicate OnlyTheirVectors(a: DB, v0: set<VecId>, v1: set<VecId>, cleaned: set<Id>, t: Writes) {
    && v1 <= v0
    && forall v :: v in v0 && v !in v1 ==> PointedFrom(a, v, cleaned, t)
  }

  ghost predicate PointedFrom(a: DB, v: VecId, cleaned: set<Id>, t: Writes) {
    exists c :: c in a.chunks && a.chunks[c].file in cleaned &&
                (WroteEmbedding(t, c, Some(v)) || a.chunks[c].embedding == Some(v))
  }

  ghost predicate Overwritten(t: Writes, c: Id) { exists w :: w in t && w.chunk == c && w.embedding.Some? }

  /** Every vector the chunks of the files in gone pointed at was deleted. */
  ghost predicate TheirVectorsGone(a: DB, v1: set<VecId>, gone: set<Id>, t: Writes) {
    forall c :: c in a.chunks && a.chunks[c].file in gone && !Overwritten(t, c) && a.chunks[c].embedding.Some? ==>
      a.chunks[c].embedding.value !in v1
  }

  /** The state after the files in gone were discarded. */
  ghost predicate Discarded(a: DB, b: DB, t: Writes, v0: set<VecId>, v1: set<VecId>, gone: set<Id>, cleaned: set<Id>,
                            hi: Id) {
    && Sound(b) && Below(b, hi)
    && Drift(DeleteFiles(a, gone), b, t)
    && gone <= cleaned
    && OnlyTheirVectors(a, v0, v1, cleaned, t)
    && TheirVectorsGone(a, v1, gone, t)
  }

  lemma DeletedBelow(a: DB, gone: set<Id>, hi: Id)
    requires Below(a, hi)
    ensures Below(DeleteFiles(a, gone), hi)
  {
  }

  lemma SoundAfterDelete(a: DB, b: DB, t: Writes, gone: set<Id>, hi: Id)
    requires Sound(a) && Below(a, hi) && Drift(DeleteFiles(a, gone), b, t)
    ensures Sound(b) && Below(b, hi)
  {
    DeleteKeepsSound(a, gone);
    DeletedBelow(a, gone, hi);
    hide DeleteFiles, Sound;
    DriftKeepsSound(DeleteFiles(a, gone), b, t);
    DriftKeys(DeleteFiles(a, gone), b, t);
  }

  /** A chunk of the table under way, traced back to the table the run started with. */
  lemma TracedBack(a: DB, b: DB, t: Writes, gone: set<Id>)
    requires Drift(DeleteFiles(a, gone), b, t)
    ensures forall c :: c in b.chunks ==>
              c in a.chunks && a.chunks[c].file == b.chunks[c].file && a.chunks[c].repo == b.chunks[c].repo &&
              (b.chunks[c].embedding == a.chunks[c].embedding || WroteEmbedding(t, c, b.chunks[c].embedding))
  {
    var d := DeleteFiles(a, gone);
    forall c | c in b.chunks
      ensures c in a.chunks && a.chunks[c].file == b.chunks[c].file && a.chunks[c].repo == b.chunks[c].repo
      ensures b.chunks[c].embedding == a.chunks[c].embedding || WroteEmbedding(t, c, b.chunks[c].embedding)
    {
      assert Core(d.chunks[c]) == Core(b.chunks[c]);
      assert Core(d.chunks[c]).file == Core(b.chunks[c]).file && Core(d.chunks[c]).repo == Core(b.chunks[c]).repo;
    }
  }

  lemma SurvivingChunk(a: DB, b: DB, t: Writes, gone: set<Id>)
    requires Sound(a) && Drift(DeleteFiles(a, gone), b, t)
    ensures forall c :: c in a.chunks && a.chunks[c].file !in gone ==> c in b.chunks
  {
  }

  /** Vectors listed from the chunks in scope and deleted, all of them or a part. */
  lemma CleanStep(a: DB, b: DB, t: Writes, t': Writes, v0: set<VecId>, v1: set<VecId>, v2: set<VecId>, gone: set<Id>,
                  cleaned: set<Id>, hi: Id,
                  listed: DB, ids: seq<VecId>, some: seq<VecId>, scope: ChunkScope, more: set<Id>)
    requires Discarded(a, b, t, v0, v1, gone, cleaned, hi) && t <= t'
    requires Drift(b, listed, t') && (ids != [] ==> ListsVectors(ids, listed, ChunksIn(listed, scope)))
    requires InScope(listed, scope, more)
    requires (forall v :: v in some ==> v in ids) && v2 == v1 - Elems(some)
    ensures OnlyTheirVectors(a, v0, v2, cleaned + more, t')
    ensures TheirVectorsGone(a, v2, gone, t')
  {
    DriftTrans(DeleteFiles(a, gone), b, listed, t, t');
    TracedBack(a, listed, t', gone);
    hide DeleteFiles, Drift, Sound, Below;
    forall v | v in v0 && v !in v2 ensures PointedFrom(a, v, cleaned + more, t') {
      if v in v1 {
        var c :| c in listed.chunks && c in ChunksIn(listed, scope) && listed.chunks[c].embedding == Some(v);
        assert a.chunks[c].file in cleaned + more;
      } else {
        assert PointedFrom(a, v, cleaned, t);
        var c :| c in a.chunks && a.chunks[c].file in cleaned &&
            (WroteEmbedding(t, c, Some(v)) || a.chunks[c].embedding == Some(v));
        assert a.chunks[c].file in cleaned + more && (WroteEmbedding(t', c, Some(v)) ||
            a.chunks[c].embedding == Some(v));
      }
    }
  }

  lemma AllClean(a: DB, b: DB, t: Writes, t': Writes, v0: set<VecId>, v1: set<VecId>, v2: set<VecId>, gone: set<Id>,
                 cleaned: set<Id>, hi: Id,
                 listed: DB, ids: seq<VecId>, scope: ChunkScope, more: set<Id>)
    requires Sound(a) && Discarded(a, b, t, v0, v1, gone, cleaned, hi) && t <= t'
    requires Drift(b, listed, t') && ListsVectors(ids, listed, ChunksIn(listed, scope))
    requires InScope(listed, scope, more)
    requires v2 == v1 - Elems(ids)
    ensures TheirVectorsGone(a, v2, gone + more, t')
  {
    DriftTrans(DeleteFiles(a, gone), b, listed, t, t');
    TracedBack(a, listed, t', gone);
    SurvivingChunk(a, listed, t', gone);
    hide DeleteFiles, Drift, Sound, Below;
    forall c | c in a.chunks && a.chunks[c].file in gone + more && !Overwritten(t', c) && a.chunks[c].embedding.Some?
      ensures a.chunks[c].embedding.value !in v2
    {
      if a.chunks[c].file !in gone {
        assert listed.chunks[c].embedding == Some(a.chunks[c].embedding.value);
        assert a.chunks[c].embedding.value in ids;
      }
    }
  }

  lemma DiscardedDrift(a: DB, b: DB, b': DB, t: Writes, t': Writes, v0: set<VecId>, v1: set<VecId>, v2: set<VecId>,
                       gone: set<Id>, cleaned: set<Id>, cleaned': set<Id>, hi: Id)
    requires Sound(a) && Below(a, hi) && Discarded(a, b, t, v0, v1, gone, cleaned, hi) && t <= t' && Drift(b, b', t')
    requires OnlyTheirVectors(a, v0, v2, cleaned', t') && TheirVectorsGone(a, v2, gone, t') && gone <= cleaned'
    ensures Discarded(a, b', t', v0, v2, gone, cleaned', hi)
  {
    DriftTrans(DeleteFiles(a, gone), b, b', t, t');
    SoundAfterDelete(a, b', t', gone, hi);
  }

  lemma DiscardedMore(a: DB, b: DB, b': DB, t: Writes, t': Writes, v0: set<VecId>, v1: set<VecId>, v2: set<VecId>,
                      gone: set<Id>, cleaned: set<Id>, more: set<Id>, hi: Id)
    requires Sound(a) && Below(a, hi) && Discarded(a, b, t, v0, v1, gone, cleaned, hi) && t <= t'
    requires Drift(DeleteFiles(b, more), b', t')
    requires OnlyTheirVectors(a, v0, v2, cleaned + more, t') && TheirVectorsGone(a, v2, gone + more, t')
    ensures Discarded(a, b', t', v0, v2, gone + more, cleaned + more, hi)
  {
    DriftDelete(DeleteFiles(a, gone), b, t, more);
    DeleteTwice(a, gone, more);
    DriftTrans(DeleteFiles(a, gone + more), DeleteFiles(b, more), b', t, t');
    SoundAfterDelete(a, b', t', gone + more, hi);
  }

  function ScopeIds(db: DB, scope: ChunkScope): set<Id> {
    match scope
    case OfFile(file) => {file}
    case OfRepository(repo) => FilesOf(db, repo)
  }

  /** The chunks in scope are those of the files in more. */
  ghost predicate InScope(db: DB, scope: ChunkScope, more: set<Id>) {
    forall c :: c in ChunksIn(db, scope) <==> c in db.chunks && db.chunks[c].file in more
  }

  lemma ScopeOfFiles(db: DB, scope: ChunkScope)
    requires ChunksSound(db)
    ensures InScope(db, scope, ScopeIds(db, scope))
  {
  }

  lemma ScopeIdsCover(b: DB, listed: DB, t: Writes, scope: ChunkScope)
    requires Sound(b) && Drift(b, listed, t)
    ensures InScope(listed, scope, ScopeIds(b, scope))
    ensures ScopeIds(listed, scope) == ScopeIds(b, scope)
    ensures ScopeIds(listed, scope) == if scope.OfFile? then {scope.file} else FilesOf(listed, scope.repo)
  {
    DriftKeepsSound(b, listed, t);
    hide InScope, UniquePaths, UniqueExternalIds, FilesSound, SymbolsSound, ChunksSound, CallsSound, ImportsSound,
        SameChunks;
    ScopeOfFiles(listed, scope);
  }

  lemma Wider(a: DB, v0: set<VecId>, v1: set<VecId>, cleaned: set<Id>, gone: set<Id>, gone': set<Id>, t: Writes,
              t': Writes)
    requires OnlyTheirVectors(a, v0, v1, cleaned, t) && TheirVectorsGone(a, v1, gone', t) && t <= t' && gone <= gone'
    ensures OnlyTheirVectors(a, v0, v1, cleaned, t') && TheirVectorsGone(a, v1, gone', t') &&
        TheirVectorsGone(a, v1, gone, t')
    ensures OnlyTheirVectors(a, v0, v1, cleaned + {}, t') && cleaned + {} == cleaned
  {
    forall v | v in v0 && v !in v1 ensures PointedFrom(a, v, cleaned, t') {
      assert PointedFrom(a, v, cleaned, t);
    }
    assert cleaned + {} == cleaned;
  }

  lemma DiscardedFacts(a: DB, b: DB, t: Writes, v0: set<VecId>, v1: set<VecId>, gone: set<Id>, cleaned: set<Id>, hi: Id)
    requires Discarded(a, b, t, v0, v1, gone, cleaned, hi)
    ensures Sound(b) && Below(b, hi) && gone <= cleaned
  {
  }

  lemma BatchPrefix(ids: seq<VecId>, done: nat)
    ensures 0 <= done * DELETE_BATCH && Min(done * DELETE_BATCH, |ids|) <= |ids|
    ensures forall v :: v in ids[..Min(done * DELETE_BATCH, |ids|)] ==> v in ids
  {
  }

  /** Vectors, then rows, of one file or of a whole repository. */
  method DiscardScope(b: Backend, scope: ChunkScope, ghost a: DB, ghost v0: set<VecId>, ghost gone0: set<Id>,
                      ghost cleaned0: set<Id>, ghost hi: Id)
    returns (out: Outcome, ghost gone: set<Id>, ghost cleaned: set<Id>)
    requires Sound(a) && Below(a, hi) && Discarded(a, b.db, b.written, v0, b.vectors, gone0, cleaned0, hi)
    modifies b
    ensures out == Success || (out == Failed(StoreDown) && b.budget == 0)
    ensures Discarded(a, b.db, b.written, v0, b.vectors, gone, cleaned, hi)
    ensures old(b.written) <= b.written && b.published == old(b.published)
    ensures var more := ScopeIds(old(b.db), scope);
            && cleaned == cleaned0 + more
            && (gone == gone0 || gone == gone0 + more)
            && (out.Success? ==> gone == gone0 + more && Drift(DeleteFiles(old(b.db), more), b.db, b.written))
            && (!out.Success? ==> gone == gone0)
  {
    hide *;
    ghost var b0, t0, v1 := b.db, b.written, b.vectors;
    ghost var more := ScopeIds(b0, scope);
    gone, cleaned := gone0, cleaned0 + more;
    DiscardedFacts(a, b0, t0, v0, v1, gone0, cleaned0, hi);
    var r;
    ghost var idList, done, listed;
    r, idList, done, listed := DeleteVectorsForChunks(b, scope);
    out := FromCall(r);
    ghost var b1, t1, v2 := b.db, b.written, b.vectors;
    ScopeIdsCover(b0, listed, t1, scope);
    BatchPrefix(idList, |done|);
    CleanStep(a, b0, t0, t1, v0, v1, v2, gone0, cleaned0, hi, listed, idList,
        idList[..Min(|done| * DELETE_BATCH, |idList|)], scope, more);
    DiscardedDrift(a, b0, b1, t0, t1, v0, v1, v2, gone0, cleaned0, cleaned, hi);
    if !r.Done? { return; }
    AllClean(a, b0, t0, t1, v0, v1, v2, gone0, cleaned0, hi, listed, idList, scope, more);
    ScopeIdsCover(b0, b1, t1, scope);
    match scope {
      case OfFile(file) => r := b.DeleteFileByID(file);
      case OfRepository(repo) => r := b.DeleteFilesByRepositoryID(repo);
    }
    out := FromCall(r);
    Wider(a, v0, v2, cleaned, gone0, gone0 + more, t1, b.written);
    if !r.Done? {
      DiscardedDrift(a, b1, b.db, t1, b.written, v0, v2, v2, gone0, cleaned, cleaned, hi);
      return;
    }
    DriftDelete(b0, b1, t1, more);
    DriftTrans(DeleteFiles(b0, more), DeleteFiles(b1, more), b.db, t1, b.written);
    DiscardedMore(a, b1, b.db, t1, b.written, v0, v2, v2, gone0, cleaned, more, hi);
    assert cleaned + more == cleaned;
    gone := gone0 + more;
  }

  // ---------- File by file ----------

  /** The rows of a repository by path; every path is relative. */
  ghost predicate ByPath(db: DB, repo: Id, m: map<Rel, Id>) {
    && (forall p :: p in m ==> m[p] in db.files && db.files[m[p]] == FileRow(repo, RelPath(p)))
    && (forall f :: f in db.files && db.files[f].repo == repo ==>
          db.files[f].path.RelPath? && db.files[f].path.rel in m && m[db.files[f].path.rel] == f)
  }

  lemma ByPathDeleted(a: DB, b: DB, t: Writes, repo: Id, m: map<Rel, Id>, p: Rel)
    requires ByPath(a, repo, m) && p in m && Drift(DeleteFiles(a, {m[p]}), b, t)
    ensures ByPath(b, repo, m - {p})
  {
    hide KeepCalls, KeepImports;
  }

  lemma FoundAtPath(a: DB, b: DB, t: Writes, v0: set<VecId>, v1: set<VecId>, gone: set<Id>, cleaned: set<Id>, hi: Id,
                    repo: Id, m: map<Rel, Id>, p: Rel, paths: iset<Rel>)
    requires Discarded(a, b, t, v0, v1, gone, cleaned, hi) && AtPaths(a, repo, cleaned, paths)
    requires ByPath(b, repo, m) && p in m && p in paths
    ensures AtPaths(a, repo, cleaned + {m[p]}, paths)
  {
    hide KeepCalls, KeepImports;
    assert m[p] in DeleteFiles(a, gone).files;
  }

  /** A path without an entry has no row. */
  lemma NoEntry(db: DB, repo: Id, m: map<Rel, Id>, p: Rel)
    requires ByPath(db, repo, m) && p !in m
    ensures Absent(db, repo, p)
  {
  }

  /** Discards the rows at the given paths; left keeps the rows that survive. */
  method DiscardTouched(b: Backend, repo: Id, byRelPath: map<Rel, Id>, rels: seq<Rel>,
                        ghost a: DB, ghost v0: set<VecId>, ghost hi: Id, ghost paths: iset<Rel>)
    returns (out: Outcome, left: map<Rel, Id>, ghost gone: set<Id>, ghost cleaned: set<Id>)
    requires Sound(a) && Below(a, hi) && Discarded(a, b.db, b.written, v0, b.vectors, {}, {}, hi)
    requires ByPath(b.db, repo, byRelPath) && forall p :: p in rels ==> p in paths
    modifies b
    ensures out == Success || (out == Failed(StoreDown) && b.budget == 0)
    ensures Discarded(a, b.db, b.written, v0, b.vectors, gone, cleaned, hi)
    ensures AtPaths(a, repo, cleaned, paths)
    ensures old(b.written) <= b.written && b.published == old(b.published)
    ensures out.Success? ==> cleaned == gone && ByPath(b.db, repo, left) && forall p :: p in rels ==> p !in left
    ensures !out.Success? ==> exists f :: cleaned == gone + {f}
  {
    hide Discarded, ByPath, AtPaths, Sound, Below, Drift, DeleteFiles, UniquePaths;
    out, left, gone, cleaned := Success, byRelPath, {}, {};
    assert AtPaths(a, repo, {}, paths) by { NothingAtPaths(a, repo, paths); }
    for i := 0 to |rels|
      invariant out == Success && cleaned == gone
      invariant Discarded(a, b.db, b.written, v0, b.vectors, gone, cleaned, hi)
      invariant AtPaths(a, repo, cleaned, paths) && ByPath(b.db, repo, left)
      invariant old(b.written) <= b.written && b.published == old(b.published)
      invariant forall k :: 0 <= k < i ==> rels[k] !in left
    {
      var rel := rels[i];
      if rel !in left { continue; }
      var file := left[rel];
      FoundAtPath(a, b.db, b.written, v0, b.vectors, gone, cleaned, hi, repo, left, rel, paths);
      ghost var before := b.db;
      out, gone, cleaned := DiscardScope(b, OfFile(file), a, v0, gone, cleaned, hi);
      if !out.Success? { return; }
      ByPathDeleted(before, b.db, b.written, repo, left, rel);
      left := left - {rel};
    }
  }

  lemma NothingAtPaths(a: DB, repo: Id, paths: iset<Rel>)
    ensures AtPaths(a, repo, {}, paths)
  {
  }
}
