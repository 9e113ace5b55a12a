/** The consumer of ingestion messages: who a message belongs to, and what becomes of it. */
module Controller {
  import opened Base
  import opened Paths
  import opened SourceTree
  import opened Tables
  import opened Backends
  import opened Index
  import opened FileRows
  import opened Discards
  import opened Chunking
  import opened Runs
  import opened Pipeline
  import opened Messages

  datatype IngestionMessage = IngestionMessage(
    installation: nat, org: string, ext: string, name: string, branch: string, url: string, provider: string,
    incremental: bool, changed: seq<Rel>, removed: seq<Rel>)

  /** What the outside answers while a message is handled: the token, the organization recorded for the installation
      (None: the lookup fails; Some(None): nobody connected it), and the clone of the branch head. */
  datatype Outside = Outside(token: bool, connected: Option<Option<string>>, clone: Option<Clone>)

  function InputOf(m: IngestionMessage, org: string): RepositoryInput {
    RepositoryInput(org, m.ext, m.name, m.branch, m.url, m.provider, m.incremental, m.changed, m.removed)
  }

  /** The organization a message is indexed for: its own, or the one that connected its installation. */
  ghost predicate BelongsTo(m: IngestionMessage, o: Outside, org: string) {
    && org != ""
    && (m.installation != 0 ==> o.token)
    && (if m.org != "" then org == m.org else m.installation != 0 && o.connected == Some(Some(org)))
  }

  /** A message is handled incrementally when it asks for that, there is a record to build on, and the index holds no
      absolute path. */
  ghost predicate Incremental(a: DB, repo: Id, m: IngestionMessage) {
    m.incremental && Known(a, m.ext) && NoLegacy(a, repo)
  }

  /** Rows are as before, but for those of files of the repository at the given paths: every other file has the same
      row, the same symbols and the same chunks, whose columns workers may have filled in. */
  ghost predicate TouchesOnly(a: DB, b: DB, repo: Id, paths: iset<Rel>, t: Writes) {
    && (forall f :: f in b.files && f !in a.files ==>
          b.files[f].repo == repo && b.files[f].path.RelPath? && b.files[f].path.rel in paths)
    && (forall f :: f in a.files && !(a.files[f].repo == repo && a.files[f].path.RelPath? &&
                                      a.files[f].path.rel in paths) ==>
          f in b.files && b.files[f] == a.files[f] && SymbolsKept(a, b, f) && ChunksKept(a, b, t, f))
  }

  /** No file row went before the vectors its chunks point at, and no other vector went. A worker may have replaced an
      embedding id during the run. */
  ghost predicate VectorsFollow(a: DB, b: DB, v0: set<VecId>, v1: set<VecId>, repo: Id, t: Writes) {
    && v1 <= v0
    && (forall c :: c in a.chunks && a.chunks[c].file !in b.files && a.chunks[c].embedding.Some? ==>
          a.chunks[c].embedding.value !in v1 || exists w :: w in t && w.chunk == c && w.embedding.Some?)
    && (forall v :: v in v0 && v !in v1 ==>
          exists c :: c in a.chunks && a.chunks[c].repo == repo &&
            (a.chunks[c].embedding == Some(v) || exists w :: w in t && w.chunk == c && w.embedding == Some(v)))
  }

  /** The clone loaded, not to nothing, and every file that was to be indexed parsed: all built files, or for an
      incremental message those it names as changed. One that names no Go file asks for nothing. */
  ghost predicate FilesRead(a: DB, repo: Id, c: Clone, m: IngestionMessage) {
    || (Incremental(a, repo, m) && forall p :: p in m.changed + m.removed ==> !IsGo(p))
    || (&& c.pkgs.Some? && c.pkgs.value != []
        && forall p :: p in c.tree && c.tree[p].built && (Incremental(a, repo, m) ==> p in m.changed && IsGo(p)) ==>
             c.tree[p].parses)
  }

  /** The record of the repository as the message has it; a record that was there keeps its organization. */
  ghost predicate Recorded(a: DB, b: DB, repo: Id, m: IngestionMessage, org: string, root: Abs) {
    && repo in b.repos && b.repos.Keys == a.repos.Keys + {repo}
    && (forall i :: i in a.repos && i != repo ==> b.repos[i] == a.repos[i])
    && b.repos[repo].ext == m.ext && b.repos[repo].name == m.name && b.repos[repo].url == m.url
    && b.repos[repo].branch == (if m.branch == "" then "main" else m.branch)
    && b.repos[repo].provider == (if m.provider == "" then "OTHER" else m.provider)
    && b.repos[repo].storage == root
    && b.repos[repo].org == (if repo in a.repos then a.repos[repo].org else org)
  }

  /** Handles one message. A message that belongs to nobody, or whose repository cannot be cloned, leaves the stores
      untouched; any other is a run on the clone, acknowledged only if that run did all it was asked, and refused only
      for a cause. */
  method Handle(b: Backend, ids: IdSource, m: IngestionMessage, o: Outside)
    returns (acknowledged: bool, ghost org: string, ghost repo: Id, ghost r: Option<Run>)
    requires Sound(b.db) && Below(b.db, ids.next) && (o.clone.Some? ==> Loads(o.clone.value))
    modifies b, ids
    ensures r.Some? <==>
              && o.clone.Some? && (m.installation != 0 ==> o.token)
              && (m.org != "" || (m.installation != 0 && o.connected.Some? && o.connected.value.Some? &&
                                  o.connected.value.value != ""))
    ensures r.Some? ==> org == if m.org != "" then m.org else o.connected.value.value
    ensures r.None? ==>
              !acknowledged && b.db == old(b.db) && b.vectors == old(b.vectors) && b.published == old(b.published)
    ensures r.Some? ==> BelongsTo(m, o, org)
    ensures r.Some? ==> r.value.stop == b.db && r.value.hi == ids.next
    ensures r.Some? ==> Ran(old(b.db), old(ids.next), repo, o.clone.value, InputOf(m, org), r.value)
    ensures r.Some? ==> EdgesInserted(r.value.start, r.value.stop, repo, o.clone.value, r.value.gone)
    ensures acknowledged ==>
              r.Some? && Applied(old(b.db), r.value.start, b.db, repo, o.clone.value, InputOf(m, org), r.value.gone,
                  b.written, b.published)
    // the same in the fields of the message: which record
    ensures r.Some? && Known(old(b.db), m.ext) ==> repo in old(b.db).repos && old(b.db).repos[repo].ext == m.ext
    ensures r.Some? && !Known(old(b.db), m.ext) ==> repo !in old(b.db).repos
    ensures acknowledged ==> Recorded(old(b.db), b.db, repo, m, org, o.clone.value.root)
    // which rows, once acknowledged
    ensures acknowledged && Incremental(old(b.db), repo, m) ==>
              && (forall p :: p in m.changed && IsGo(p) ==> CleanAt(b.db, repo, o.clone.value.tree, p))
              && (forall p :: p in m.removed && p !in m.changed && IsGo(p) ==> Absent(b.db, repo, p))
    ensures acknowledged && !Incremental(old(b.db), repo, m) ==>
              FullIndex(b.db, repo, o.clone.value.tree)
    ensures acknowledged ==> FilesRead(old(b.db), repo, o.clone.value, m)
    // which rows, vectors and events, wherever it stopped
    ensures r.Some? && Incremental(old(b.db), repo, m) ==>
              TouchesOnly(old(b.db), b.db, repo, (iset p | p in m.changed + m.removed && IsGo(p)), b.written)
    ensures r.Some? ==> VectorsFollow(old(b.db), b.db, old(b.vectors), b.vectors, repo, b.written)
    ensures old(b.published) <= b.published && Distinct(b.published[|old(b.published)|..])
    ensures forall c :: c in b.published[|old(b.published)|..] ==> c in b.db.chunks && c !in old(b.db).chunks
    ensures acknowledged ==>
              forall c :: c in b.db.chunks && c !in old(b.db).chunks ==> c in b.published[|old(b.published)|..]
    ensures b.db.chunks.Keys <= old(b.db).chunks.Keys ==> b.published == old(b.published)
    // why it failed
    ensures r.Some? && !acknowledged ==>
              || b.budget == 0 || o.clone.value.pkgs.None? || o.clone.value.pkgs == Some([])
              || exists p :: p in o.clone.value.tree && !o.clone.value.tree[p].parses
  {
    hide *;
    r, org, repo, acknowledged := None, "", 0, false;
    ghost var a, before := b.db, b.published;
    SameEvents(before);
    if m.installation != 0 && !o.token { return; }
    var owner := m.org;
    if owner == "" && m.installation != 0 {
      if o.connected.None? || o.connected.value.None? { return; }
      owner := o.connected.value.value;
    }
    if owner == "" { return; }
    Owner(m, o, owner);
    if o.clone.None? { return; }
    var out;
    ghost var run;
    out, repo, run := ProcessRepository(b, ids, o.clone.value, InputOf(m, owner));
    org, r := owner, Some(run);
    acknowledged := out == Success;
    ghost var c := o.clone.value;
    RanForMessage(a, old(ids.next), repo, c, m, owner, run);
    if acknowledged {
      AppliedForMessage(a, b.db, old(ids.next), repo, c, m, owner, run, b.written, b.published);
      ReadForMessage(a, old(ids.next), repo, c, m, owner, run);
    }
    EventsOf(a, b.db, before, b.published, acknowledged);
    Causes(out, c, b.budget);
  }

  /** A first index records the repository for the organization its message belongs to. */
  lemma FirstIndexBelongs(a: DB, start: Id, repo: Id, c: Clone, m: IngestionMessage, o: Outside, org: string, r: Run)
    requires Ran(a, start, repo, c, InputOf(m, org), r) && BelongsTo(m, o, org) && !Known(a, m.ext) &&
        repo in r.stop.repos
    ensures r.stop.repos[repo].ext == m.ext && r.stop.repos[repo].org == org && org != ""
  {
    hide Sound, Below, FilesGrow, SymbolsGrow, ChunksGrow, EdgesGrow;
    assert r.stop.repos == r.start.repos;
    assert repo !in a.repos;
  }

  lemma Owner(m: IngestionMessage, o: Outside, owner: string)
    requires owner != "" && (m.installation != 0 ==> o.token)
    requires if m.org != "" then owner == m.org else m.installation != 0 && o.connected == Some(Some(owner))
    ensures BelongsTo(m, o, owner)
  {
  }

  lemma SameEvents(published: seq<Id>)
    ensures published <= published && published[|published|..] == [] && Distinct<Id>([])
  {
  }

  lemma EventsOf(a: DB, b: DB, before: seq<Id>, after: seq<Id>, all: bool)
    requires PublishedOnce(a, b, before, after, all)
    ensures before <= after && Distinct(after[|before|..])
    ensures forall c :: c in after[|before|..] ==> c in b.chunks && c !in a.chunks
    ensures all ==> forall c :: c in b.chunks && c !in a.chunks ==> c in after[|before|..]
    ensures b.chunks.Keys <= a.chunks.Keys ==> after == before
  {
    if b.chunks.Keys <= a.chunks.Keys {
      NoMember(after[|before|..]);
      assert forall c :: c in b.chunks ==> c in a.chunks;
      assert after == before + after[|before|..];
    }
  }

  lemma Causes(out: Outcome, c: Clone, budget: nat)
    requires MayEnd(out, c) && (out == Failed(StoreDown) ==> budget == 0)
    ensures || out == Success || budget == 0 || c.pkgs.None? || c.pkgs == Some([])
            || exists p :: p in c.tree && !c.tree[p].parses
  {
  }

  // ---------- The run in the fields of the message ----------

  lemma StartIs(a: DB, from: Id, repo: Id, c: Clone, m: IngestionMessage, org: string, r: Run)
    requires Ran(a, from, repo, c, InputOf(m, org), r)
    ensures Known(a, m.ext) ==> repo in a.repos && a.repos[repo].ext == m.ext
    ensures !Known(a, m.ext) ==> repo !in a.repos
    ensures NoLegacy(r.start, repo) <==> NoLegacy(a, repo)
    ensures Sound(r.start) && Below(r.start, r.lo) && r.start.files == a.files && r.start.symbols == a.symbols
    ensures SameChunks(a.chunks, r.start.chunks, r.t) && r.stop.repos == r.start.repos
    ensures exists paths :: Effect(r, repo, paths)
    ensures Incremental(a, repo, m) ==>
              Effect(r, repo, (iset p | p in m.changed + m.removed && IsGo(p)))
  {
    MidTables(a, from, repo, c, InputOf(m, org), r);
    hide Sound, Below, RunEffect, IsGo, GoOnly;
    if Incremental(a, repo, m) {
      assert PathsOfRun(a, r.start, repo, InputOf(m, org)) == (iset p | p in m.changed + m.removed && IsGo(p));
    }
    StopRecords(r, repo, PathsOfRun(a, r.start, repo, InputOf(m, org)));
  }

  lemma StopRecords(r: Run, repo: Id, paths: iset<Rel>)
    requires Effect(r, repo, paths)
    ensures r.stop.repos == r.start.repos
  {
    hide KeepCalls, KeepImports;
  }

  lemma ChunksKeptSince(a: DB, mid: DB, b: DB, t: Writes, f: Id)
    requires SameChunks(a.chunks, mid.chunks, t) && ChunksKept(mid, b, t, f)
    ensures ChunksKept(a, b, t, f)
  {
    forall c | c in a.chunks ensures c in mid.chunks && Core(mid.chunks[c]).file == Core(a.chunks[c]).file {}
  }

  lemma TouchesOnlyThese(a: DB, repo: Id, r: Run, paths: iset<Rel>)
    requires Sound(r.start) && Below(r.start, r.lo) && r.start.files == a.files && r.start.symbols == a.symbols
    requires SameChunks(a.chunks, r.start.chunks, r.t) && NoLegacy(a, repo) && Effect(r, repo, paths)
    ensures TouchesOnly(a, r.stop, repo, paths, r.t)
  {
    hide DeleteFiles, SameChunks, ChunksKept, SymbolsKept, UniquePaths, UniqueExternalIds, FilesSound, CallsSound,
      ImportsSound, OnlyTheirVectors, TheirVectorsGone;
    NewFilesOfRepo(r, repo, paths);
    forall f | f in a.files && !(a.files[f].repo == repo && a.files[f].path.RelPath? && a.files[f].path.rel in paths)
      ensures f in r.stop.files && r.stop.files[f] == a.files[f]
      ensures SymbolsKept(a, r.stop, f) && ChunksKept(a, r.stop, r.t, f)
    {
      assert f !in r.gone;
      SurvivingSymbols(r.start, r.stop, repo, r.lo, r.t, r.gone, f);
      SurvivingChunks(r.start, r.stop, repo, r.lo, r.t, r.gone, f);
      ChunksKeptSince(a, r.start, r.stop, r.t, f);
      SameSymbolsKept(a, r.start, r.stop, f);
    }
  }

  lemma SameSymbolsKept(a: DB, mid: DB, b: DB, f: Id)
    requires mid.symbols == a.symbols && SymbolsKept(mid, b, f)
    ensures SymbolsKept(a, b, f)
  {
  }

  lemma NewFilesOfRepo(r: Run, repo: Id, paths: iset<Rel>)
    requires Effect(r, repo, paths) && Below(r.start, r.lo)
    ensures forall f :: f in r.stop.files && f !in r.start.files ==>
              r.stop.files[f].repo == repo && r.stop.files[f].path.RelPath? && r.stop.files[f].path.rel in paths
    ensures forall f :: f in r.start.files && f !in r.stop.files ==> f in r.gone
  {
    hide KeepCalls, KeepImports;
  }

  lemma VectorsOfRun(a: DB, repo: Id, r: Run, paths: iset<Rel>)
    requires Sound(r.start) && Below(r.start, r.lo) && r.start.files == a.files
    requires SameChunks(a.chunks, r.start.chunks, r.t) && Effect(r, repo, paths)
    ensures VectorsFollow(a, r.stop, r.v0, r.v1, repo, r.t)
  {
    NewFilesOfRepo(r, repo, paths);
    SameOwners(a, r.start, r.t);
    EffectParts(r, repo, paths);
    assert TheirVectorsGone(r.start, r.v1, r.gone, r.t);
    hide RunEffect, SameChunks, OnlyTheirVectors, TheirVectorsGone, AtPaths, ChunksSound, VectorsFollow;
    VectorsOfFiles(a, repo, r, paths);
  }

  lemma VectorsOfFiles(a: DB, repo: Id, r: Run, paths: iset<Rel>)
    requires ChunksSound(r.start) && r.start.files == a.files && SameRows(a, r.start, r.t)
    requires AtPaths(r.start, repo, r.cleaned, paths)
    requires OnlyTheirVectors(r.start, r.v0, r.v1, r.cleaned, r.t) && TheirVectorsGone(r.start, r.v1, r.gone, r.t)
    requires forall f :: f in r.start.files && f !in r.stop.files ==> f in r.gone
    ensures VectorsFollow(a, r.stop, r.v0, r.v1, repo, r.t)
  {
    forall c | c in a.chunks && a.chunks[c].file !in r.stop.files && a.chunks[c].embedding.Some?
      ensures a.chunks[c].embedding.value !in r.v1 || exists w :: w in r.t && w.chunk == c && w.embedding.Some?
    {
      assert r.start.chunks[c].file in r.gone;
    }
    forall v | v in r.v0 && v !in r.v1
      ensures exists c ::
                c in a.chunks && a.chunks[c].repo == repo &&
                (a.chunks[c].embedding == Some(v) || exists w :: w in r.t && w.chunk == c && w.embedding == Some(v))
    {
      assert PointedFrom(r.start, v, r.cleaned, r.t);
    }
  }

  /** Chunk for chunk the same owners; embedding ids may have been overwritten. */
  ghost predicate SameRows(a: DB, b: DB, t: Writes) {
    && a.chunks.Keys == b.chunks.Keys
    && forall c :: c in a.chunks ==>
         && b.chunks[c].file == a.chunks[c].file && b.chunks[c].repo == a.chunks[c].repo
         && (b.chunks[c].embedding == a.chunks[c].embedding || WroteEmbedding(t, c, b.chunks[c].embedding))
  }

  lemma SameOwners(a: DB, b: DB, t: Writes)
    requires SameChunks(a.chunks, b.chunks, t)
    ensures SameRows(a, b, t)
  {
    hide WroteEmbedding;
    forall c | c in a.chunks ensures Core(b.chunks[c]).file == Core(a.chunks[c]).file &&
        Core(b.chunks[c]).repo == Core(a.chunks[c]).repo {}
  }

  lemma RanForMessage(a: DB, from: Id, repo: Id, c: Clone, m: IngestionMessage, org: string, r: Run)
    requires Ran(a, from, repo, c, InputOf(m, org), r)
    ensures Known(a, m.ext) ==> repo in a.repos && a.repos[repo].ext == m.ext
    ensures !Known(a, m.ext) ==> repo !in a.repos
    ensures Incremental(a, repo, m) ==>
              TouchesOnly(a, r.stop, repo, (iset p | p in m.changed + m.removed && IsGo(p)), r.t)
    ensures VectorsFollow(a, r.stop, r.v0, r.v1, repo, r.t)
  {
    StartIs(a, from, repo, c, m, org, r);
    hide *;
    var paths :| Effect(r, repo, paths);
    VectorsOfRun(a, repo, r, paths);
    if Incremental(a, repo, m) {
      TouchesOnlyThese(a, repo, r, (iset p | p in m.changed + m.removed && IsGo(p)));
    }
  }

  lemma ReadForMessage(a: DB, from: Id, repo: Id, c: Clone, m: IngestionMessage, org: string, r: Run)
    requires Ran(a, from, repo, c, InputOf(m, org), r) && CouldRead(a, r.start, repo, c, InputOf(m, org))
    ensures FilesRead(a, repo, c, m)
  {
    StartIs(a, from, repo, c, m, org, r);
    hide Ran, NoLegacy, Known, IsGo, Effect, SameChunks, Sound, Below;
    if Incremental(a, repo, m) && GoOnly(m.changed + m.removed) == [] {
      forall p | p in m.changed + m.removed ensures !IsGo(p) { assert IsGo(p) ==> p in GoOnly(m.changed + m.removed); }
    }
  }

  lemma RecordedNow(a: DB, repo: Id, c: Clone, m: IngestionMessage, org: string, r: Run, b: DB, t: Writes)
    requires Upserted(a, r.start, t, repo, RecordOf(InputOf(m, org), c.root)) && b.repos == r.start.repos
    ensures Recorded(a, b, repo, m, org, c.root)
  {
    hide SameChunks;
  }

  lemma AppliedForMessage(a: DB, b: DB, from: Id, repo: Id, c: Clone, m: IngestionMessage, org: string, r: Run,
                          t: Writes, published: seq<Id>)
    requires Ran(a, from, repo, c, InputOf(m, org), r) && b == r.stop
    requires Applied(a, r.start, b, repo, c, InputOf(m, org), r.gone, t, published)
    requires Upserted(a, r.start, t, repo, RecordOf(InputOf(m, org), c.root))
    ensures Recorded(a, b, repo, m, org, c.root)
    ensures Incremental(a, repo, m) ==>
              && (forall p :: p in m.changed && IsGo(p) ==> CleanAt(b, repo, c.tree, p))
              && (forall p :: p in m.removed && p !in m.changed && IsGo(p) ==> Absent(b, repo, p))
    ensures !Incremental(a, repo, m) ==> FullIndex(b, repo, c.tree)
  {
    StartIs(a, from, repo, c, m, org, r);
    RecordedNow(a, repo, c, m, org, r, b, t);
    hide *;
    RowsApplied(a, r.start, b, repo, c, m, org, r.gone, t, published);
  }

  lemma RowsApplied(a: DB, mid: DB, b: DB, repo: Id, c: Clone, m: IngestionMessage, org: string, gone: set<Id>,
                    t: Writes, published: seq<Id>)
    requires Applied(a, mid, b, repo, c, InputOf(m, org), gone, t, published)
    requires NoLegacy(mid, repo) <==> NoLegacy(a, repo)
    ensures Incremental(a, repo, m) ==>
              && (forall p :: p in m.changed && IsGo(p) ==> CleanAt(b, repo, c.tree, p))
              && (forall p :: p in m.removed && p !in m.changed && IsGo(p) ==> Absent(b, repo, p))
    ensures !Incremental(a, repo, m) ==> FullIndex(b, repo, c.tree)
  {
    hide FullIndex, CleanAt, Absent, Rebuilt, NoLegacy, IsGo, Known, GoOnly, Drift;
  }
}
