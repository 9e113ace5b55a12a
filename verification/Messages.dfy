/** One ingestion message: the record it belongs to, and the run it asks for. */
module Messages {
  import opened Base
  import opened Paths
  import opened SourceTree
  import opened Tables
  import opened Backends
  import opened Index
  import opened Vectors
  import opened FileRows
  import opened Chunking
  import opened Discards
  import opened Runs
  import opened Pipeline

  datatype RepositoryInput = RepositoryInput(
    org: string, ext: string, name: string, branch: string, url: string, provider: string,
    incremental: bool, changed: seq<Rel>, removed: seq<Rel>)

  function RecordOf(input: RepositoryInput, root: Abs): RepoRow {
    RepoRow(input.org, input.ext, input.name,
            if input.branch == "" then "main" else input.branch,
            input.url, root,
            if input.provider == "" then "OTHER" else input.provider)
  }

  ghost predicate Known(a: DB, ext: string) { exists i :: i in a.repos && a.repos[i].ext == ext }

  /** The record of repo was created or refreshed: the record with the external id of the row, if there is one,
      keeps its id, its organization and that external id. */
  ghost predicate Upserted(a: DB, b: DB, t: Writes, repo: Id, row: RepoRow) {
    if repo in a.repos then a.repos[repo].ext == row.ext && Drift(UpdatedRepo(a, repo, row), b, t)
    else !Known(a, row.ext) && Drift(a.(repos := a.repos[repo := row]), b, t)
  }

  /** Records are never lost, and never change their organization or external id. */
  ghost predicate KeepsIdentity(a: DB, b: DB) {
    forall i :: i in a.repos ==> i in b.repos && b.repos[i].org == a.repos[i].org && b.repos[i].ext == a.repos[i].ext
  }

  /** Incremental only for a known repository: the first index is full. */
  ghost function PathsOfRun(a: DB, mid: DB, repo: Id, input: RepositoryInput): iset<Rel> {
    if input.incremental && Known(a, input.ext) then ScopeOfRun(mid, repo, input.changed,
        input.removed) else Everywhere()
  }

  /** A run that deletes all the files of its repository at once or none: the first index of a repository, or one that
      finds absolute paths, or one that was asked for. */
  ghost predicate FullRun(a: DB, mid: DB, repo: Id, input: RepositoryInput) {
    !(input.incremental && Known(a, input.ext) && NoLegacy(mid, repo))
  }

  /** What a successful run for the message could read: the files to be indexed, unless there was nothing to do. */
  ghost predicate CouldRead(a: DB, mid: DB, repo: Id, c: Clone, input: RepositoryInput) {
    if !(input.incremental && Known(a, input.ext) && NoLegacy(mid, repo)) then Readable(c, Everywhere())
    else GoOnly(input.changed + input.removed) == [] || Readable(c, iset p | p in GoOnly(input.changed))
  }

  ghost predicate AllOrNothing(r: Run, repo: Id) { r.gone == {} || r.gone == FilesOf(r.start, repo) }

  /** A run for the message on the clone, from tables a and the ids from from on, wherever it stopped. */
  ghost predicate Ran(a: DB, from: Id, repo: Id, c: Clone, input: RepositoryInput, r: Run) {
    && from <= r.lo && Sound(r.start) && Below(r.start, r.lo)
    && (Drift(a, r.start, r.t) || Upserted(a, r.start, r.t, repo, RecordOf(input, c.root)))
    && (if Known(a, input.ext) then repo in a.repos && a.repos[repo].ext == input.ext else repo !in a.repos)
    && Effect(r, repo, PathsOfRun(a, r.start, repo, input))
    && NewFromTree(r.start, r.stop, c.tree) && (FullRun(a, r.start, repo, input) ==> AllOrNothing(r, repo))
    && KeepsIdentity(a, r.stop)
  }

  /** What a successfully processed message leaves behind. */
  ghost predicate Applied(a: DB, mid: DB, b: DB, repo: Id, c: Clone, input: RepositoryInput, gone: set<Id>, t: Writes,
                          published: seq<Id>) {
    && repo in b.repos && b.repos[repo].ext == input.ext
    && if input.incremental && Known(a, input.ext)
       then PushApplied(mid, b, repo, c, input.changed, input.removed, gone, t, published)
       else FullIndex(b, repo, c.tree) && Rebuilt(mid, b, repo, c, gone, Everywhere(), published)
  }

  lemma MidTables(a: DB, start: Id, q: Id, c: Clone, m: RepositoryInput, run: Run)
    requires Ran(a, start, q, c, m, run)
    ensures run.start.files == a.files && run.start.symbols == a.symbols &&
        SameChunks(a.chunks, run.start.chunks, run.t)
    ensures run.start.calls == a.calls && run.start.imports == a.imports
    ensures Sound(run.start) && Below(run.start, run.lo) && Sound(run.stop) && Below(run.stop, run.hi)
    ensures Confined(run, q, PathsOfRun(a, run.start, q, m))
  {
  }

  function Refreshed(a: DB, repo: Id, row: RepoRow): DB {
    if repo in a.repos then UpdatedRepo(a, repo, row) else a.(repos := a.repos[repo := row])
  }

  lemma RefreshSound(a: DB, repo: Id, row: RepoRow, hi: Id)
    requires Sound(a) && Below(a, hi) && repo < hi && (repo !in a.repos ==> !Known(a, row.ext))
    ensures Sound(Refreshed(a, repo, row)) && Below(Refreshed(a, repo, row), hi)
  {
    var d := Refreshed(a, repo, row);
    hide UniquePaths, SymbolsSound, ChunksSound, CallSound, ImportSound;
    assert UniqueExternalIds(d) && FilesSound(d);
    hide UniqueExternalIds, FilesSound;
    OtherTables(a, d);
  }

  lemma OtherTables(a: DB, d: DB)
    requires d.files == a.files && d.symbols == a.symbols && d.chunks == a.chunks && d.calls == a.calls &&
        d.imports == a.imports
    ensures UniquePaths(a) ==> UniquePaths(d)
    ensures SymbolsSound(a) ==> SymbolsSound(d)
    ensures ChunksSound(a) ==> ChunksSound(d)
    ensures CallsSound(a) ==> CallsSound(d)
    ensures ImportsSound(a) ==> ImportsSound(d)
  {
    assert forall e :: CallSound(a, e) ==> CallSound(d, e);
    assert forall e :: ImportSound(a, e) ==> ImportSound(d, e);
  }

  lemma UpsertSound(a: DB, b: DB, t: Writes, repo: Id, row: RepoRow, hi: Id)
    requires Sound(a) && Below(a, hi) && repo < hi && Upserted(a, b, t, repo, row)
    ensures Sound(b) && Below(b, hi) && repo in b.repos && b.repos[repo].ext == row.ext
    ensures KeepsIdentity(a, b)
    ensures repo !in a.repos ==> FilesOf(b, repo) == {}
  {
    hide *;
    RefreshSound(a, repo, row, hi) by { UpsertIs(a, b, t, repo, row); }
    UpsertIs(a, b, t, repo, row);
    DriftKeepsSound(Refreshed(a, repo, row), b, t);
    DriftKeys(Refreshed(a, repo, row), b, t);
    if repo !in a.repos { NoFilesYet(a, repo); }
  }

  lemma UpsertIs(a: DB, b: DB, t: Writes, repo: Id, row: RepoRow)
    requires Upserted(a, b, t, repo, row)
    ensures Drift(Refreshed(a, repo, row), b, t) && (repo !in a.repos ==> !Known(a, row.ext))
    ensures repo in b.repos && b.repos[repo].ext == row.ext && KeepsIdentity(a, b)
    ensures FilesOf(b, repo) == FilesOf(a, repo)
  {
    hide SameChunks, FilesOf;
    assert Drift(Refreshed(a, repo, row), b, t);
    UpsertFiles(a, b, t, repo, row);
  }

  lemma UpsertFiles(a: DB, b: DB, t: Writes, repo: Id, row: RepoRow)
    requires Drift(Refreshed(a, repo, row), b, t)
    ensures FilesOf(b, repo) == FilesOf(a, repo)
  {
    hide SameChunks;
    assert b.files == a.files;
    hide Drift, Refreshed;
  }

  lemma NoFilesYet(a: DB, repo: Id)
    requires Sound(a) && repo !in a.repos
    ensures FilesOf(a, repo) == {}
  {
  }

  lemma RefreshDrifts(a: DB, a': DB, t: Writes, repo: Id, row: RepoRow)
    requires Drift(a, a', t)
    ensures Drift(Refreshed(a, repo, row), Refreshed(a', repo, row), t) && a'.repos == a.repos
  {
    hide SameChunks;
  }

  lemma UpsertAfterDrift(a: DB, a': DB, b: DB, t: Writes, t': Writes, repo: Id, row: RepoRow)
    requires Drift(a, a', t) && Upserted(a', b, t', repo, row) && t <= t'
    ensures Upserted(a, b, t', repo, row)
  {
    var d, d' := Refreshed(a, repo, row), Refreshed(a', repo, row);
    hide SameChunks;
    RefreshDrifts(a, a', t, repo, row);
    hide Drift;
    DriftTrans(d, d', b, t, t');
  }

  /** Nothing was done yet but reading. */
  lemma JustRead(a: DB, b: DB, t: Writes, v: set<VecId>, start: Id, hi: Id, repo: Id, c: Clone,
                 input: RepositoryInput) returns (r: Run)
    requires Sound(a) && Below(a, start) && Drift(a, b, t) && start <= hi
    requires if Known(a, input.ext) then repo in a.repos && a.repos[repo].ext == input.ext else repo !in a.repos
    ensures r == Run(b, b, hi, hi, t, {}, {}, v, v) && Ran(a, start, repo, c, input, r)
    ensures Sound(b) && Below(b, hi) && EdgesInserted(b, b, repo, c, {})
  {
    r := Run(b, b, hi, hi, t, {}, {}, v, v);
    DriftKeepsSound(a, b, t);
    DriftKeys(a, b, t);
    DriftGivesIdentity(a, b, t);
    BelowWider(b, start, hi);
    hide *;
    NothingDiscarded(b, t, v, hi);
    NothingAtPaths(b, repo, PathsOfRun(a, b, repo, input));
    EffectOfDiscard(b, b, repo, c, hi, t, {}, {}, PathsOfRun(a, b, repo, input), v, v);
    RanReading(a, start, repo, c, input, r);
  }

  lemma RanReading(a: DB, start: Id, repo: Id, c: Clone, input: RepositoryInput, r: Run)
    requires start <= r.lo && Sound(r.start) && Below(r.start, r.lo) && Drift(a, r.start, r.t)
    requires if Known(a, input.ext) then repo in a.repos && a.repos[repo].ext == input.ext else repo !in a.repos
    requires Effect(r, repo, PathsOfRun(a, r.start, repo, input))
    requires NewFromTree(r.start, r.stop, c.tree) && r.gone == {}
    requires KeepsIdentity(a, r.stop)
    ensures Ran(a, start, repo, c, input, r)
  {
  }

  lemma DriftGivesIdentity(a: DB, b: DB, t: Writes)
    requires Drift(a, b, t)
    ensures KeepsIdentity(a, b)
  {
  }

  lemma FoundOrNot(a: DB, b: DB, t: Writes, ext: string, existing: Option<Id>)
    requires Drift(a, b, t)
    requires existing.Some? ==> existing.value in b.repos && b.repos[existing.value].ext == ext
    requires existing.None? ==> forall i :: i in b.repos ==> b.repos[i].ext != ext
    ensures existing.Some? <==> Known(a, ext)
    ensures existing.Some? ==> existing.value in a.repos && a.repos[existing.value].ext == ext
    ensures existing.None? ==> !Known(b, ext)
    ensures a.repos == b.repos
  {
  }

  lemma IdentityKept(a: DB, mid: DB, b: DB, repo: Id, lo: Id, hi: Id, t: Writes, gone: set<Id>, cleaned: set<Id>,
                     paths: iset<Rel>, v0: set<VecId>, v1: set<VecId>)
    requires KeepsIdentity(a, mid) && RunEffect(mid, b, repo, lo, hi, t, gone, cleaned, paths, v0, v1)
    ensures KeepsIdentity(a, b) && b.repos == mid.repos
    ensures Sound(b) && Below(b, hi)
  {
  }

  lemma UpsertMore(a: DB, b: DB, t: Writes, t': Writes, repo: Id, row: RepoRow)
    requires Upserted(a, b, t, repo, row) && t <= t'
    ensures Upserted(a, b, t', repo, row)
  {
    DriftWider(Refreshed(a, repo, row), b, t, t');
    hide Drift;
  }

  lemma AppliedWhen(a: DB, mid: DB, b: DB, repo: Id, c: Clone, input: RepositoryInput, gone: set<Id>, t: Writes,
                    published: seq<Id>)
    requires repo in b.repos && b.repos[repo].ext == input.ext
    requires if input.incremental && Known(a, input.ext)
             then PushApplied(mid, b, repo, c, input.changed, input.removed, gone, t, published)
             else FullIndex(b, repo, c.tree) && Rebuilt(mid, b, repo, c, gone, Everywhere(), published)
    ensures Applied(a, mid, b, repo, c, input, gone, t, published)
  {
  }

  lemma PathsAre(a: DB, mid: DB, repo: Id, input: RepositoryInput)
    ensures PathsOfRun(a, mid, repo, input) ==
            if input.incremental && Known(a, input.ext) then ScopeOfRun(mid, repo, input.changed,
                input.removed) else Everywhere()
    ensures RecordOf(input, []).ext == input.ext
    ensures forall root :: RecordOf(input, root).ext == input.ext
  {
  }

  /** Finds or creates the record to index into. */
  method UpsertRepositoryRecord(b: Backend, ids: IdSource, root: Abs, input: RepositoryInput, existing: Option<Id>)
    returns (out: Outcome, repo: Id)
    requires Sound(b.db) && Below(b.db, ids.next)
    requires existing.Some? ==> existing.value in b.db.repos && b.db.repos[existing.value].ext == input.ext
    requires existing.None? ==> !Known(b.db, input.ext)
    modifies b, ids
    ensures out == Success || (out == Failed(StoreDown) && b.budget == 0)
    ensures b.vectors == old(b.vectors) && b.published == old(b.published) && old(b.written) <= b.written &&
        old(ids.next) <= ids.next
    ensures existing.Some? ==> repo == existing.value
    ensures existing.None? ==> repo !in old(b.db).repos
    ensures repo < ids.next && Below(old(b.db), ids.next)
    ensures if out.Success? then Upserted(old(b.db), b.db, b.written, repo,
        RecordOf(input, root)) else Drift(old(b.db), b.db, b.written)
    ensures out.Success? ==>
              && b.db.repos.Keys == old(b.db).repos.Keys + {repo}
              && (forall i :: i in old(b.db).repos && i != repo ==> b.db.repos[i] == old(b.db).repos[i])
              && b.db.repos[repo].org == (if existing.Some? then old(b.db).repos[repo].org else input.org)
              && b.db.repos[repo].ext == input.ext && b.db.repos[repo].name == input.name
              && b.db.repos[repo].branch == (if input.branch == "" then "main" else input.branch)
              && b.db.repos[repo].url == input.url && b.db.repos[repo].storage == root
              && b.db.repos[repo].provider == (if input.provider == "" then "OTHER" else input.provider)
  {
    hide Sound, SameChunks;
    var r;
    if existing.Some? {
      repo := existing.value;
      r := b.UpdateRepository(repo, RecordOf(input, root));
    } else {
      repo := ids.Generate();
      r := b.InsertRepository(repo, RecordOf(input, root));
    }
    out := FromCall(r);
  }

  /** Indexes a clone into the graph. */
  method ProcessRepository(b: Backend, ids: IdSource, c: Clone, input: RepositoryInput)
    returns (out: Outcome, ghost repo: Id, ghost r: Run)
    requires Sound(b.db) && Below(b.db, ids.next) && Loads(c)
    modifies b, ids
    ensures Ran(old(b.db), old(ids.next), repo, c, input, r) && EdgesInserted(r.start, r.stop, repo, c, r.gone)
    ensures r.stop == b.db && r.hi == ids.next && r.t == b.written && r.v0 == old(b.vectors) && r.v1 == b.vectors
    ensures old(b.written) <= b.written && MayEnd(out, c) && (out == Failed(StoreDown) ==> b.budget == 0)
    ensures PublishedOnce(old(b.db), b.db, old(b.published), b.published, out.Success?)
    ensures out.Success? ==> Upserted(old(b.db), r.start, b.written, repo, RecordOf(input, c.root))
    ensures out.Success? ==> Applied(old(b.db), r.start, b.db, repo, c, input, r.gone, b.written, b.published)
    ensures out.Success? ==> CouldRead(old(b.db), r.start, repo, c, input)
  {
    hide *;
    ghost var a, start := b.db, ids.next;
    NothingPublished(b.published);
    repo := RecordFor(a, input.ext, start);
    var call, existing := b.GetRepositoryByExternalID(input.ext);
    out := FromCall(call);
    FailureKept(out, c);
    ghost var b1, t1 := b.db, b.written;
    r := JustRead(a, b1, t1, b.vectors, start, ids.next, repo, c, input);
    if !call.Done? { return; }
    FoundOrNot(a, b1, t1, input.ext, existing);

    var id;
    out, id := UpsertRepositoryRecord(b, ids, c.root, input, existing);
    FailureKept(out, c);
    ghost var mid, lo, t2 := b.db, ids.next, b.written;
    StillBelow(b1, a, t1, lo);
    if !out.Success? {
      DriftTrans(a, b1, mid, t1, t2);
      r := JustRead(a, mid, t2, b.vectors, start, lo, repo, c, input);
      return;
    }
    repo := id;
    PathsAre(a, mid, repo, input);
    UpsertAfterDrift(a, b1, mid, t1, t2, repo, RecordOf(input, c.root));
    UpsertSound(a, mid, t2, repo, RecordOf(input, c.root), lo);
    NothingDiscarded(mid, t2, b.vectors, lo);
    ghost var gone, cleaned;
    if input.incremental && existing.Some? {
      out, gone, cleaned := ProcessIncremental(b, ids, id, c, input.changed, input.removed, mid, b.vectors);
    } else {
      out, gone, cleaned := ProcessFull(b, ids, id, c, existing.Some?, mid, b.vectors);
    }
    r := Run(mid, b.db, lo, ids.next, b.written, gone, cleaned, old(b.vectors), b.vectors);
    UpsertKeepsChunks(a, mid, t2, repo, RecordOf(input, c.root));
    OnceSince(a, mid, b.db, old(b.published), b.published, out.Success?);
    UpsertMore(a, mid, t2, b.written, repo, RecordOf(input, c.root));
    IdentityKept(a, mid, b.db, repo, lo, ids.next, b.written, gone, cleaned, PathsOfRun(a, mid, repo, input),
        old(b.vectors), b.vectors);
    CouldReadIs(a, mid, repo, c, input);
    if out.Success? {
      AppliedWhen(a, mid, b.db, repo, c, input, gone, b.written, b.published);
    }
    RunKind(a, mid, repo, input, r);
    RanWhen(a, start, repo, c, input, r);
  }

  lemma UpsertKeepsChunks(a: DB, b: DB, t: Writes, repo: Id, row: RepoRow)
    requires Upserted(a, b, t, repo, row)
    ensures b.chunks.Keys == a.chunks.Keys
  {
  }

  lemma OnceSince(a: DB, mid: DB, b: DB, before: seq<Id>, after: seq<Id>, all: bool)
    requires PublishedOnce(mid, b, before, after, all) && mid.chunks.Keys == a.chunks.Keys
    ensures PublishedOnce(a, b, before, after, all)
  {
  }

  lemma CouldReadIs(a: DB, mid: DB, repo: Id, c: Clone, input: RepositoryInput)
    ensures CouldRead(a, mid, repo, c, input) <==>
            if !(input.incremental && Known(a, input.ext) && NoLegacy(mid, repo)) then Readable(c, Everywhere())
            else GoOnly(input.changed + input.removed) == [] || Readable(c, iset p | p in GoOnly(input.changed))
  {
  }

  lemma RunKind(a: DB, mid: DB, repo: Id, input: RepositoryInput, r: Run)
    ensures FullRun(a, mid, repo, input) <==> !(input.incremental && Known(a, input.ext) && NoLegacy(mid, repo))
    ensures AllOrNothing(r, repo) <==> r.gone == {} || r.gone == FilesOf(r.start, repo)
  {
  }

  lemma RanWhen(a: DB, start: Id, repo: Id, c: Clone, input: RepositoryInput, r: Run)
    requires start <= r.lo && Sound(r.start) && Below(r.start, r.lo)
    requires Upserted(a, r.start, r.t, repo, RecordOf(input, c.root))
    requires if Known(a, input.ext) then repo in a.repos && a.repos[repo].ext == input.ext else repo !in a.repos
    requires Effect(r, repo, PathsOfRun(a, r.start, repo, input))
    requires NewFromTree(r.start, r.stop, c.tree) && (FullRun(a, r.start, repo, input) ==> AllOrNothing(r, repo))
    requires KeepsIdentity(a, r.stop)
    ensures Ran(a, start, repo, c, input, r)
  {
  }

  /** The record a message is about; before there is one, an id not in use. */
  ghost function RecordFor(a: DB, ext: string, unused: Id): (repo: Id)
    requires Below(a, unused)
    ensures if Known(a, ext) then repo in a.repos && a.repos[repo].ext == ext else repo == unused && repo !in a.repos
  {
    if Known(a, ext) then
      var i :| i in a.repos && a.repos[i].ext == ext; i
    else unused
  }

  lemma StillBelow(b: DB, a: DB, t: Writes, n: Id)
    requires Drift(a, b, t) && Below(b, n)
    ensures Below(a, n)
  {
  }
}
