/** From pushes to the workers: every chunk at a settled path was published, and so is embedded, queued, in progress or
    dead-lettered. */
module Announcing {
  import opened Base
  import opened Paths
  import opened SourceTree
  import opened Tables
  import opened Backends
  import opened Index
  import opened Chunking
  import opened Runs
  import opened Pipeline
  import opened Messages
  import opened Refinement
  import opened Isolation
  import opened Protocol
  import opened WorkerView
  import W = Workers

  ghost predicate ChunkAt(db: DB, repo: Id, p: Rel, c: Id) {
    c in db.chunks && db.chunks[c].file in db.files && db.files[db.chunks[c].file] == FileRow(repo, RelPath(p))
  }

  /** The chunks the finished runs published, on top of those published before. */
  ghost function Published(before: set<Id>, events: seq<Event>): set<Id> {
    if events == [] then before
    else Published(before, events[..|events| - 1]) + PublishedBy(events[|events| - 1])
  }

  ghost function PublishedBy(e: Event): set<Id> { if e.Complete? then Elems(e.published) else {} }

  ghost predicate Settled(ext: string, s: State, p: Rel) {
    !Pending(ext, s.queue, Protocol.Done(s.phase), p) && p !in s.suspect
  }

  /** Every chunk at a settled path is among the published ones. */
  ghost predicate AllPublished(ext: string, repo: Id, s: State, pub: set<Id>) {
    forall p, c :: Settled(ext, s, p) && ChunkAt(s.db, repo, p, c) ==> c in pub
  }

  // ---------- Runs ----------

  lemma ChunkBefore(run: Run, q: Id, paths: iset<Rel>, repo: Id, p: Rel, c: Id)
    requires Sound(run.start) && Below(run.start, run.lo) && Confined(run, q, paths) && (q != repo || p !in paths)
    requires ChunkAt(run.stop, repo, p, c)
    ensures ChunkAt(run.start, repo, p, c)
  {
    var f := run.stop.chunks[c].file;
    if q == repo {
      assert FileAt(run.stop, repo, p, f);
      OldRow(run.start, run.stop, repo, run.lo, run.t, run.gone, paths, p, f);
    } else {
      OtherRepositories(run, q, paths, repo);
      assert f in FilesOf(run.stop, repo);
    }
    hide Confined, Below, Sound;
    UntouchedFile(run, q, paths, repo, p, f);
    hide SymbolsKept;
  }

  lemma UntouchedFile(run: Run, q: Id, paths: iset<Rel>, repo: Id, p: Rel, f: Id)
    requires Sound(run.start) && Below(run.start, run.lo) && Confined(run, q, paths) && (q != repo || p !in paths)
    requires f in run.start.files && run.start.files[f].repo == repo
    requires f in run.stop.files && run.stop.files[f] == FileRow(repo, RelPath(p))
    ensures SameRowsOf(run.start, run.stop, run.t, f)
  {
    FileKept(run, q, paths, f);
    hide Confined, Below, Sound, SameRowsOf;
    UntouchedRows(run, q, paths, f);
  }

  lemma FileKept(run: Run, q: Id, paths: iset<Rel>, f: Id)
    requires Below(run.start, run.lo) && Confined(run, q, paths) && f in run.start.files && f in run.stop.files
    ensures run.stop.files[f] == run.start.files[f]
  {
    hide KeepCalls, KeepImports, SymbolsGrow, ChunksGrow, EdgesGrow;
    assert f in DeleteFiles(run.start, run.gone).files;
  }

  /** A finished run published the chunks at every path it rebuilt. */
  lemma RebuiltPublished(run: Run, repo: Id, c: Clone, paths: iset<Rel>, scope: iset<Rel>, published: seq<Id>, p: Rel,
                         ch: Id)
    requires Sound(run.start) && Below(run.start, run.lo) && Confined(run, repo, scope)
    requires Rebuilt(run.start, run.stop, repo, c, run.gone, paths, published) && p in paths
    requires ChunkAt(run.stop, repo, p, ch)
    ensures ch in published
  {
    var a, d := run.start, DeleteFiles(run.start, run.gone);
    assert Announced(d, run.stop, published) && GoneExactly(a, repo, run.gone, paths);
    hide KeepCalls, KeepImports, Rebuilt;
    if ch in d.chunks {
      var f := run.stop.chunks[ch].file;
      assert Core(d.chunks[ch]) == Core(run.stop.chunks[ch]);
      assert d.chunks[ch].file == f by { assert Core(d.chunks[ch]).file == Core(run.stop.chunks[ch]).file; }
      assert f in a.files && f !in run.gone;
      FileKept(run, repo, scope, f);
    }
  }

  lemma DriftedChunk(a: DB, b: DB, t: Writes, repo: Id, p: Rel, c: Id)
    requires b.files == a.files && SameChunks(a.chunks, b.chunks, t) && ChunkAt(b, repo, p, c)
    ensures ChunkAt(a, repo, p, c)
  {
    hide WroteEmbedding, WroteSummary;
    assert SameChunk(c, a.chunks[c], b.chunks[c], t);
    assert Core(a.chunks[c]).file == Core(b.chunks[c]).file;
  }

  /** Wherever a run stops, the chunks at the paths its message does not mention were there before. */
  lemma RunBringsNone(a: DB, start: Id, repo: Id, ext: string, q: Id, c: Clone, m: RepositoryInput, run: Run, p: Rel,
                      ch: Id)
    requires Record(a, start, repo, ext) && NoLegacy(a, repo) && Ran(a, start, q, c, m, run)
    requires !Touches(ext, m, p) && ChunkAt(run.stop, repo, p, ch)
    ensures ChunkAt(a, repo, p, ch)
  {
    MidTables(a, start, q, c, m, run);
    RunsFor(a, start, repo, ext, q, c, m, run);
    SameRecords(a, run.start, run.t, map[], repo, []);
    var paths := PathsOfRun(a, run.start, q, m);
    hide Ran, Sound, Below, CleanAt, Touches, Confined, SameChunks, ChunkAt, PathsOfRun, NoLegacy;
    if q == repo { PathsTouched(a, run.start, repo, ext, m, p); }
    ChunkBefore(run, q, paths, repo, p, ch);
    DriftedChunk(a, run.start, run.t, repo, p, ch);
  }

  lemma CompletePublishes(ext: string, repo: Id, s: State, run: Run, published: seq<Id>, p: Rel, ch: Id)
    requires Record(s.db, s.next, repo, ext) && s.phase.Cloned? && s.queue != [] && s.queue[0].ext == ext
    requires Ran(s.db, s.next, repo, s.phase.clone, s.queue[0], run)
    requires Applied(s.db, run.start, run.stop, repo, s.phase.clone, s.queue[0], run.gone, run.t, published)
    requires Touches(ext, s.queue[0], p) && ChunkAt(run.stop, repo, p, ch)
    ensures ch in published
  {
    var c, m := s.phase.clone, s.queue[0];
    MidTables(s.db, s.next, repo, c, m, run);
    RunsFor(s.db, s.next, repo, ext, repo, c, m, run);
    var paths := RebuiltPaths(s.db, run, repo, ext, c, m, published, p);
    hide *;
    RebuiltPublished(run, repo, c, paths, PathsOfRun(s.db, run.start, repo, m), published, p, ch);
  }

  lemma RebuiltPaths(a: DB, run: Run, repo: Id, ext: string, c: Clone, m: RepositoryInput, published: seq<Id>, p: Rel)
    returns (paths: iset<Rel>)
    requires Applied(a, run.start, run.stop, repo, c, m, run.gone, run.t, published) && Touches(ext, m, p)
    ensures Rebuilt(run.start, run.stop, repo, c, run.gone, paths, published) && p in paths
  {
    hide CleanAt, Absent, Rebuilt, Drift, NoLegacy, IsGo, GoOnly;
    paths := Everywhere();
    if m.incremental && Known(a, m.ext) && NoLegacy(run.start, repo) {
      MentionedPaths(run.start, repo, m.changed, m.removed);
      paths := ScopeOfRun(run.start, repo, m.changed, m.removed);
      assert p in GoOnly(m.changed) + GoOnly(m.removed);
    }
  }

  // ---------- Steps ----------

  /** A path settled by a finished run was settled before, or is one that the message touches. */
  lemma SettledBefore(ext: string, s: State, s': State, p: Rel)
    requires s.phase.Cloned? && s.queue != [] && s'.phase.Finished? && s'.queue == s.queue
    requires s'.suspect == s.suspect - (iset p | Touches(ext, s.queue[0], p)) && Settled(ext, s', p)
    ensures Touches(ext, s.queue[0], p) ==> s.queue[0].ext == ext
    ensures !Touches(ext, s.queue[0], p) ==> Settled(ext, s, p) && p !in s.suspect
  {
    PendingFirst(ext, s.queue, p);
  }

  lemma WasPublished(ext: string, repo: Id, s: State, pub: set<Id>, p: Rel, c: Id)
    requires AllPublished(ext, repo, s, pub) && Settled(ext, s, p) && ChunkAt(s.db, repo, p, c)
    ensures c in pub
  {
    hide Settled, ChunkAt;
  }

  lemma AllPublishedWhen(ext: string, repo: Id, s: State, pub: set<Id>)
    requires forall p, c :: Settled(ext, s, p) && ChunkAt(s.db, repo, p, c) ==> c in pub
    ensures AllPublished(ext, repo, s, pub)
  {
    hide Settled, ChunkAt;
  }

  /** After a stopped run the message is still first, so its paths are not settled. */
  lemma SettledCrash(ext: string, s: State, s': State, p: Rel)
    requires s.phase.Cloned? && s.queue != [] && s'.phase.Idle? && s'.queue == s.queue && s'.suspect == s.suspect
    requires Settled(ext, s', p)
    ensures !Touches(ext, s.queue[0], p) && Settled(ext, s, p) && p !in s.suspect
  {
    PendingFirst(ext, s.queue, p);
  }

  lemma CrashPublished(ext: string, repo: Id, s: State, pub: set<Id>, q: Id, run: Run)
    requires Inv(ext, repo, s) && AllPublished(ext, repo, s, pub) && s.phase.Cloned?
    requires Ran(s.db, s.next, q, s.phase.clone, s.queue[0], run)
    ensures AllPublished(ext, repo, s.(phase := Idle, db := run.stop, next := run.hi), pub)
  {
    var s' := s.(phase := Idle, db := run.stop, next := run.hi);
    InvParts(ext, repo, s);
    assert s.queue != [] && (NoLegacy(s.db, repo) || forall p :: p in s.suspect);
    hide *;
    forall p, c | Settled(ext, s', p) && ChunkAt(s'.db, repo, p, c) ensures c in pub {
      SettledCrash(ext, s, s', p);
      RunBringsNone(s.db, s.next, repo, ext, q, s.phase.clone, s.queue[0], run, p, c);
      WasPublished(ext, repo, s, pub, p, c);
    }
    AllPublishedWhen(ext, repo, s', pub);
  }

  lemma CompletePublished(ext: string, repo: Id, s: State, s': State, pub: set<Id>, q: Id, run: Run,
                          published: seq<Id>)
    requires Inv(ext, repo, s) && AllPublished(ext, repo, s, pub) && s.phase.Cloned?
    requires Ran(s.db, s.next, q, s.phase.clone, s.queue[0], run)
    requires Applied(s.db, run.start, run.stop, q, s.phase.clone, s.queue[0], run.gone, run.t, published)
    requires s' == s.(phase := Finished(s.phase.clone), db := run.stop, next := run.hi,
                      suspect := s.suspect - (iset p | Touches(ext, s.queue[0], p)))
    ensures AllPublished(ext, repo, s', pub + Elems(published))
  {
    InvParts(ext, repo, s);
    assert s.queue != [] && (NoLegacy(s.db, repo) || forall p :: p in s.suspect);
    hide *;
    RunsFor(s.db, s.next, repo, ext, q, s.phase.clone, s.queue[0], run);
    forall p, c | Settled(ext, s', p) && ChunkAt(s'.db, repo, p, c) ensures c in pub + Elems(published) {
      SettledBefore(ext, s, s', p);
      if Touches(ext, s.queue[0], p) {
        CompletePublishes(ext, repo, s, run, published, p, c);
      } else {
        RunBringsNone(s.db, s.next, repo, ext, q, s.phase.clone, s.queue[0], run, p, c);
        WasPublished(ext, repo, s, pub, p, c);
      }
    }
    AllPublishedWhen(ext, repo, s', pub + Elems(published));
  }

  /** A step that only settles fewer paths, or writes columns. */
  lemma FewerPublished(ext: string, repo: Id, s: State, s': State, pub: set<Id>)
    requires AllPublished(ext, repo, s, pub)
    requires forall p :: Settled(ext, s', p) ==> Settled(ext, s, p)
    requires forall p, c :: ChunkAt(s'.db, repo, p, c) ==> ChunkAt(s.db, repo, p, c)
    ensures AllPublished(ext, repo, s', pub)
  {
    hide Settled, ChunkAt;
  }

  lemma FewerAfterPop(ext: string, s: State, s': State)
    requires s.queue != [] && s'.queue == s.queue[1..] && s'.phase.Idle?
    requires if s.phase.Finished? then s'.suspect == s.suspect
             else s.phase.Idle? && s'.suspect == s.suspect + (iset p | Touches(ext, s.queue[0], p))
    ensures forall p :: Settled(ext, s', p) ==> Settled(ext, s, p)
  {
    hide Pending, Touches;
    forall p ensures Settled(ext, s', p) ==> Settled(ext, s, p) {
      PendingPop(ext, s.queue, 0, p);
      PendingFirst(ext, s.queue, p);
    }
  }

  lemma FewerAfterPush(ext: string, s: State, m: RepositoryInput, tree: Tree)
    requires Protocol.Done(s.phase) <= |s.queue|
    ensures forall p :: Settled(ext, s.(head := tree, queue := s.queue + [m]), p) ==> Settled(ext, s, p)
  {
    hide Pending, Touches;
    forall p ensures Settled(ext, s.(head := tree, queue := s.queue + [m]), p) ==> Settled(ext, s, p) {
      PendingPush(ext, s.queue, m, Protocol.Done(s.phase), p);
    }
  }

  lemma SettledStep(ext: string, repo: Id, s: State, e: Event, s': State)
    requires Inv(ext, repo, s) && Step(ext, s, e, s') && !e.Crash? && !e.Reject? && !e.Complete?
    ensures forall p :: Settled(ext, s', p) ==> Settled(ext, s, p)
    ensures forall p, c :: ChunkAt(s'.db, repo, p, c) ==> ChunkAt(s.db, repo, p, c)
  {
    InvParts(ext, repo, s);
    assert s.phase.Finished? ==> s.queue != [];
    hide Inv, CloneLags, RemovedOrLater, CleanUnlessPending, Record, LegacyInDoubt, FaithfulPush, Touches, Loads,
        SameChunks, ChunkAt, Pending;
    match e {
      case Push(m, tree) => FewerAfterPush(ext, s, m, tree);
      case RejectUncloned => FewerAfterPop(ext, s, s');
      case Ack => FewerAfterPop(ext, s, s');
      case CrashUnacked =>
        forall p ensures Settled(ext, s', p) ==> Settled(ext, s, p) { PendingFirst(ext, s.queue, p); }
      case Write(db, t) =>
        forall p, c | ChunkAt(db, repo, p, c) ensures ChunkAt(s.db, repo, p, c) {
          DriftedChunk(s.db, db, t, repo, p, c);
        }
      case Deliver(c) =>
    }
  }

  lemma RejectPublished(ext: string, repo: Id, s: State, s': State, pub: set<Id>, q: Id, run: Run)
    requires Inv(ext, repo, s) && AllPublished(ext, repo, s, pub) && s.phase.Cloned? && s.queue != []
    requires Ran(s.db, s.next, q, s.phase.clone, s.queue[0], run)
    requires s' == s.(phase := Idle, db := run.stop, next := run.hi, queue := s.queue[1..],
                      suspect := s.suspect + (iset p | Touches(ext, s.queue[0], p)))
    ensures AllPublished(ext, repo, s', pub)
  {
    var mid := s.(phase := Idle, db := run.stop, next := run.hi);
    hide *;
    CrashPublished(ext, repo, s, pub, q, run);
    FewerAfterPop(ext, mid, s');
    FewerPublished(ext, repo, mid, s', pub);
  }

  lemma StepPublished(ext: string, repo: Id, s: State, pub: set<Id>, e: Event, s': State)
    requires Inv(ext, repo, s) && AllPublished(ext, repo, s, pub) && Step(ext, s, e, s')
    ensures AllPublished(ext, repo, s', pub + PublishedBy(e))
  {
    assert pub + {} == pub;
    hide Inv, AllPublished, Ran, Applied, Touches, Settled, ChunkAt, FaithfulPush, Drift, Loads;
    match e {
      case Crash(q, run) => CrashPublished(ext, repo, s, pub, q, run);
      case Reject(q, run) => RejectPublished(ext, repo, s, s', pub, q, run);
      case Complete(q, run, published) => CompletePublished(ext, repo, s, s', pub, q, run, published);
      case _ =>
        SettledStep(ext, repo, s, e, s');
        FewerPublished(ext, repo, s, s', pub);
    }
  }

  // ---------- Whole histories ----------

  /** In every reachable state each chunk at a path neither pending nor in doubt has been published. */
  lemma {:induction false} ChunksArePublished(ext: string, repo: Id, states: seq<State>, events: seq<Event>,
                                              before: set<Id>)
    requires History(ext, repo, states, events) && AllPublished(ext, repo, states[0], before)
    ensures AllPublished(ext, repo, states[|events|], Published(before, events))
  {
    hide Inv, Step, Init, AllPublished, PublishedBy;
    if events != [] {
      var n := |events| - 1;
      assert History(ext, repo, states[..n + 1], events[..n]);
      ChunksArePublished(ext, repo, states[..n + 1], events[..n], before);
      InvAlways(ext, repo, states[..n + 1], events[..n]);
      StepPublished(ext, repo, states[n], Published(before, events[..n]), events[n], states[n + 1]);
    }
  }

  /** From the push to the vector: with the workers' system over the same tables and its queues fed by what the runs
      published, every chunk at a settled path has its embedding, or its event is queued, in progress or dead-lettered;
      and likewise its summary. */
  lemma SettledChunksAccounted(ext: string, repo: Id, states: seq<State>, events: seq<Event>, before: set<Id>,
                               worlds: seq<W.World>, moves: seq<W.Event>, p: Rel, c: Id)
    requires History(ext, repo, states, events) && AllPublished(ext, repo, states[0], before)
    requires W.History(worlds, moves) && View(states[|events|].db) == worlds[|moves|].chunks
    requires forall x :: x in Published(before, events) ==> x in worlds[|moves|].published
    requires Settled(ext, states[|events|], p) && ChunkAt(states[|events|].db, repo, p, c)
    ensures var w, row := worlds[|moves|], states[|events|].db.chunks[c];
            && (row.embedding.Some? || c in w.embs.queue || (!w.emb.Idle? && w.emb.chunk == c) || c in w.embs.dead)
            && (row.summary.Some? || c in w.sums.queue || (!w.sum.Idle? && w.sum.chunk == c) || c in w.sums.dead)
  {
    ChunksArePublished(ext, repo, states, events, before);
    assert c in worlds[|moves|].published && c in worlds[|moves|].chunks;
    hide History, W.History, AllPublished, Settled;
    W.NoEventLost(worlds, moves, c);
  }
}
