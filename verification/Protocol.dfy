/** The push / clone / index protocol of one repository among others on the same queue: pushes move the branch head,
    one consumer clones the head as it is when a message comes up, runs may stop anywhere and be repeated, and
    failed messages are put aside. */
module Protocol {
  import opened Base
  import opened Paths
  import opened SourceTree
  import opened Tables
  import opened Backends
  import opened Index
  import opened FileRows
  import opened Runs
  import opened Pipeline
  import opened Refinement
  import opened Isolation
  import opened Messages

  /** Idle: no message out. Cloned: the first message is out and its clone taken. Finished: its run succeeded, not yet
      acknowledged. */
  datatype Phase = Idle | Cloned(clone: Clone) | Finished(clone: Clone)

  /** queue holds every message from the push that sent it until it is acknowledged or rejected, the one in progress
      first. suspect holds the paths of rejected messages that no later run has rebuilt. */
  datatype State = State(head: Tree, queue: seq<RepositoryInput>, phase: Phase, db: DB, next: Id, suspect: iset<Rel>)

  datatype Event =
    | Push(input: RepositoryInput, tree: Tree)
    | Deliver(clone: Clone)
    | Crash(repo: Id, run: Run)
    | Reject(repo: Id, run: Run)
    | RejectUncloned
    | Complete(repo: Id, run: Run, published: seq<Id>)
    | CrashUnacked
    | Ack
    | Write(db: DB, t: Writes)

  ghost predicate Touches(ext: string, m: RepositoryInput, p: Rel) {
    m.ext == ext && (!m.incremental || Mentioned(m.changed, m.removed, p))
  }

  ghost predicate Pending(ext: string, queue: seq<RepositoryInput>, from: nat, p: Rel) {
    exists k :: from <= k < |queue| && Touches(ext, queue[k], p)
  }

  /** A message of this repository is sent when its branch moves, and an incremental one covers the move. */
  ghost predicate FaithfulPush(ext: string, head: Tree, m: RepositoryInput, tree: Tree) {
    && (m.ext != ext ==> tree == head)
    && (m.ext == ext && m.incremental ==> CoversDiff(head, tree, m.changed, m.removed))
  }

  ghost predicate Step(ext: string, s: State, e: Event, s': State) {
    match e
    case Push(m, tree) =>
      FaithfulPush(ext, s.head, m, tree) && s' == s.(head := tree, queue := s.queue + [m])
    case Deliver(c) =>
      && s.phase.Idle? && s.queue != [] && Loads(c) && (s.queue[0].ext == ext ==> c.tree == s.head)
      && s' == s.(phase := Cloned(c))
    case Crash(repo, run) =>
      && s.phase.Cloned? && s.queue != [] && Ran(s.db, s.next, repo, s.phase.clone, s.queue[0], run)
      && s' == s.(phase := Idle, db := run.stop, next := run.hi)
    case Reject(repo, run) =>
      && s.phase.Cloned? && s.queue != [] && Ran(s.db, s.next, repo, s.phase.clone, s.queue[0], run)
      && s' == s.(phase := Idle, db := run.stop, next := run.hi, queue := s.queue[1..],
                  suspect := s.suspect + (iset p | Touches(ext, s.queue[0], p)))
    case RejectUncloned =>
      && s.phase.Idle? && s.queue != []
      && s' == s.(queue := s.queue[1..], suspect := s.suspect + (iset p | Touches(ext, s.queue[0], p)))
    case Complete(repo, run, published) =>
      && s.phase.Cloned? && s.queue != [] && Ran(s.db, s.next, repo, s.phase.clone, s.queue[0], run)
      && Applied(s.db, run.start, run.stop, repo, s.phase.clone, s.queue[0], run.gone, run.t, published)
      && s' == s.(phase := Finished(s.phase.clone), db := run.stop, next := run.hi,
                  suspect := s.suspect - (iset p | Touches(ext, s.queue[0], p)))
    case CrashUnacked =>
      s.phase.Finished? && s' == s.(phase := Idle)
    case Ack =>
      s.phase.Finished? && s.queue != [] && s' == s.(phase := Idle, queue := s.queue[1..])
    case Write(db, t) =>
      Drift(s.db, db, t) && s' == s.(db := db)
  }

  // ---------- The invariant ----------

  ghost predicate Record(db: DB, next: Id, repo: Id, ext: string) {
    Sound(db) && Below(db, next) && repo in db.repos && db.repos[repo].ext == ext
  }

  /** How many messages at the front of the queue no longer count as pending: the one whose run has finished. */
  function Done(ph: Phase): nat { if ph.Finished? then 1 else 0 }

  /** A path that no message to come mentions, and no rejected one left in doubt, is as the head has it. */
  ghost predicate CleanUnlessPending(ext: string, repo: Id, s: State) {
    forall p :: !Pending(ext, s.queue, Done(s.phase), p) && p !in s.suspect ==> CleanAt(s.db, repo, s.head, p)
  }

  /** Where the clone in progress differs from the head, a later message says so. */
  ghost predicate CloneLags(ext: string, s: State) {
    !s.phase.Idle? ==>
      && s.queue != []
      && (s.queue[0].ext == ext ==>
            forall p :: !SameYield(s.phase.clone.tree, s.head, p) ==> Pending(ext, s.queue, 1, p))
  }

  ghost predicate RemovesAt(ext: string, queue: seq<RepositoryInput>, k: nat, p: Rel)
    requires k < |queue|
  {
    queue[k].ext == ext && queue[k].incremental && IsGo(p) && p in queue[k].removed && p !in queue[k].changed
  }

  /** What a queued message removes is not in the head, unless a later message brings it up again. */
  ghost predicate RemovedOrLater(ext: string, s: State) {
    forall k, p :: 0 <= k < |s.queue| && RemovesAt(ext, s.queue, k, p) ==>
                   Expected(s.head, p).None? || Pending(ext, s.queue, k + 1, p)
  }

  /** While absolute paths are left in the index, everything is in doubt. */
  ghost predicate LegacyInDoubt(repo: Id, s: State) { NoLegacy(s.db, repo) || forall p :: p in s.suspect }

  ghost predicate Inv(ext: string, repo: Id, s: State) {
    && Record(s.db, s.next, repo, ext) && LegacyInDoubt(repo, s)
    && CleanUnlessPending(ext, repo, s) && CloneLags(ext, s) && RemovedOrLater(ext, s)
  }

  /** A repository with a record, indexed or not, by this version or an older one: whatever is not as the head has it
      is in doubt. */
  ghost predicate Init(ext: string, repo: Id, s: State) {
    && s.queue == [] && s.phase.Idle? && Record(s.db, s.next, repo, ext) && LegacyInDoubt(repo, s)
    && forall p :: p !in s.suspect ==> CleanAt(s.db, repo, s.head, p)
  }

  // ---------- Pending, step by step ----------

  lemma PendingPush(ext: string, queue: seq<RepositoryInput>, m: RepositoryInput, from: nat, p: Rel)
    requires from <= |queue|
    ensures Pending(ext, queue + [m], from, p) <==> Pending(ext, queue, from, p) || Touches(ext, m, p)
  {
    if Pending(ext, queue, from, p) {
      var k :| from <= k < |queue| && Touches(ext, queue[k], p);
      assert Touches(ext, (queue + [m])[k], p);
    }
    if Touches(ext, m, p) { assert Touches(ext, (queue + [m])[|queue|], p); }
  }

  lemma PendingPop(ext: string, queue: seq<RepositoryInput>, from: nat, p: Rel)
    requires queue != []
    ensures Pending(ext, queue[1..], from, p) <==> Pending(ext, queue, from + 1, p)
  {
    if Pending(ext, queue[1..], from, p) {
      var k :| from <= k < |queue[1..]| && Touches(ext, queue[1..][k], p);
      assert Touches(ext, queue[k + 1], p);
    }
    if Pending(ext, queue, from + 1, p) {
      var k :| from + 1 <= k < |queue| && Touches(ext, queue[k], p);
      assert Touches(ext, queue[1..][k - 1], p);
    }
  }

  lemma PendingFirst(ext: string, queue: seq<RepositoryInput>, p: Rel)
    requires queue != []
    ensures Pending(ext, queue, 0, p) <==> Touches(ext, queue[0], p) || Pending(ext, queue, 1, p)
  {
  }

  // ---------- Every step keeps the invariant ----------

  lemma PushLeaves(ext: string, head: Tree, m: RepositoryInput, tree: Tree, p: Rel)
    requires FaithfulPush(ext, head, m, tree) && !Touches(ext, m, p)
    ensures SameYield(head, tree, p)
    ensures Expected(head, p).None? <==> Expected(tree, p).None?
  {
  }

  lemma PushKeeps(ext: string, repo: Id, s: State, m: RepositoryInput, tree: Tree)
    requires Inv(ext, repo, s) && FaithfulPush(ext, s.head, m, tree)
    ensures Inv(ext, repo, s.(head := tree, queue := s.queue + [m]))
  {
    var s' := s.(head := tree, queue := s.queue + [m]);
    hide Record, CleanAt, Pending, Touches, Expected, FaithfulPush;
    assert CleanUnlessPending(ext, repo, s') by {
      forall p | !Pending(ext, s'.queue, Done(s'.phase), p) &&
          p !in s'.suspect ensures CleanAt(s'.db, repo, s'.head, p) {
        PendingPush(ext, s.queue, m, Done(s.phase), p);
        PushLeaves(ext, s.head, m, tree, p);
        SameYieldClean(s.db, repo, s.head, tree, p);
      }
    }
    assert CloneLags(ext, s') by { LagsAfterPush(ext, s, m, tree); }
    assert RemovedOrLater(ext, s') by { RemovedAfterPush(ext, s, m, tree); }
  }

  lemma LagsAfterPush(ext: string, s: State, m: RepositoryInput, tree: Tree)
    requires CloneLags(ext, s) && FaithfulPush(ext, s.head, m, tree)
    ensures CloneLags(ext, s.(head := tree, queue := s.queue + [m]))
  {
    var s' := s.(head := tree, queue := s.queue + [m]);
    hide Pending, Touches, SameYield, FaithfulPush;
    if !s.phase.Idle? && s'.queue[0].ext == ext {
      assert s'.queue[0] == s.queue[0];
      forall p | !SameYield(s.phase.clone.tree, tree, p) ensures Pending(ext, s'.queue, 1, p) {
        PendingPush(ext, s.queue, m, 1, p);
        if !Touches(ext, m, p) && SameYield(s.phase.clone.tree, s.head, p) {
          PushLeaves(ext, s.head, m, tree, p);
          SameYieldTrans(s.phase.clone.tree, s.head, tree, p);
        }
      }
    }
  }

  lemma PushRemoves(ext: string, head: Tree, m: RepositoryInput, tree: Tree, p: Rel)
    requires FaithfulPush(ext, head, m, tree) && RemovesAt(ext, [m], 0, p)
    ensures Expected(tree, p).None?
  {
    hide SameYield;
  }

  lemma RemovedAfterPush(ext: string, s: State, m: RepositoryInput, tree: Tree)
    requires RemovedOrLater(ext, s) && FaithfulPush(ext, s.head, m, tree)
    ensures RemovedOrLater(ext, s.(head := tree, queue := s.queue + [m]))
  {
    var s' := s.(head := tree, queue := s.queue + [m]);
    hide Pending, Touches, Expected, FaithfulPush, IsGo;
    forall k, p | 0 <= k < |s'.queue| && RemovesAt(ext, s'.queue, k, p)
      ensures Expected(s'.head, p).None? || Pending(ext, s'.queue, k + 1, p)
    {
      if k < |s.queue| {
        assert s'.queue[k] == s.queue[k] && RemovesAt(ext, s.queue, k, p);
        PendingPush(ext, s.queue, m, k + 1, p);
        if !Touches(ext, m, p) { PushLeaves(ext, s.head, m, tree, p); }
      } else {
        PushRemoves(ext, s.head, m, tree, p);
      }
    }
  }

  lemma RemovedAfterPop(ext: string, s: State, s': State)
    requires RemovedOrLater(ext, s) && s.queue != [] && s'.queue == s.queue[1..] && s'.head == s.head
    ensures RemovedOrLater(ext, s')
  {
    hide Pending, Touches, Expected;
    forall k, p | 0 <= k < |s'.queue| && RemovesAt(ext, s'.queue, k, p)
      ensures Expected(s'.head, p).None? || Pending(ext, s'.queue, k + 1, p)
    {
      assert RemovesAt(ext, s.queue, k + 1, p);
      PendingPop(ext, s.queue, k + 1, p);
    }
  }

  // ---------- Runs ----------

  /** Which repository a run is about follows from the external id of its message. */
  lemma RunsFor(a: DB, start: Id, repo: Id, ext: string, q: Id, c: Clone, m: RepositoryInput, run: Run)
    requires Record(a, start, repo, ext) && Ran(a, start, q, c, m, run)
    ensures m.ext == ext <==> q == repo
    ensures m.ext == ext ==> Known(a, ext)
    ensures repo in run.stop.repos && run.stop.repos[repo].ext == ext
  {
    hide Effect;
  }

  lemma LegacyOther(run: Run, q: Id, paths: iset<Rel>, repo: Id)
    requires Sound(run.start) && Below(run.start, run.lo) && Confined(run, q, paths) && NoLegacy(run.start, repo)
    ensures NoLegacy(run.stop, repo)
  {
    if q == repo {
      NoLegacyStays(run, repo, paths);
    } else {
      OtherRepositories(run, q, paths, repo);
      hide Confined, Sound, Below;
      forall f | f in run.stop.files && run.stop.files[f].repo == repo ensures run.stop.files[f].path.RelPath? {
        assert f in FilesOf(run.stop, repo);
      }
    }
  }

  /** A run for another repository leaves this one's index as it was. */
  lemma CleanOther(run: Run, q: Id, paths: iset<Rel>, repo: Id, tree: Tree, p: Rel)
    requires Sound(run.start) && Below(run.start, run.lo) && Confined(run, q, paths) && q != repo
    requires CleanAt(run.start, repo, tree, p)
    ensures CleanAt(run.stop, repo, tree, p)
  {
    var a, b := run.start, run.stop;
    GoneOfRepo(run, q, paths);
    OtherRepositories(run, q, paths, repo);
    hide Confined, Sound, Below, Grows, DeleteFiles, SymbolsListed, ChunksListed;
    match Expected(tree, p) {
      case Some(src) =>
        var f, sids, cids :| Listed(a, repo, p, src, f, sids, cids);
        assert f !in run.gone;
        ListedFrame(a, b, q, run.lo, run.t, run.gone, repo, p, src, f, sids, cids);
      case None =>
        forall f | f in b.files ensures b.files[f] != FileRow(repo, RelPath(p)) {
          if b.files[f].repo == repo { assert f in FilesOf(b, repo) && SameRowsOf(a, b, run.t, f); }
        }
    }
  }

  lemma PathsTouched(a: DB, mid: DB, repo: Id, ext: string, m: RepositoryInput, p: Rel)
    requires m.ext == ext && Known(a, ext) && NoLegacy(mid, repo)
    ensures p in PathsOfRun(a, mid, repo, m) <==> Touches(ext, m, p)
  {
    if m.incremental { MentionedPaths(mid, repo, m.changed, m.removed); }
  }

  /** Wherever a run stops, the paths its message does not mention are as they were. */
  lemma RunKeepsClean(a: DB, start: Id, repo: Id, ext: string, q: Id, c: Clone, m: RepositoryInput, run: Run,
                      tree: Tree, p: Rel)
    requires Record(a, start, repo, ext) && NoLegacy(a, repo) && Ran(a, start, q, c, m, run)
    requires !Touches(ext, m, p) && CleanAt(a, repo, tree, p)
    ensures CleanAt(run.stop, repo, tree, p)
  {
    MidTables(a, start, q, c, m, run);
    RunsFor(a, start, repo, ext, q, c, m, run);
    hide Ran, Sound, Below, CleanAt, Touches, Confined, SameChunks;
    SameRecords(a, run.start, run.t, tree, repo, p);
    var paths := PathsOfRun(a, run.start, q, m);
    if q == repo {
      PathsTouched(a, run.start, repo, ext, m, p);
      hide *;
      SameUnmentioned(run, repo, paths, tree, p);
    } else {
      CleanOther(run, q, paths, repo, tree, p);
    }
  }

  lemma RunKeepsRecord(a: DB, start: Id, repo: Id, ext: string, q: Id, c: Clone, m: RepositoryInput, run: Run)
    requires Record(a, start, repo, ext) && Ran(a, start, q, c, m, run)
    ensures Record(run.stop, run.hi, repo, ext)
    ensures NoLegacy(a, repo) ==> NoLegacy(run.stop, repo)
  {
    MidTables(a, start, q, c, m, run);
    RunsFor(a, start, repo, ext, q, c, m, run);
    hide Ran, Sound, Below, Confined, SameChunks;
    SameRecords(a, run.start, run.t, map[], repo, []);
    hide NoLegacy;
    if NoLegacy(a, repo) {
      LegacyOther(run, q, PathsOfRun(a, run.start, q, m), repo);
    }
  }

  /** A successful run leaves every path its message mentions as the head has it, or a later message mentions it. */
  lemma RunCleans(ext: string, repo: Id, s: State, run: Run, published: seq<Id>, p: Rel)
    requires Inv(ext, repo, s) && s.phase.Cloned? && s.queue[0].ext == ext
    requires Ran(s.db, s.next, repo, s.phase.clone, s.queue[0], run)
    requires Applied(s.db, run.start, run.stop, repo, s.phase.clone, s.queue[0], run.gone, run.t, published)
    requires Touches(ext, s.queue[0], p) && !Pending(ext, s.queue, 1, p)
    ensures CleanAt(run.stop, repo, s.head, p)
    ensures NoLegacy(run.stop, repo) || NoLegacy(s.db, repo)
  {
    var c, m := s.phase.clone, s.queue[0];
    MidTables(s.db, s.next, repo, c, m, run);
    RunsFor(s.db, s.next, repo, ext, repo, c, m, run);
    SameRecords(s.db, run.start, run.t, map[], repo, []);
    assert SameYield(c.tree, s.head, p);
    SameYieldClean(run.stop, repo, c.tree, s.head, p);
    assert m.incremental && IsGo(p) && p in m.removed && p !in m.changed ==> Expected(s.head, p).None? by {
      if m.incremental && IsGo(p) && p in m.removed && p !in m.changed { assert RemovesAt(ext, s.queue, 0, p); }
    }
    hide Inv, Ran, Sound, Below, CleanAt, Confined, SameChunks, Pending;
    if m.incremental {
      assert PushApplied(run.start, run.stop, repo, c, m.changed, m.removed, run.gone, run.t, published);
      hide Applied;
      if NoLegacy(run.start, repo) {
        hide PushApplied;
        PushParts(run.start, run.stop, repo, c, m.changed, m.removed, run.gone, run.t, published);
        if p !in m.changed { AbsentOrIndexed(run.stop, repo, s.head, p); }
      } else {
        assert FullIndex(run.stop, repo, c.tree);
      }
    } else {
      assert FullIndex(run.stop, repo, c.tree);
    }
  }

  lemma InvParts(ext: string, repo: Id, s: State)
    ensures Inv(ext, repo, s) <==>
            Record(s.db, s.next, repo, ext) && LegacyInDoubt(repo, s) && CleanUnlessPending(ext, repo, s) &&
                CloneLags(ext, s) && RemovedOrLater(ext, s)
  {
  }

  /** An interrupted run: its message is still first, so the paths it may have left half done are pending. */
  lemma CrashKeeps(ext: string, repo: Id, s: State, q: Id, run: Run)
    requires Inv(ext, repo, s) && s.phase.Cloned? && Ran(s.db, s.next, q, s.phase.clone, s.queue[0], run)
    ensures Inv(ext, repo, s.(phase := Idle, db := run.stop, next := run.hi))
  {
    var s' := s.(phase := Idle, db := run.stop, next := run.hi);
    assert CloneLags(ext, s') && RemovedOrLater(ext, s') && s.queue != [];
    RunKeepsRecord(s.db, s.next, repo, ext, q, s.phase.clone, s.queue[0], run);
    hide CloneLags, RemovedOrLater, Record, Ran, CleanAt, Pending, Touches;
    forall p | !Pending(ext, s'.queue, 0, p) && p !in s'.suspect ensures CleanAt(s'.db, repo, s'.head, p) {
      PendingFirst(ext, s.queue, p);
      RunKeepsClean(s.db, s.next, repo, ext, q, s.phase.clone, s.queue[0], run, s.head, p);
    }
  }

  /** A rejected message leaves its paths in doubt. */
  lemma RejectKeeps(ext: string, repo: Id, s: State, s': State)
    requires Inv(ext, repo, s) && s.phase.Idle? && s.queue != []
    requires s' == s.(queue := s.queue[1..], suspect := s.suspect + (iset p | Touches(ext, s.queue[0], p)))
    ensures Inv(ext, repo, s')
  {
    RemovedAfterPop(ext, s, s');
    hide RemovedOrLater, Record, CleanAt, Pending, Touches;
    forall p | !Pending(ext, s'.queue, 0, p) && p !in s'.suspect ensures CleanAt(s'.db, repo, s'.head, p) {
      PendingPop(ext, s.queue, 0, p);
      PendingFirst(ext, s.queue, p);
    }
  }

  lemma CompleteKeeps(ext: string, repo: Id, s: State, s': State, q: Id, run: Run, published: seq<Id>)
    requires Inv(ext, repo, s) && s.phase.Cloned? && Ran(s.db, s.next, q, s.phase.clone, s.queue[0], run)
    requires Applied(s.db, run.start, run.stop, q, s.phase.clone, s.queue[0], run.gone, run.t, published)
    requires s' == s.(phase := Finished(s.phase.clone), db := run.stop, next := run.hi,
                      suspect := s.suspect - (iset p | Touches(ext, s.queue[0], p)))
    ensures Inv(ext, repo, s')
  {
    assert CloneLags(ext, s') && RemovedOrLater(ext, s') && s.queue != [];
    RunKeepsRecord(s.db, s.next, repo, ext, q, s.phase.clone, s.queue[0], run);
    RunsFor(s.db, s.next, repo, ext, q, s.phase.clone, s.queue[0], run);
    InvParts(ext, repo, s);
    CompleteLegacy(ext, repo, s, s', q, run, published);
    hide Inv, CloneLags, RemovedOrLater, Record, Ran, Applied, CleanAt, Pending, NoLegacy;
    forall p | !Pending(ext, s'.queue, 1, p) && p !in s'.suspect ensures CleanAt(s'.db, repo, s'.head, p) {
      PendingFirst(ext, s.queue, p);
      if Touches(ext, s.queue[0], p) {
        RunCleans(ext, repo, s, run, published, p);
      } else {
        RunKeepsClean(s.db, s.next, repo, ext, q, s.phase.clone, s.queue[0], run, s.head, p);
      }
    }
    InvParts(ext, repo, s');
  }

  lemma LegacyRebuilt(a: DB, repo: Id, c: Clone, m: RepositoryInput, run: Run, published: seq<Id>)
    requires Applied(a, run.start, run.stop, repo, c, m, run.gone, run.t, published) && !NoLegacy(run.start, repo)
    ensures NoLegacy(run.stop, repo)
  {
    hide NoLegacy, CleanAt, Rebuilt, Drift;
  }

  /** A run that succeeds on an index with absolute paths rebuilds it, if it is a run of this repository. */
  lemma CompleteLegacy(ext: string, repo: Id, s: State, s': State, q: Id, run: Run, published: seq<Id>)
    requires Inv(ext, repo, s) && s.phase.Cloned? && Ran(s.db, s.next, q, s.phase.clone, s.queue[0], run)
    requires Applied(s.db, run.start, run.stop, q, s.phase.clone, s.queue[0], run.gone, run.t, published)
    requires s'.db == run.stop && s'.suspect == s.suspect - (iset p | Touches(ext, s.queue[0], p))
    requires NoLegacy(s.db, repo) ==> NoLegacy(run.stop, repo)
    ensures LegacyInDoubt(repo, s')
  {
    InvParts(ext, repo, s);
    CloneTaken(ext, repo, s);
    hide *;
    RunsFor(s.db, s.next, repo, ext, q, s.phase.clone, s.queue[0], run);
    MidTables(s.db, s.next, q, s.phase.clone, s.queue[0], run);
    SameRecords(s.db, run.start, run.t, map[], repo, []);
    if q == repo && !NoLegacy(s.db, repo) {
      LegacyRebuilt(s.db, repo, s.phase.clone, s.queue[0], run, published);
    }
    StillInDoubt(ext, repo, s, s', s.queue[0]);
  }

  lemma CloneTaken(ext: string, repo: Id, s: State)
    requires Inv(ext, repo, s) && s.phase.Cloned?
    ensures s.queue != []
  {
  }

  lemma StillInDoubt(ext: string, repo: Id, s: State, s': State, m: RepositoryInput)
    requires LegacyInDoubt(repo, s) && s'.suspect == s.suspect - (iset p | Touches(ext, m, p))
    requires NoLegacy(s.db, repo) || m.ext == ext ==> NoLegacy(s'.db, repo)
    ensures LegacyInDoubt(repo, s')
  {
    hide NoLegacy;
  }

  lemma AckKeeps(ext: string, repo: Id, s: State)
    requires Inv(ext, repo, s) && s.phase.Finished? && s.queue != []
    ensures Inv(ext, repo, s.(phase := Idle, queue := s.queue[1..]))
  {
    var s' := s.(phase := Idle, queue := s.queue[1..]);
    RemovedAfterPop(ext, s, s');
    hide RemovedOrLater, Record, CleanAt, Pending;
    forall p | !Pending(ext, s'.queue, 0, p) && p !in s'.suspect ensures CleanAt(s'.db, repo, s'.head, p) {
      PendingPop(ext, s.queue, 0, p);
    }
  }

  lemma WriteKeeps(ext: string, repo: Id, s: State, db: DB, t: Writes)
    requires Inv(ext, repo, s) && Drift(s.db, db, t)
    ensures Inv(ext, repo, s.(db := db))
  {
    var s' := s.(db := db);
    DriftKeepsSound(s.db, db, t);
    DriftKeys(s.db, db, t);
    hide Sound, Below, CleanAt, Pending, Drift, Touches, RemovesAt, Expected;
    assert Record(s'.db, s'.next, repo, ext);
    hide Record;
    assert CloneLags(ext, s') && RemovedOrLater(ext, s');
    hide CloneLags, RemovedOrLater;
    forall p | !Pending(ext, s'.queue, Done(s'.phase), p) && p !in s'.suspect ensures CleanAt(s'.db, repo, s'.head, p) {
      DriftKeepsClean(s.db, db, repo, t, s.head, p);
    }
  }

  /** Taking back the message changes nothing: its paths are pending again. */
  lemma RequeueKeeps(ext: string, repo: Id, s: State)
    requires Inv(ext, repo, s) && s.phase.Finished?
    ensures Inv(ext, repo, s.(phase := Idle))
  {
    var s' := s.(phase := Idle);
    hide Record, CleanAt, Touches;
    assert RemovedOrLater(ext, s');
    forall p | !Pending(ext, s'.queue, 0, p) && p !in s'.suspect ensures CleanAt(s'.db, repo, s'.head, p) {
      PendingFirst(ext, s.queue, p);
    }
  }

  lemma StepKeeps(ext: string, repo: Id, s: State, e: Event, s': State)
    requires Inv(ext, repo, s) && Step(ext, s, e, s')
    ensures Inv(ext, repo, s')
  {
    hide Inv, Ran, Applied, Drift, FaithfulPush, Touches;
    match e {
      case Push(m, tree) => PushKeeps(ext, repo, s, m, tree);
      case Deliver(c) => DeliverKeeps(ext, repo, s, c);
      case Crash(q, run) => CrashKeeps(ext, repo, s, q, run);
      case Reject(q, run) =>
        CrashKeeps(ext, repo, s, q, run);
        RejectKeeps(ext, repo, s.(phase := Idle, db := run.stop, next := run.hi), s');
      case RejectUncloned => RejectKeeps(ext, repo, s, s');
      case Complete(q, run, published) => CompleteKeeps(ext, repo, s, s', q, run, published);
      case CrashUnacked => RequeueKeeps(ext, repo, s);
      case Ack => AckKeeps(ext, repo, s);
      case Write(db, t) => WriteKeeps(ext, repo, s, db, t);
    }
  }

  lemma DeliverKeeps(ext: string, repo: Id, s: State, c: Clone)
    requires Inv(ext, repo, s) && s.phase.Idle? && s.queue != [] && (s.queue[0].ext == ext ==> c.tree == s.head)
    ensures Inv(ext, repo, s.(phase := Cloned(c)))
  {
    var s' := s.(phase := Cloned(c));
    hide Record, CleanAt, Pending, Touches;
    assert CloneLags(ext, s') && RemovedOrLater(ext, s') && CleanUnlessPending(ext, repo, s');
  }

  // ---------- Whole histories ----------

  ghost predicate History(ext: string, repo: Id, states: seq<State>, events: seq<Event>) {
    && |states| == |events| + 1 && Init(ext, repo, states[0])
    && forall k :: 0 <= k < |events| ==> Step(ext, states[k], events[k], states[k + 1])
  }

  lemma InitHolds(ext: string, repo: Id, s: State)
    requires Init(ext, repo, s)
    ensures Inv(ext, repo, s)
  {
  }

  lemma {:induction false} InvAlways(ext: string, repo: Id, states: seq<State>, events: seq<Event>)
    requires History(ext, repo, states, events)
    ensures Inv(ext, repo, states[|events|])
  {
    hide Inv, Step, Init;
    if events == [] {
      InitHolds(ext, repo, states[0]);
    } else {
      var n := |events| - 1;
      assert History(ext, repo, states[..n + 1], events[..n]);
      InvAlways(ext, repo, states[..n + 1], events[..n]);
      StepKeeps(ext, repo, states[n], events[n], states[n + 1]);
    }
  }

  /** In every reachable state, a path that no queued or unfinished message mentions and no rejected one left in doubt
      holds exactly the rows the branch head gives it, although every run worked on a clone newer than its push. */
  lemma DrainConsistency(ext: string, repo: Id, states: seq<State>, events: seq<Event>, p: Rel)
    requires History(ext, repo, states, events)
    requires var s := states[|events|]; !Pending(ext, s.queue, Done(s.phase), p) && p !in s.suspect
    ensures var s := states[|events|]; CleanAt(s.db, repo, s.head, p)
  {
    InvAlways(ext, repo, states, events);
    hide CleanAt, History, Record, Pending;
  }

  /** When the queue is drained and nothing is in doubt, the index is the full index of the head. */
  lemma DrainedIsFullIndex(ext: string, repo: Id, states: seq<State>, events: seq<Event>)
    requires History(ext, repo, states, events)
    requires states[|events|].queue == [] && forall p :: p !in states[|events|].suspect
    ensures FullIndex(states[|events|].db, repo, states[|events|].head)
  {
    InvAlways(ext, repo, states, events);
    hide CleanAt, History;
    var s := states[|events|];
    var any: Rel := [];
    assert any !in s.suspect && NoLegacy(s.db, repo);
    forall p ensures CleanAt(s.db, repo, s.head, p) {
      assert !Pending(ext, s.queue, 0, p);
      assert s.phase.Idle?;
    }
  }
}
