/** The protocol of a repository the store has never heard of: its first index comes through the queue. */
module FirstIndex {
  import opened Base
  import opened Paths
  import opened SourceTree
  import opened Tables
  import opened Backends
  import opened Index
  import opened Runs
  import opened Messages
  import opened Protocol

  ghost predicate Unknown(ext: string, s: State) { Sound(s.db) && Below(s.db, s.next) && !Known(s.db, ext) }

  /** What no message to come mentions, and no rejected one left in doubt, is not in the head either. */
  ghost predicate NothingUnlessPending(ext: string, s: State) {
    forall p :: !Pending(ext, s.queue, Protocol.Done(s.phase), p) && p !in s.suspect ==> Expected(s.head, p).None?
  }

  ghost predicate UnknownInv(ext: string, s: State) {
    Unknown(ext, s) && NothingUnlessPending(ext, s) && CloneLags(ext, s) && RemovedOrLater(ext, s)
  }

  /** Before the record exists, and from then on. */
  ghost predicate FirstInv(ext: string, s: State) { UnknownInv(ext, s) || exists repo :: Inv(ext, repo, s) }

  /** No record; whatever the head holds is in doubt, and nothing need be if it is empty. */
  ghost predicate FirstInit(ext: string, s: State) {
    s.queue == [] && s.phase.Idle? && Unknown(ext, s) && forall p :: p !in s.suspect ==> Expected(s.head, p).None?
  }

  // ---------- Steps before there is a record ----------

  lemma UnknownPush(ext: string, s: State, m: RepositoryInput, tree: Tree)
    requires UnknownInv(ext, s) && FaithfulPush(ext, s.head, m, tree)
    ensures UnknownInv(ext, s.(head := tree, queue := s.queue + [m]))
  {
    var s' := s.(head := tree, queue := s.queue + [m]);
    hide Unknown, Pending, Touches, Expected, FaithfulPush;
    assert Unknown(ext, s') by { UnknownSame(ext, s, s'); }
    forall p | !Pending(ext, s'.queue, Protocol.Done(s'.phase), p) && p !in s'.suspect
      ensures Expected(s'.head, p).None?
    {
      PendingPush(ext, s.queue, m, Protocol.Done(s.phase), p);
      PushLeaves(ext, s.head, m, tree, p);
    }
    LagsAfterPush(ext, s, m, tree);
    RemovedAfterPush(ext, s, m, tree);
  }

  lemma UnknownSame(ext: string, s: State, s': State)
    requires s'.db == s.db && s'.next == s.next
    ensures Unknown(ext, s') <==> Unknown(ext, s)
  {
    hide Sound, Below, Known;
  }

  /** The first message leaves the queue, its paths in doubt or done with. */
  lemma UnknownPop(ext: string, s: State, s': State)
    requires UnknownInv(ext, s) && s.queue != [] && s'.queue == s.queue[1..] && s'.phase.Idle?
    requires s'.db == s.db && s'.next == s.next && s'.head == s.head
    requires if s.phase.Finished? then s'.suspect == s.suspect
             else s'.suspect == s.suspect + (iset p | Touches(ext, s.queue[0], p))
    ensures UnknownInv(ext, s')
  {
    UnknownSame(ext, s, s');
    RemovedAfterPop(ext, s, s');
    hide Unknown, RemovedOrLater, Pending, Touches, Expected;
    forall p | !Pending(ext, s'.queue, 0, p) && p !in s'.suspect ensures Expected(s'.head, p).None? {
      PendingPop(ext, s.queue, 0, p);
      PendingFirst(ext, s.queue, p);
    }
  }

  lemma UnknownRequeue(ext: string, s: State)
    requires UnknownInv(ext, s) && s.phase.Finished?
    ensures UnknownInv(ext, s.(phase := Idle))
  {
    var s' := s.(phase := Idle);
    UnknownSame(ext, s, s');
    hide Unknown, Touches, Expected;
    assert RemovedOrLater(ext, s');
    forall p | !Pending(ext, s'.queue, 0, p) && p !in s'.suspect ensures Expected(s'.head, p).None? {
      PendingFirst(ext, s.queue, p);
    }
  }

  lemma UnknownDrifts(ext: string, s: State, s': State, t: Writes)
    requires Unknown(ext, s) && Drift(s.db, s'.db, t) && s'.next == s.next
    ensures Unknown(ext, s')
  {
    DriftKeepsSound(s.db, s'.db, t);
    assert s'.db.repos == s.db.repos && Below(s'.db, s'.next);
    hide Sound, Below, Drift;
  }

  lemma UnknownWrite(ext: string, s: State, db: DB, t: Writes)
    requires UnknownInv(ext, s) && Drift(s.db, db, t)
    ensures UnknownInv(ext, s.(db := db))
  {
    var s' := s.(db := db);
    hide Unknown, Drift, Pending, Touches, Expected, RemovesAt, SameYield;
    UnknownDrifts(ext, s, s', t);
    assert CloneLags(ext, s') && RemovedOrLater(ext, s') && NothingUnlessPending(ext, s');
  }

  /** A run creates the record of its own message, or none. */
  lemma RecordMade(a: DB, from: Id, ext: string, q: Id, c: Clone, m: RepositoryInput, run: Run)
    requires Sound(a) && !Known(a, ext) && Ran(a, from, q, c, m, run)
    ensures Known(run.stop, ext) ==> m.ext == ext && run.stop.repos[q].ext == ext && q in run.stop.repos
    ensures m.ext == ext ==> FilesOf(run.start, q) == {}
  {
    MidTables(a, from, q, c, m, run);
    assert run.stop.repos == run.start.repos;
    if m.ext == ext { NoFilesYet(a, q); }
    hide Effect, Confined, SameChunks, UniquePaths, SymbolsSound, ChunksSound, CallsSound, ImportsSound, NewFromTree;
  }

  lemma OnlyNewRows(a: DB, from: Id, q: Id, c: Clone, m: RepositoryInput, run: Run)
    requires Ran(a, from, q, c, m, run) && FilesOf(run.start, q) == {}
    ensures NoLegacy(run.stop, q)
    ensures forall p :: Expected(c.tree, p).None? ==> Absent(run.stop, q, p)
  {
    assert NewFromTree(run.start, run.stop, c.tree);
    assert forall f :: f in run.start.files ==> run.start.files[f].repo != q by {
      assert forall f :: f in run.start.files && run.start.files[f].repo == q ==> f in FilesOf(run.start, q);
    }
    assert forall f :: f in run.start.files && f in run.stop.files ==> run.stop.files[f] == run.start.files[f] by {
      FilesStay(run, q, PathsOfRun(a, run.start, q, m)) by { MidTables(a, from, q, c, m, run); }
    }
    hide Ran;
  }

  lemma FilesStay(run: Run, q: Id, paths: iset<Rel>)
    requires Below(run.start, run.lo) && Confined(run, q, paths)
    ensures forall f :: f in run.start.files && f in run.stop.files ==> run.stop.files[f] == run.start.files[f]
  {
    hide KeepCalls, KeepImports, SymbolsGrow, ChunksGrow, EdgesGrow;
    var d := DeleteFiles(run.start, run.gone);
    forall f | f in run.start.files && f in run.stop.files ensures run.stop.files[f] == run.start.files[f] {
      assert f in d.files;
    }
  }

  /** The run stopped, wherever that was: either there is still no record, or it holds the clone's files alone. */
  lemma UnknownCrash(ext: string, s: State, q: Id, run: Run)
    requires UnknownInv(ext, s) && s.phase.Cloned? && Ran(s.db, s.next, q, s.phase.clone, s.queue[0], run)
    ensures FirstInv(ext, s.(phase := Idle, db := run.stop, next := run.hi))
  {
    var s', c, m := s.(phase := Idle, db := run.stop, next := run.hi), s.phase.clone, s.queue[0];
    assert s.queue != [] && CloneLags(ext, s') && RemovedOrLater(ext, s');
    MidTables(s.db, s.next, q, c, m, run);
    RecordMade(s.db, s.next, ext, q, c, m, run);
    if Known(run.stop, ext) {
      OnlyNewRows(s.db, s.next, q, c, m, run);
      hide Ran, Sound, Below, Confined, SameChunks, NoLegacy, Pending, RemovedOrLater;
      forall p | !Pending(ext, s'.queue, 0, p) && p !in s'.suspect ensures CleanAt(s'.db, q, s'.head, p) {
        PendingFirst(ext, s.queue, p);
        assert SameYield(c.tree, s.head, p);
      }
      assert Inv(ext, q, s');
    } else {
      hide Ran, Sound, Below, Confined, SameChunks, Pending, RemovedOrLater, CloneLags;
      assert NothingUnlessPending(ext, s');
    }
  }

  lemma UnknownComplete(ext: string, s: State, s': State, q: Id, run: Run, published: seq<Id>)
    requires UnknownInv(ext, s) && s.phase.Cloned? && Ran(s.db, s.next, q, s.phase.clone, s.queue[0], run)
    requires Applied(s.db, run.start, run.stop, q, s.phase.clone, s.queue[0], run.gone, run.t, published)
    requires s' == s.(phase := Finished(s.phase.clone), db := run.stop, next := run.hi,
                      suspect := s.suspect - (iset p | Touches(ext, s.queue[0], p)))
    ensures FirstInv(ext, s')
  {
    var c, m := s.phase.clone, s.queue[0];
    assert s.queue != [] && CloneLags(ext, s') && RemovedOrLater(ext, s');
    MidTables(s.db, s.next, q, c, m, run);
    RecordMade(s.db, s.next, ext, q, c, m, run);
    if m.ext == ext {
      assert FullIndex(run.stop, q, c.tree) && q in run.stop.repos && run.stop.repos[q].ext == ext;
      hide Ran, Applied, Sound, Below, Confined, SameChunks, NoLegacy, Pending, RemovedOrLater, CleanAt;
      forall p | !Pending(ext, s'.queue, 1, p) && p !in s'.suspect ensures CleanAt(s'.db, q, s'.head, p) {
        assert SameYield(c.tree, s.head, p);
        SameYieldClean(run.stop, q, c.tree, s.head, p);
      }
      assert Inv(ext, q, s');
    } else {
      hide Ran, Applied, Sound, Below, Confined, SameChunks, Pending, RemovedOrLater, CloneLags, Expected;
      forall p | !Pending(ext, s'.queue, 1, p) && p !in s'.suspect ensures Expected(s'.head, p).None? {
        PendingFirst(ext, s.queue, p);
      }
    }
  }

  lemma UnknownDeliver(ext: string, s: State, c: Clone)
    requires UnknownInv(ext, s) && s.phase.Idle? && s.queue != [] && (s.queue[0].ext == ext ==> c.tree == s.head)
    ensures UnknownInv(ext, s.(phase := Cloned(c)))
  {
    var s' := s.(phase := Cloned(c));
    UnknownSame(ext, s, s');
    hide Unknown, Pending, Touches, Expected;
    assert CloneLags(ext, s') && RemovedOrLater(ext, s') && NothingUnlessPending(ext, s');
  }

  lemma UnknownStep(ext: string, s: State, e: Event, s': State)
    requires UnknownInv(ext, s) && Step(ext, s, e, s')
    ensures FirstInv(ext, s')
  {
    hide UnknownInv, FirstInv, Inv, Ran, Applied, Drift, FaithfulPush, Touches;
    match e {
      case Push(m, tree) => UnknownPush(ext, s, m, tree);
      case Deliver(c) => UnknownDeliver(ext, s, c);
      case Crash(q, run) => UnknownCrash(ext, s, q, run);
      case Reject(q, run) =>
        UnknownCrash(ext, s, q, run);
        FirstReject(ext, s.(phase := Idle, db := run.stop, next := run.hi), s');
      case RejectUncloned => UnknownPop(ext, s, s');
      case Complete(q, run, published) => UnknownComplete(ext, s, s', q, run, published);
      case CrashUnacked => UnknownRequeue(ext, s);
      case Ack => UnknownPop(ext, s, s');
      case Write(db, t) => UnknownWrite(ext, s, db, t);
    }
    StillUnknown(ext, s');
  }

  lemma StillUnknown(ext: string, s: State)
    ensures UnknownInv(ext, s) ==> FirstInv(ext, s)
  {
    hide UnknownInv, Inv;
  }

  lemma FirstReject(ext: string, s: State, s': State)
    requires FirstInv(ext, s) && s.phase.Idle? && s.queue != []
    requires s' == s.(queue := s.queue[1..], suspect := s.suspect + (iset p | Touches(ext, s.queue[0], p)))
    ensures FirstInv(ext, s')
  {
    hide UnknownInv, Inv, Touches;
    if UnknownInv(ext, s) {
      UnknownPop(ext, s, s');
    } else {
      var repo :| Inv(ext, repo, s);
      RejectKeeps(ext, repo, s, s');
    }
  }

  /** Every step keeps the invariant, also the one that first records the repository. */
  lemma FirstStepKeeps(ext: string, s: State, e: Event, s': State)
    requires FirstInv(ext, s) && Step(ext, s, e, s')
    ensures FirstInv(ext, s')
  {
    hide UnknownInv, Inv, Step;
    if UnknownInv(ext, s) {
      hide FirstInv;
      UnknownStep(ext, s, e, s');
    } else {
      var repo :| Inv(ext, repo, s);
      StepKeeps(ext, repo, s, e, s');
    }
  }

  // ---------- Whole histories ----------

  ghost predicate FirstHistory(ext: string, states: seq<State>, events: seq<Event>) {
    && |states| == |events| + 1 && FirstInit(ext, states[0])
    && forall k :: 0 <= k < |events| ==> Step(ext, states[k], events[k], states[k + 1])
  }

  lemma FirstHolds(ext: string, s: State)
    requires FirstInit(ext, s)
    ensures FirstInv(ext, s)
  {
    hide Unknown;
    assert UnknownInv(ext, s);
  }

  lemma {:induction false} FirstAlways(ext: string, states: seq<State>, events: seq<Event>)
    requires FirstHistory(ext, states, events)
    ensures FirstInv(ext, states[|events|])
  {
    hide FirstInv, Step, FirstInit;
    if events == [] {
      FirstHolds(ext, states[0]);
    } else {
      var n := |events| - 1;
      assert FirstHistory(ext, states[..n + 1], events[..n]);
      FirstAlways(ext, states[..n + 1], events[..n]);
      FirstStepKeeps(ext, states[n], events[n], states[n + 1]);
    }
  }

  /** From tables without the repository: in every reachable state a path that no message to come mentions and no
      rejected one left in doubt holds the rows of the head if there is a record, and is not in the head if there is
      none. */
  lemma DrainFromEmpty(ext: string, states: seq<State>, events: seq<Event>, p: Rel)
    requires FirstHistory(ext, states, events)
    requires var s := states[|events|]; !Pending(ext, s.queue, Protocol.Done(s.phase), p) && p !in s.suspect
    ensures var s := states[|events|];
            if Known(s.db, ext)
            then exists repo :: RecordClean(s.db, repo, ext, s.head, p)
            else Expected(s.head, p).None?
  {
    FirstAlways(ext, states, events);
    hide FirstHistory, CleanAt, Pending, Expected, Sound, Below;
    var s := states[|events|];
    if repo :| Inv(ext, repo, s) { assert RecordClean(s.db, repo, ext, s.head, p); }
  }

  ghost predicate RecordClean(db: DB, repo: Id, ext: string, head: Tree, p: Rel) {
    repo in db.repos && db.repos[repo].ext == ext && CleanAt(db, repo, head, p)
  }

  /** Drained with nothing in doubt, the first index is the full index of the head. */
  lemma FirstIndexIsFull(ext: string, states: seq<State>, events: seq<Event>, repo: Id)
    requires FirstHistory(ext, states, events)
    requires states[|events|].queue == [] && forall p :: p !in states[|events|].suspect
    requires repo in states[|events|].db.repos && states[|events|].db.repos[repo].ext == ext
    ensures FullIndex(states[|events|].db, repo, states[|events|].head)
  {
    FirstAlways(ext, states, events);
    var s := states[|events|];
    assert Known(s.db, ext);
    hide FirstHistory, CleanAt, SymbolsSound, ChunksSound, CallsSound, ImportsSound, UniquePaths, FilesSound, Below;
    var r :| Inv(ext, r, s);
    assert r == repo;
    DrainedFull(ext, r, s);
  }

  lemma DrainedFull(ext: string, repo: Id, s: State)
    requires Inv(ext, repo, s) && s.queue == [] && forall p :: p !in s.suspect
    ensures FullIndex(s.db, repo, s.head)
  {
    hide CleanAt, Record;
    var any: Rel := [];
    assert any !in s.suspect && NoLegacy(s.db, repo);
    hide NoLegacy;
    forall p ensures CleanAt(s.db, repo, s.head, p) {
      assert !Pending(ext, s.queue, 0, p);
      assert s.phase.Idle?;
    }
  }
}
