/** The call graph when the queue is drained: it is that of the tree the last rebuilding run worked on. */
module HeadGraph {
  import opened Base
  import opened Paths
  import opened SourceTree
  import opened Tables
  import opened Backends
  import opened Index
  import opened Runs
  import opened Pipeline
  import opened Messages
  import opened Refinement
  import opened Isolation
  import opened Edges
  import opened Protocol
  import C = Calls
  import I = Imports

  ghost predicate Borne(db: DB, repo: Id, name: string) { exists s :: EndAt(db, repo, s, name) }

  ghost predicate HasEdge(db: DB, repo: Id, f: Id, caller: string, callee: string) {
    exists e :: e in db.calls && Between(db, repo, f, e, caller, callee)
  }

  /** The call stands in an indexed file of the tree, and both names are those of stored symbols. */
  ghost predicate CallStored(db: DB, repo: Id, tree: Tree, p: Rel, f: Id, caller: string, callee: string) {
    && p in tree && tree[p].built && FileAt(db, repo, p, f) && (caller, callee) in C.FilePairs(tree[p])
    && Borne(db, repo, caller) && Borne(db, repo, callee)
  }

  /** Every such call has its edge. */
  ghost predicate GraphOf(db: DB, repo: Id, tree: Tree) {
    forall p, f, caller, callee :: CallStored(db, repo, tree, p, f, caller, callee) ==>
      HasEdge(db, repo, f, caller, callee)
  }

  lemma RebuiltGraph(run: Run, repo: Id, c: Clone, paths: iset<Rel>, published: seq<Id>)
    requires Sound(run.start) && Loads(c) && Rebuilt(run.start, run.stop, repo, c, run.gone, paths, published)
    ensures GraphOf(run.stop, repo, c.tree)
  {
    var s := SuccessfulRun(c, run.gone, paths, published);
    assert RunOn(run.start, run.stop, repo, s);
    hide RunOn, Sound, Loads, Rebuilt, C.FilePairs, Between, EndAt;
    forall p, f, caller, callee | CallStored(run.stop, repo, c.tree, p, f, caller, callee)
      ensures HasEdge(run.stop, repo, f, caller, callee)
    {
      EdgeCoverage(run.start, run.stop, repo, s, p, c.tree[p], f, caller, callee);
    }
  }

  // ---------- What leaves the graph alone ----------

  /** The repository has the same files, symbols and call edges. */
  ghost predicate SameGraph(a: DB, b: DB, repo: Id) {
    && (forall p, f :: FileAt(b, repo, p, f) ==> FileAt(a, repo, p, f))
    && (forall s, name :: EndAt(b, repo, s, name) <==> EndAt(a, repo, s, name))
    && (forall e :: e in a.calls && e.repo == repo ==> e in b.calls)
  }

  lemma GraphStays(a: DB, b: DB, repo: Id, tree: Tree)
    requires SameGraph(a, b, repo) && GraphOf(a, repo, tree)
    ensures GraphOf(b, repo, tree)
  {
    hide C.FilePairs, FileAt, EndAt;
    forall p, f, caller, callee | CallStored(b, repo, tree, p, f, caller, callee)
      ensures HasEdge(b, repo, f, caller, callee)
    {
      var x :| EndAt(b, repo, x, caller);
      var y :| EndAt(b, repo, y, callee);
      assert EndAt(a, repo, x, caller) && EndAt(a, repo, y, callee);
      assert CallStored(a, repo, tree, p, f, caller, callee) && HasEdge(a, repo, f, caller, callee);
      var e :| e in a.calls && Between(a, repo, f, e, caller, callee);
      assert e in b.calls && Between(b, repo, f, e, caller, callee);
    }
  }

  lemma SameAfterDrift(a: DB, b: DB, repo: Id)
    requires b.files == a.files && b.symbols == a.symbols && b.calls == a.calls
    ensures SameGraph(a, b, repo)
  {
  }

  lemma SameAfterOther(run: Run, q: Id, paths: iset<Rel>, repo: Id)
    requires Sound(run.start) && Below(run.start, run.lo) && Confined(run, q, paths) && q != repo
    requires Sound(run.stop)
    ensures SameGraph(run.start, run.stop, repo)
  {
    var a, b := run.start, run.stop;
    OtherRepositories(run, q, paths, repo);
    assert SymbolsSound(a) && SymbolsSound(b);
    hide Confined, Sound, Below;
    forall p, f | FileAt(b, repo, p, f) ensures FileAt(a, repo, p, f) {
      assert f in FilesOf(b, repo) && SameRowsOf(a, b, run.t, f);
    }
    forall s, name ensures EndAt(b, repo, s, name) <==> EndAt(a, repo, s, name) {
      if EndAt(b, repo, s, name) {
        assert b.symbols[s].file in FilesOf(b, repo) && SameRowsOf(a, b, run.t, b.symbols[s].file);
      }
      if EndAt(a, repo, s, name) {
        assert a.symbols[s].file in FilesOf(a, repo) && SameRowsOf(a, b, run.t, a.symbols[s].file);
      }
    }
    forall e | e in a.calls && e.repo == repo ensures e in b.calls {
      assert multiset(b.calls)[e] == multiset(a.calls)[e] && multiset(a.calls)[e] > 0;
      assert e in multiset(b.calls);
    }
  }

  /** A step that is no run of the repository leaves its graph alone. */
  ghost predicate OtherStep(ext: string, s: State, e: Event) {
    (e.Crash? || e.Reject? || e.Complete?) && s.queue != [] ==> s.queue[0].ext != ext
  }

  lemma OtherRun(ext: string, repo: Id, s: State, q: Id, c: Clone, run: Run, tree: Tree)
    requires Record(s.db, s.next, repo, ext) && s.queue != [] && s.queue[0].ext != ext
    requires Ran(s.db, s.next, q, c, s.queue[0], run) && GraphOf(s.db, repo, tree)
    ensures GraphOf(run.stop, repo, tree)
  {
    MidTables(s.db, s.next, q, c, s.queue[0], run);
    RunsFor(s.db, s.next, repo, ext, q, c, s.queue[0], run);
    hide Ran, Sound, Below, Confined, SameChunks, GraphOf, SameGraph, PathsOfRun;
    SameAfterDrift(s.db, run.start, repo);
    GraphStays(s.db, run.start, repo, tree);
    SameAfterOther(run, q, PathsOfRun(s.db, run.start, q, s.queue[0]), repo);
    GraphStays(run.start, run.stop, repo, tree);
  }

  lemma StepLeavesGraph(ext: string, repo: Id, s: State, e: Event, s': State, tree: Tree)
    requires Inv(ext, repo, s) && Step(ext, s, e, s') && OtherStep(ext, s, e) && GraphOf(s.db, repo, tree)
    ensures GraphOf(s'.db, repo, tree)
  {
    assert Record(s.db, s.next, repo, ext);
    hide Inv, Record, Ran, Applied, GraphOf, FaithfulPush, Touches, SameGraph, SameChunks, Loads;
    match e {
      case Crash(q, run) => OtherRun(ext, repo, s, q, s.phase.clone, run, tree);
      case Reject(q, run) => OtherRun(ext, repo, s, q, s.phase.clone, run, tree);
      case Complete(q, run, published) => OtherRun(ext, repo, s, q, s.phase.clone, run, tree);
      case Write(db, t) =>
        SameAfterDrift(s.db, db, repo);
        GraphStays(s.db, db, repo, tree);
      case _ =>
    }
  }

  // ---------- Whole histories ----------

  lemma {:induction false} CloneLoads(ext: string, repo: Id, states: seq<State>, events: seq<Event>)
    requires History(ext, repo, states, events)
    ensures !states[|events|].phase.Idle? ==> Loads(states[|events|].phase.clone)
  {
    hide Ran, Applied, FaithfulPush, Touches, Drift, Loads, CleanAt;
    if events != [] {
      var n := |events| - 1;
      assert History(ext, repo, states[..n + 1], events[..n]);
      CloneLoads(ext, repo, states[..n + 1], events[..n]);
      assert Step(ext, states[n], events[n], states[n + 1]);
    }
  }

  /** The run that finishes at this step is of the repository and rebuilt something. */
  ghost predicate Rebuilds(ext: string, s: State, e: Event) {
    && e.Complete? && s.phase.Cloned? && s.queue != [] && s.queue[0].ext == ext
    && (s.queue[0].incremental && NoLegacy(e.run.start, e.repo) ==>
          GoOnly(s.queue[0].changed + s.queue[0].removed) != [])
  }

  lemma RebuildsGraph(ext: string, repo: Id, s: State, e: Event, s': State)
    requires Inv(ext, repo, s) && Step(ext, s, e, s') && Rebuilds(ext, s, e) && Loads(s.phase.clone)
    ensures GraphOf(s'.db, repo, s.phase.clone.tree)
  {
    var c, m, run := s.phase.clone, s.queue[0], e.run;
    assert Record(s.db, s.next, repo, ext);
    hide Inv, Record, Ran, GraphOf;
    RunsFor(s.db, s.next, repo, ext, e.repo, c, m, run);
    MidTables(s.db, s.next, repo, c, m, run);
    var paths := WhatWasRebuilt(s.db, run, repo, c, m, e.published);
    hide *;
    RebuiltGraph(run, repo, c, paths, e.published);
  }

  lemma WhatWasRebuilt(a: DB, run: Run, repo: Id, c: Clone, m: RepositoryInput, published: seq<Id>)
    returns (paths: iset<Rel>)
    requires Applied(a, run.start, run.stop, repo, c, m, run.gone, run.t, published)
    requires m.incremental && NoLegacy(run.start, repo) ==> GoOnly(m.changed + m.removed) != []
    ensures Rebuilt(run.start, run.stop, repo, c, run.gone, paths, published)
  {
    hide CleanAt, Absent, Rebuilt, Drift, NoLegacy, GoOnly;
    paths := if m.incremental && Known(a, m.ext) && NoLegacy(run.start, repo)
             then ScopeOfRun(run.start, repo, m.changed, m.removed) else Everywhere();
  }

  lemma {:induction false} GraphSince(ext: string, repo: Id, states: seq<State>, events: seq<Event>, k: nat)
    requires History(ext, repo, states, events) && k < |events| && Rebuilds(ext, states[k], events[k])
    requires forall j :: k < j < |events| ==> OtherStep(ext, states[j], events[j])
    ensures GraphOf(states[|events|].db, repo, states[k].phase.clone.tree)
  {
    var n := |events| - 1;
    assert History(ext, repo, states[..n + 1], events[..n]) by { hide Init, Step; }
    hide Inv, Step, Init, GraphOf, Rebuilds, OtherStep, Loads;
    InvAlways(ext, repo, states[..n + 1], events[..n]);
    if k == n {
      CloneLoads(ext, repo, states[..n + 1], events[..n]);
      Phase(ext, states[n], events[n]);
      RebuildsGraph(ext, repo, states[n], events[n], states[n + 1]);
    } else {
      GraphSince(ext, repo, states[..n + 1], events[..n], k);
      Phase(ext, states[k], events[k]);
      StepLeavesGraph(ext, repo, states[n], events[n], states[n + 1], states[k].phase.clone.tree);
    }
  }

  lemma Phase(ext: string, s: State, e: Event)
    requires Rebuilds(ext, s, e)
    ensures s.phase.Cloned?
  {
  }

  /** When the last rebuilding run worked on a clone of what is now the head, and no run of the repository came after
      it, every call of the head between stored names has its edge. */
  lemma HeadHasEdges(ext: string, repo: Id, states: seq<State>, events: seq<Event>, k: nat)
    requires History(ext, repo, states, events) && k < |events| && Rebuilds(ext, states[k], events[k])
    requires forall j :: k < j < |events| ==> OtherStep(ext, states[j], events[j])
    requires states[k].phase.Cloned? && states[k].phase.clone.tree == states[|events|].head
    ensures GraphOf(states[|events|].db, repo, states[|events|].head)
  {
    hide History, GraphOf, Rebuilds, OtherStep;
    GraphSince(ext, repo, states, events, k);
  }
}
