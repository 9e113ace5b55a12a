/** Two deliveries of one message, run by run: one that is harmless, and one that leaves an extra copy of an edge. */
module RedeliveryExamples {
  import opened Base
  import opened Paths
  import opened Tables
  import opened Index
  import opened Rebuild
  import opened Discards
  import opened Runs
  import opened Pipeline
  import opened Messages
  import opened Refinement
  import opened Replay
  import opened Copies
  import opened Examples
  import C = Calls

  /** A push that changes the file. */
  function Edit(): RepositoryInput { Note().(changed := [Path()]) }

  /** A push that adds and removes another file. */
  function Drop(): RepositoryInput { Note().(changed := [], removed := [Other()]) }

  /** The full index of the file, with these copies of its one edge. */
  function Stored(edges: seq<C.CallEdge>): DB { Filled(Row(), 1, edges) }

  function Once(): seq<C.CallEdge> { [Edge(1)] }
  function Twice(): seq<C.CallEdge> { [Edge(1), Edge(1)] }
  function Thrice(): seq<C.CallEdge> { [Edge(1), Edge(1), Edge(1)] }

  lemma IndexFacts(edges: seq<C.CallEdge>)
    requires forall e :: e in edges ==> e == Edge(1)
    ensures Sound(Stored(edges)) && Below(Stored(edges), 4) && Known(Stored(edges), "ext") && NoLegacy(Stored(edges), 0)
    ensures DeleteFiles(Stored(edges), {}) == Stored(edges) && Baseline(Stored(edges), 0, "ext")
  {
    FilledSound(Row(), 1, edges);
    FilledElsewhere(Row(), 1, edges);
    DeleteNothing(Stored(edges));
    assert 0 in Stored(edges).repos && Stored(edges).repos[0].ext == "ext";
    hide Sound, Below, NoLegacy, DeleteFiles;
  }

  /** A run for the message that starts and stops with these tables, its record known and no absolute path there. */
  lemma RanWith(a: DB, from: Id, input: RepositoryInput, r: Run)
    requires Sound(a) && Below(a, from) && from <= r.lo && r.start == a && r.t == {} && 0 in a.repos
    requires a.repos[0].ext == "ext" == input.ext && NoLegacy(a, 0) && input.incremental && r.stop.repos == a.repos
    requires Effect(r, 0, PathsIn(input.changed, input.removed))
    requires NewFromTree(a, r.stop, Head())
    ensures Ran(a, from, 0, Taken(), input, r)
  {
    BelowAtLeast(a, from, r.lo);
    DriftSelf(a, {});
    assert Known(a, input.ext);
    ScopeIsMentioned(a, 0, input.changed, input.removed);
    hide Sound, Below, Effect, NewFromTree, Drift, NoLegacy, PathsIn, ScopeOfRun;
  }

  lemma BelowAtLeast(a: DB, n: Id, m: Id)
    requires Below(a, n) && n <= m
    ensures Below(a, m)
  {
  }

  // ---------- A harmless redelivery ----------

  /** The file was deleted, and nothing inserted yet. */
  function Deleted(): Run { Run(Stored(Once()), Recorded(Row()), 4, 4, {}, {1}, {1}, {}, {}) }

  lemma EditPaths()
    ensures IsGo(Path()) && GoOnly([Path()]) == [Path()] && GoOnly([]) == [] && GoOnly([Path()] + []) == [Path()]
    ensures forall p :: p in PathsIn([Path()], []) <==> p == Path()
  {
    assert Path()[0][1..] == ".go";
    IsGoMeansSuffix(Path());
    hide IsGo;
    assert [Path()][..0] == [] && [Path()] + [] == [Path()];
  }

  lemma EditStarts()
    ensures Fillable(Stored(Once()), {1}, 4, PathsIn([Path()], []))
    ensures Fillable(Recorded(Row()), {}, 4, PathsIn([Path()], []))
  {
    EditPaths();
    hide Row, IsGo, GoOnly, PathsIn;
    assert DeleteFiles(Stored(Once()), {1}) == Recorded(Row());
    assert DeleteFiles(Recorded(Row()), {}) == Recorded(Row());
  }

  lemma DeletedEffect()
    ensures Effect(Deleted(), 0, PathsIn([Path()], []))
    ensures EdgesInserted(Stored(Once()), Recorded(Row()), 0, Taken(), {1})
    ensures NewFromTree(Stored(Once()), Recorded(Row()), Head())
  {
    var a, b := Stored(Once()), Recorded(Row());
    EditStarts();
    FilledSound(Row(), 4, []);
    DriftSelf(b, {});
    var paths := PathsIn([Path()], []);
    assert OnlyTheirVectors(a, {}, {}, {1}, {}) && TheirVectorsGone(a, {}, {1}, {});
    assert Discarded(a, b, {}, {}, {}, {1}, {1}, 4) && AtPaths(a, 0, {1}, paths);
    hide Discarded, AtPaths, Fillable, Recorded, Stored, Row, Path, PathsIn;
    EffectOfDiscard(a, b, 0, Taken(), 4, {}, {1}, {1}, paths, {}, {});
    hide RunEffect, EdgesInserted, NewFromTree;
  }

  lemma EditSucceeds(a: DB, gone: set<Id>)
    requires Fillable(a, gone, 4, PathsIn([Path()], [])) && Sound(a) && Below(a, 4) && a.repos == map[0 := Row()]
    requires NoLegacy(a, 0)
    ensures Succeeded(a, 4, 0, Taken(), Edit(), Fill(a, gone, 4), [6])
  {
    var b, paths := Filled(Row(), 4, [Edge(4)]), PathsIn([Path()], []);
    EditPaths();
    FillEffect(a, gone, 4, paths);
    FillRebuilt(a, gone, 4, paths);
    FillFromTree(a, 4, paths);
    FilledClean(Row(), 4, [Edge(4)], Path());
    ScopeIsMentioned(a, 0, [Path()], []);
    assert b.repos == a.repos && Row().ext == "ext" && Known(a, "ext");
    hide Sound, Below, Effect, Rebuilt, EdgesInserted, NewFromTree, Filled, Fillable, NoLegacy, CleanAt, Absent,
        PathsIn, GoOnly, IsGo, Ran, ScopeOfRun, Row;
    RebuiltInserts(a, b, 0, Taken(), gone, paths, [6]);
    RanWith(a, 4, Edit(), Fill(a, gone, 4));
    PushAppliedNow(a, b, 0, Taken(), [Path()], [], gone, {}, [6]);
  }

  lemma DeletedRan()
    ensures Ran(Stored(Once()), 4, 0, Taken(), Edit(), Deleted())
  {
    IndexFacts(Once());
    DeletedEffect();
    assert Row().ext == "ext";
    hide Sound, Below, Effect, EdgesInserted, NewFromTree, Ran, NoLegacy, PathsIn, Row, Known, DeleteFiles;
    RanWith(Stored(Once()), 4, Edit(), Deleted());
  }

  /** A first delivery deletes the changed file and stops. The redelivery finds the record, indexes the file anew, and
      leaves what an uninterrupted run leaves, the edge included. */
  lemma HarmlessExample(p: Rel)
    ensures var a := Stored(Once());
            var again, straight := Fill(Recorded(Row()), {}, 4), Fill(a, {1}, 4);
            && Sound(a) && Below(a, 4) && ReplaySafe(a, Taken(), Taken(), Edit())
            && Ran(a, 4, 0, Taken(), Edit(), Deleted()) && EdgesInserted(a, Recorded(Row()), 0, Taken(), {1})
            && Delivered(a, 4, Taken(), Edit(), Deleted(), Deliveries(0, again, [6], 0, straight, [6]))
            && Alike(again.stop, 0, straight.stop, 0, p)
            && again.stop.calls == straight.stop.calls == [Edge(4)]
  {
    IndexFacts(Once());
    EditStarts();
    DeletedRan();
    DeletedEffect();
    FilledSound(Row(), 4, []);
    RecordKnown();
    assert Baseline(Stored(Once()), 0, "ext") && Recorded(Row()).repos == map[0 := Row()] == Stored(Once()).repos;
    hide Sound, Below, Ran, Applied, Alike, Baseline, Fillable, NoLegacy, Known, DeleteFiles, PathsIn, Row, Recorded,
        Stored, EdgesInserted, NewFromTree, Effect;
    EditSucceeds(Stored(Once()), {1});
    EditSucceeds(Recorded(Row()), {});
    MessageReplay(Stored(Once()), 4, Taken(), Taken(), Edit(), 0, Deleted(), 0, Fill(Recorded(Row()), {}, 4), [6], 0,
        Fill(Stored(Once()), {1}, 4), [6], p);
  }

  // ---------- One that leaves an extra copy ----------

  /** A run that discards nothing and inserts the edge once more. */
  function Adds(edges: seq<C.CallEdge>): Run {
    Run(Stored(edges), Stored(edges + [Edge(1)]), 4, 4, {}, {}, {}, {}, {})
  }

  lemma AddsGrows(edges: seq<C.CallEdge>)
    ensures Grows(Stored(edges), Stored(edges + [Edge(1)]), 0, 4, {})
    ensures NewAtPaths(Stored(edges), Stored(edges + [Edge(1)]), PathsIn([], [Other()]))
    ensures NewFromTree(Stored(edges), Stored(edges + [Edge(1)]), Head())
    ensures forall c :: c in Stored(edges).chunks ==> Stored(edges).chunks[c].embedding.None?
  {
    hide Sym, Piece, Row, Path, IsGo;
  }

  lemma AddsEffect(edges: seq<C.CallEdge>)
    requires forall e :: e in edges ==> e == Edge(1)
    ensures Effect(Adds(edges), 0, PathsIn([], [Other()]))
  {
    var a, b, paths := Stored(edges), Stored(edges + [Edge(1)]), PathsIn([], [Other()]);
    IndexFacts(edges);
    IndexFacts(edges + [Edge(1)]);
    AddsGrows(edges);
    assert OnlyTheirVectors(a, {}, {}, {}, {}) && TheirVectorsGone(a, {}, {}, {}) && AtPaths(a, 0, {}, paths);
    hide Sound, Below, Grows, NewAtPaths, DeleteFiles, Stored, PathsIn, AtPaths, OnlyTheirVectors, TheirVectorsGone;
  }

  lemma AddsRebuilt(edges: seq<C.CallEdge>)
    requires forall e :: e in edges ==> e == Edge(1)
    ensures Rebuilt(Stored(edges), Stored(edges + [Edge(1)]), 0, Taken(), {}, PathsIn([], [Other()]), [3])
  {
    IndexFacts(edges);
    OnlyOneFile(Row(), edges);
    FilledFields(Row(), 1, edges);
    hide Sound, GoneExactly, DeleteFiles, Rebuilt, PathsIn, Row, Filled;
    RebuiltIs(Row(), 1, Stored(edges), {}, edges, PathsIn([], [Other()]));
  }

  lemma DropLists()
    ensures GoOnly([]) == [] && GoOnly([Other()]) == [Other()] && GoOnly([] + [Other()]) == [Other()]
    ensures forall p :: p in GoOnly([Other()]) ==> p == Other()
  {
    OtherIsGo();
    hide IsGo;
  }

  lemma AddsSucceeds(edges: seq<C.CallEdge>)
    requires forall e :: e in edges ==> e == Edge(1)
    ensures Succeeded(Stored(edges), 4, 0, Taken(), Drop(), Adds(edges), [3])
  {
    var a, b, paths := Stored(edges), Stored(edges + [Edge(1)]), PathsIn([], [Other()]);
    IndexFacts(edges);
    AddsEffect(edges);
    AddsRebuilt(edges);
    AddsGrows(edges);
    OnlyOneFile(Row(), edges + [Edge(1)]);
    DropLists();
    ScopeIsMentioned(a, 0, [], [Other()]);
    assert b.repos == a.repos && 0 in a.repos && a.repos[0].ext == "ext";
    hide Sound, Below, Effect, Rebuilt, EdgesInserted, NewFromTree, Stored, NoLegacy, CleanAt, Absent, PathsIn, GoOnly,
        IsGo, Ran, ScopeOfRun, Row, GoneExactly, DeleteFiles, Known;
    RebuiltInserts(a, b, 0, Taken(), {}, paths, [3]);
    RanWith(a, 4, Drop(), Adds(edges));
    PushAppliedNow(a, b, 0, Taken(), [], [Other()], {}, {}, [3]);
  }

  lemma Appended()
    ensures Once() + [Edge(1)] == Twice() && Twice() + [Edge(1)] == Thrice()
  {
  }

  /** A first delivery that gets to its inserts and stops before it is done leaves its copy. Redelivered, the message
      ends with the edge three times where an uninterrupted run ends with two, although every file, symbol and chunk
      is alike. */
  lemma ExtraCopyExample(p: Rel)
    ensures var a, stopped, again, straight := Stored(Once()), Adds(Once()), Adds(Twice()), Adds(Once());
            && Sound(a) && Below(a, 4) && ReplaySafe(a, Taken(), Taken(), Drop())
            && Ran(a, 4, 0, Taken(), Drop(), stopped) && EdgesInserted(a, stopped.stop, 0, Taken(), {})
            && Delivered(a, 4, Taken(), Drop(), stopped, Deliveries(0, again, [3], 0, straight, [3]))
            && Alike(again.stop, 0, straight.stop, 0, p) && AddedCalls(stopped, Edge(1)) == 1
            && again.stop.calls == Thrice() && straight.stop.calls == Twice()
  {
    IndexFacts(Once());
    Appended();
    AddsSucceeds(Once());
    AddsSucceeds(Twice());
    AddsRebuilt(Once());
    RebuiltInserts(Stored(Once()), Stored(Twice()), 0, Taken(), {}, PathsIn([], [Other()]), [3]);
    assert AddedCalls(Adds(Once()), Edge(1)) == 1;
    assert Baseline(Stored(Once()), 0, "ext");
    hide Sound, Below, Ran, Applied, Alike, Baseline, NoLegacy, Known, DeleteFiles, Row, AddedCalls, EdgesInserted,
        Rebuilt;
    MessageReplay(Stored(Once()), 4, Taken(), Taken(), Drop(), 0, Adds(Once()), 0, Adds(Twice()), [3], 0,
        Adds(Once()), [3], p);
  }
}
