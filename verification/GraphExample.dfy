/** A history after which the index is the full index of the head, and a call of the head has no edge. */
module GraphExample {
  import opened Base
  import opened Paths
  import opened SourceTree
  import opened Symbols
  import opened Chunker
  import opened Tables
  import opened Index
  import opened Runs
  import opened Pipeline
  import opened Messages
  import opened Refinement
  import opened Protocol
  import opened HeadGraph
  import opened Examples
  import Edges
  import C = Calls

  /** The head before: the loader cannot resolve the call of the file yet, for something outside the Go files. */
  function Unresolved(): Tree { map[Path() := SrcCalling(None)] }

  /** Its full index: one function, no edge. */
  function Stored(): DB { Filled(Row(), 1, []) }

  /** A run that finds nothing to do. */
  function Quiet(): Run { Run(Stored(), Stored(), 4, 4, {}, {}, {}, {}, {}) }

  lemma YieldsSame(p: Rel)
    ensures SameYield(Unresolved(), Head(), p)
  {
    SymbolsAre(None);
    SymbolsAre(Some("p.F"));
    ChunksAre(None);
    ChunksAre(Some("p.F"));
    hide SymbolsOf, ChunksOf;
  }

  lemma NoteCovers()
    ensures CoversDiff(Unresolved(), Head(), Note().changed, Note().removed)
  {
    hide SameYield, Unresolved, Head, IsGo, Expected;
    forall p ensures SameYield(Unresolved(), Head(), p) { YieldsSame(p); }
  }

  lemma StoredFacts()
    ensures Sound(Stored()) && Below(Stored(), 4) && Known(Stored(), "ext") && NoLegacy(Stored(), 0)
    ensures FullIndex(Stored(), 0, Head()) && FullIndex(Stored(), 0, Unresolved())
  {
    FilledSound(Row(), 1, []);
    FilledElsewhere(Row(), 1, []);
    FilledIsFull(Row(), 1, []);
    assert 0 in Stored().repos && Stored().repos[0].ext == "ext";
    hide Sound, Below, NoLegacy, CleanAt, Head, Unresolved, Stored, SameYield;
    forall p ensures CleanAt(Stored(), 0, Unresolved(), p) {
      YieldsSame(p);
      SameYieldClean(Stored(), 0, Unresolved(), Head(), p);
    }
  }

  lemma QuietRuns()
    ensures Ran(Stored(), 4, 0, Taken(), Note(), Quiet())
    ensures Applied(Stored(), Stored(), Stored(), 0, Taken(), Note(), {}, {}, [])
  {
    var b := Stored();
    StoredFacts();
    NotGo();
    DriftIsSelf(b);
    assert 0 in b.repos && b.repos[0].ext == "ext";
    hide Sound, Below, Drift, Ran, PushApplied, NoLegacy, GoOnly, Known, Stored, FullIndex;
    var r := JustRead(b, b, {}, {}, 4, 4, 0, Taken(), Note());
    PushAppliedEmpty(b, b, 0, Taken(), Note().changed, Note().removed, {}, []);
  }

  lemma DriftIsSelf(b: DB)
    ensures Drift(b, b, {})
  {
  }

  function Start(): State { State(Unresolved(), [], Idle, Stored(), 4, iset{}) }
  function Pushed(): State { State(Head(), [Note()], Idle, Stored(), 4, iset{}) }
  function Taking(): State { State(Head(), [Note()], Cloned(Taken()), Stored(), 4, iset{}) }
  function Processed(): State { State(Head(), [Note()], Finished(Taken()), Stored(), 4, iset{}) }
  function Drained(): State { State(Head(), [], Idle, Stored(), 4, iset{}) }

  function States(): seq<State> { [Start(), Pushed(), Taking(), Processed(), Drained()] }
  function Events(): seq<Event> { [Push(Note(), Head()), Deliver(Taken()), Complete(0, Quiet(), []), Ack] }

  lemma StartsClean()
    ensures Init("ext", 0, Start())
  {
    StoredFacts();
    assert 0 in Stored().repos && Stored().repos[0].ext == "ext";
    hide Sound, Below, NoLegacy, CleanAt, Stored, Unresolved;
  }

  lemma TouchesNothing(p: Rel)
    ensures !Touches("ext", Note(), p)
  {
    NotGo();
    hide IsGo;
  }

  lemma Pushes()
    ensures Step("ext", Start(), Push(Note(), Head()), Pushed())
  {
    NoteCovers();
    hide CoversDiff, Unresolved, Head, Stored;
    assert [] + [Note()] == [Note()];
  }

  lemma Delivers()
    ensures Step("ext", Pushed(), Deliver(Taken()), Taking())
  {
    LoadedIs();
    hide Loads, Stored;
  }

  lemma CompletesWhen(ext: string, s: State, q: Id, run: Run, published: seq<Id>, s': State)
    requires s.phase.Cloned? && s.queue != [] && Ran(s.db, s.next, q, s.phase.clone, s.queue[0], run)
    requires Applied(s.db, run.start, run.stop, q, s.phase.clone, s.queue[0], run.gone, run.t, published)
    requires forall p :: !Touches(ext, s.queue[0], p)
    requires s' == s.(phase := Finished(s.phase.clone), db := run.stop, next := run.hi)
    ensures Step(ext, s, Complete(q, run, published), s')
  {
    hide Ran, Applied, Touches;
    assert s.suspect - (iset p | Touches(ext, s.queue[0], p)) == s.suspect;
  }

  lemma Completes()
    ensures Step("ext", Taking(), Complete(0, Quiet(), []), Processed())
  {
    QuietRuns();
    hide Ran, Applied, Touches, Stored, Step, Note, Taken, Head;
    forall p ensures !Touches("ext", Note(), p) { TouchesNothing(p); }
    CompletesWhen("ext", Taking(), 0, Quiet(), [], Processed());
  }

  lemma Acks()
    ensures Step("ext", Processed(), Ack, Drained())
  {
    hide Stored;
    assert [Note()][1..] == [];
  }

  lemma Steps()
    ensures History("ext", 0, States(), Events())
  {
    StartsClean();
    Pushes();
    Delivers();
    Completes();
    Acks();
    hide Init, Step, Start, Pushed, Taking, Processed, Drained, Note, Head, Taken, Quiet;
  }

  lemma NoEdge()
    ensures CallStored(Stored(), 0, Head(), Path(), 1, "p.F", "p.F") && !HasEdge(Stored(), 0, 1, "p.F", "p.F")
  {
    PairsAre(Some("p.F"));
    assert Borne(Stored(), 0, "p.F") by { assert Edges.EndAt(Stored(), 0, 2, "p.F"); }
    hide C.FilePairs, Row, SrcCalling;
  }

  /** A push that touches no Go file, after which the one call of the file resolves. The queue drains, nothing is in
      doubt, the index is the full index of the head, and the call has no edge: such a push rebuilds nothing. */
  lemma StaleGraphExample()
    ensures var s := States()[|Events()|];
            && History("ext", 0, States(), Events()) && s.queue == [] && (forall p :: p !in s.suspect)
            && FullIndex(s.db, 0, s.head)
            && CallStored(s.db, 0, s.head, Path(), 1, "p.F", "p.F") && !HasEdge(s.db, 0, 1, "p.F", "p.F")
            && !GraphOf(s.db, 0, s.head)
  {
    Steps();
    StoredFacts();
    NoEdge();
    hide History, FullIndex, Stored, Head, CallStored, HasEdge;
  }
}
