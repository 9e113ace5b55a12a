/** Copies of edges over any chain of runs, wherever each of them stops: what a stopped run inserted stays. */
module Copies {
  import opened Base
  import opened Paths
  import opened SourceTree
  import opened Tables
  import opened Index
  import opened Rebuild
  import opened Runs
  import opened Pipeline
  import opened Messages
  import opened Refinement
  import opened Replay
  import opened Isolation
  import opened Edges
  import C = Calls
  import I = Imports

  /** How many copies of the edge the run inserted, on top of what the cascade left. */
  ghost function AddedCalls(r: Run, e: C.CallEdge): int {
    multiset(r.stop.calls)[e] as int - multiset(DeleteFiles(r.start, r.gone).calls)[e]
  }

  ghost function AddedImports(r: Run, i: I.ImportEdge): int {
    multiset(r.stop.imports)[i] as int - multiset(DeleteFiles(r.start, r.gone).imports)[i]
  }

  // ---------- One run ----------

  lemma CallsBehind(d: DB, b: DB, calls: seq<C.CallEdge>, imports: seq<I.ImportEdge>, e: C.CallEdge, i: I.ImportEdge)
    requires HasEdges(d, b, calls, imports)
    ensures multiset(b.calls)[e] == multiset(d.calls)[e] + multiset(calls)[e]
    ensures multiset(b.imports)[i] == multiset(d.imports)[i] + multiset(imports)[i]
  {
  }

  /** Wherever a run stops, it has inserted an edge as often as its call stands in the source it works on, or not at
      all. */
  lemma AddsAllOrNone(r: Run, repo: Id, c: Clone, p: Rel, e: C.CallEdge, caller: string, callee: string)
    requires EdgesInserted(r.start, r.stop, repo, c, r.gone) && Loads(c) && EdgeAt(r.stop, repo, p, e, caller, callee)
    ensures AddedCalls(r, e) == 0 || AddedCalls(r, e) == CallsIn(c, p, caller, callee)
  {
    hide Inserted, HasEdges, DeleteFiles, Loads, EdgeAt, CallsIn, Files, Built;
    var calls, imports :| Inserted(r.stop, repo, c, calls, imports) &&
      HasEdges(DeleteFiles(r.start, r.gone), r.stop, calls, imports);
    CallsBehind(DeleteFiles(r.start, r.gone), r.stop, calls, imports, e, I.ImportEdge(0, 0, 0, "", None));
    if calls != [] {
      var all := WholeBuild(r.stop, repo, c, calls, imports);
      BuildYields(r.stop, repo, c, calls, all, p, e, caller, callee);
    }
  }

  lemma WholeBuild(b: DB, repo: Id, c: Clone, calls: seq<C.CallEdge>, imports: seq<I.ImportEdge>)
    returns (all: seq<I.ImportEdge>)
    requires Inserted(b, repo, c, calls, imports) && (calls != [] || imports != [])
    ensures c.pkgs.Some? && Built(b, repo, c.root, Files(c.pkgs.value), calls, all) && (imports == [] || imports == all)
  {
    hide Built, Files;
    all :| Built(b, repo, c.root, Files(c.pkgs.value), calls, all) && (imports == [] || imports == all);
  }

  /** The same for import edges. */
  lemma AddsAllOrNoImports(r: Run, repo: Id, c: Clone, p: Rel, i: I.ImportEdge)
    requires EdgesInserted(r.start, r.stop, repo, c, r.gone) && Loads(c) && i.repo == repo
    requires FileAt(r.stop, repo, p, i.from)
    ensures AddedImports(r, i) == 0 || AddedImports(r, i) == ImportsAt(r.stop, repo, c, p, i)
  {
    hide Inserted, HasEdges, DeleteFiles, Loads, ImportsAt, Files, Built;
    var calls, imports :| Inserted(r.stop, repo, c, calls, imports) &&
      HasEdges(DeleteFiles(r.start, r.gone), r.stop, calls, imports);
    CallsBehind(DeleteFiles(r.start, r.gone), r.stop, calls, imports, C.CallEdge(0, 0, 0, 0), i);
    if imports != [] {
      var all := WholeBuild(r.stop, repo, c, calls, imports);
      BuildYieldsImport(r.stop, repo, c, calls, all, p, i);
    }
  }

  /** A run that succeeds has inserted them all. */
  lemma AddsAll(r: Run, repo: Id, c: Clone, paths: iset<Rel>, published: seq<Id>, p: Rel, e: C.CallEdge,
                caller: string, callee: string)
    requires Rebuilt(r.start, r.stop, repo, c, r.gone, paths, published) && Loads(c)
    requires EdgeAt(r.stop, repo, p, e, caller, callee)
    ensures AddedCalls(r, e) == CallsIn(c, p, caller, callee)
  {
    hide HasEdges, DeleteFiles, Loads, EdgeAt, CallsIn, Files, Built, GoneExactly;
    var calls, imports :| Built(r.stop, repo, c.root, Files(c.pkgs.value), calls, imports) &&
      HasEdges(DeleteFiles(r.start, r.gone), r.stop, calls, imports);
    CallsBehind(DeleteFiles(r.start, r.gone), r.stop, calls, imports, e, I.ImportEdge(0, 0, 0, "", None));
    BuildYields(r.stop, repo, c, calls, imports, p, e, caller, callee);
  }

  lemma AddsAllImports(r: Run, repo: Id, c: Clone, paths: iset<Rel>, published: seq<Id>, p: Rel, i: I.ImportEdge)
    requires Rebuilt(r.start, r.stop, repo, c, r.gone, paths, published) && Loads(c)
    requires i.repo == repo && FileAt(r.stop, repo, p, i.from)
    ensures AddedImports(r, i) == ImportsAt(r.stop, repo, c, p, i)
  {
    hide HasEdges, DeleteFiles, Loads, ImportsAt, Files, Built, GoneExactly;
    var calls, imports :| Built(r.stop, repo, c.root, Files(c.pkgs.value), calls, imports) &&
      HasEdges(DeleteFiles(r.start, r.gone), r.stop, calls, imports);
    CallsBehind(DeleteFiles(r.start, r.gone), r.stop, calls, imports, C.CallEdge(0, 0, 0, 0), i);
    BuildYieldsImport(r.stop, repo, c, calls, imports, p, i);
  }

  /** What a run leaves of an edge, in terms of what it found. */
  lemma CountAfter(r: Run, e: C.CallEdge, i: I.ImportEdge)
    ensures multiset(r.stop.calls)[e] ==
            (if SparedBy(r.start, r.gone, e) then multiset(r.start.calls)[e] else 0) + AddedCalls(r, e)
    ensures multiset(r.stop.imports)[i] ==
            (if ImportSpared(r.start, r.gone, i) then multiset(r.start.imports)[i] else 0) + AddedImports(r, i)
  {
    var d := DeleteFiles(r.start, r.gone);
    KeepCallsCount(r.start.calls, d.files.Keys, d.symbols.Keys, e);
    KeepImportsCount(r.start.imports, d.files.Keys, i);
    assert d.calls == KeepCalls(r.start.calls, d.files.Keys, d.symbols.Keys);
    assert d.imports == KeepImports(r.start.imports, d.files.Keys);
    SparedIs(r.start, r.gone, e);
    ImportSparedIs(r.start, r.gone, i);
    hide KeepCalls, KeepImports, DeleteFiles, SparedBy, ImportSpared;
  }

  // ---------- Chains of runs ----------

  /** The runs of the repository spare the edge; writes and runs of other repositories are free. */
  ghost predicate Spares(l: Link, repo: Id, e: C.CallEdge) {
    l.RunLink? && l.repo == repo ==> SparedBy(l.run.start, l.run.gone, e)
  }

  ghost predicate SparesImport(l: Link, repo: Id, i: I.ImportEdge) {
    l.RunLink? && l.repo == repo ==> ImportSpared(l.run.start, l.run.gone, i)
  }

  /** How many copies a link adds. */
  ghost function LinkAdds(l: Link, repo: Id, e: C.CallEdge): int {
    if l.RunLink? && l.repo == repo then AddedCalls(l.run, e) else 0
  }

  ghost function LinkAddsImports(l: Link, repo: Id, i: I.ImportEdge): int {
    if l.RunLink? && l.repo == repo then AddedImports(l.run, i) else 0
  }

  lemma AlongLink(a: DB, l: Link, b: DB, repo: Id, e: C.CallEdge, i: I.ImportEdge)
    requires Sound(a) && Linked(a, l, b) && e.repo == repo && i.repo == repo
    ensures Spares(l, repo, e) ==> multiset(b.calls)[e] == multiset(a.calls)[e] + LinkAdds(l, repo, e)
    ensures SparesImport(l, repo, i) ==> multiset(b.imports)[i] == multiset(a.imports)[i] + LinkAddsImports(l, repo, i)
  {
    match l {
      case WriteLink(t) =>
      case RunLink(from, q, c, input, run) =>
        MidTables(a, from, q, c, input, run);
        hide Ran, Sound, Below, Confined, SparedBy, ImportSpared, AddedCalls, AddedImports;
        if q == repo {
          CountAfter(run, e, i);
        } else {
          OtherRepositories(run, q, PathsOfRun(a, run.start, q, input), repo);
        }
    }
  }

  ghost function CallsAdded(links: seq<Link>, repo: Id, e: C.CallEdge): int {
    if links == [] then 0
    else CallsAdded(links[..|links| - 1], repo, e) + LinkAdds(links[|links| - 1], repo, e)
  }

  ghost function ImportsAdded(links: seq<Link>, repo: Id, i: I.ImportEdge): int {
    if links == [] then 0
    else ImportsAdded(links[..|links| - 1], repo, i) + LinkAddsImports(links[|links| - 1], repo, i)
  }

  /** Over any chain of runs, each stopped anywhere, of column writes and of runs for other repositories, the copies of
      an edge that no run discards add up: the tables only grow, by what each run inserted before it stopped. */
  lemma {:induction false} CopiesAddUp(states: seq<DB>, links: seq<Link>, repo: Id, e: C.CallEdge, i: I.ImportEdge)
    requires Chain(states, links) && e.repo == repo && i.repo == repo
    ensures (forall k :: 0 <= k < |links| ==> Spares(links[k], repo, e)) ==>
              multiset(states[|links|].calls)[e] == multiset(states[0].calls)[e] + CallsAdded(links, repo, e)
    ensures (forall k :: 0 <= k < |links| ==> SparesImport(links[k], repo, i)) ==>
              multiset(states[|links|].imports)[i] == multiset(states[0].imports)[i] + ImportsAdded(links, repo, i)
  {
    hide Linked, Sound, Spares, SparesImport, LinkAdds, LinkAddsImports;
    if links != [] {
      var n := |links| - 1;
      assert Chain(states[..n + 1], links[..n]);
      CopiesAddUp(states[..n + 1], links[..n], repo, e, i);
      ChainSound(states, links, n);
      AlongLink(states[n], links[n], states[n + 1], repo, e, i);
    }
  }

  /** How many of the links inserted the edge. */
  ghost function Inserting(links: seq<Link>, repo: Id, e: C.CallEdge): nat {
    if links == [] then 0
    else Inserting(links[..|links| - 1], repo, e) + (if LinkAdds(links[|links| - 1], repo, e) == 0 then 0 else 1)
  }

  ghost function ImportInserting(links: seq<Link>, repo: Id, i: I.ImportEdge): nat {
    if links == [] then 0
    else
      ImportInserting(links[..|links| - 1], repo, i) +
      (if LinkAddsImports(links[|links| - 1], repo, i) == 0 then 0 else 1)
  }

  /** A run of the repository works on a clone that holds the call m times, and leaves the edge where it was. */
  ghost predicate HoldsCall(l: Link, repo: Id, p: Rel, e: C.CallEdge, caller: string, callee: string, m: nat) {
    l.RunLink? && l.repo == repo ==>
      && Loads(l.clone) && EdgeAt(l.run.stop, repo, p, e, caller, callee) && CallsIn(l.clone, p, caller, callee) == m
  }

  ghost predicate HoldsImport(l: Link, repo: Id, p: Rel, i: I.ImportEdge, m: nat) {
    l.RunLink? && l.repo == repo ==>
      Loads(l.clone) && FileAt(l.run.stop, repo, p, i.from) && ImportsAt(l.run.stop, repo, l.clone, p, i) == m
  }

  /** As the pipeline leaves it, wherever it stops: a run inserted a build of its clone, the call edges of one, or
      nothing. */
  ghost predicate InsertsBuild(l: Link) {
    l.RunLink? ==> EdgesInserted(l.run.start, l.run.stop, l.repo, l.clone, l.run.gone)
  }

  lemma LinkAddsSome(l: Link, repo: Id, p: Rel, e: C.CallEdge, caller: string, callee: string, m: nat)
    requires InsertsBuild(l) && HoldsCall(l, repo, p, e, caller, callee, m)
    ensures LinkAdds(l, repo, e) == 0 || LinkAdds(l, repo, e) == m
  {
    if l.RunLink? && l.repo == repo {
      assert EdgesInserted(l.run.start, l.run.stop, repo, l.clone, l.run.gone);
      hide EdgesInserted, Loads, EdgeAt, CallsIn, AddedCalls;
      AddsAllOrNone(l.run, repo, l.clone, p, e, caller, callee);
    }
  }

  lemma LinkAddsSomeImports(l: Link, repo: Id, p: Rel, i: I.ImportEdge, m: nat)
    requires InsertsBuild(l) && HoldsImport(l, repo, p, i, m) && i.repo == repo
    ensures LinkAddsImports(l, repo, i) == 0 || LinkAddsImports(l, repo, i) == m
  {
    if l.RunLink? && l.repo == repo {
      assert EdgesInserted(l.run.start, l.run.stop, repo, l.clone, l.run.gone);
      hide EdgesInserted, Loads, ImportsAt, AddedImports;
      AddsAllOrNoImports(l.run, repo, l.clone, p, i);
    }
  }

  lemma {:induction false} SumOfCalls(links: seq<Link>, repo: Id, p: Rel, e: C.CallEdge, caller: string,
                                      callee: string, m: nat)
    requires forall k :: 0 <= k < |links| ==>
               InsertsBuild(links[k]) && HoldsCall(links[k], repo, p, e, caller, callee, m)
    ensures CallsAdded(links, repo, e) == m * Inserting(links, repo, e)
  {
    hide InsertsBuild, HoldsCall, LinkAdds;
    if links != [] {
      var n := |links| - 1;
      SumOfCalls(links[..n], repo, p, e, caller, callee, m);
      LinkAddsSome(links[n], repo, p, e, caller, callee, m);
      Once(m, Inserting(links[..n], repo, e));
    }
  }

  lemma Once(m: nat, n: nat)
    ensures m * (n + 1) == m * n + m
  {
  }

  lemma {:induction false} SumOfImports(links: seq<Link>, repo: Id, p: Rel, i: I.ImportEdge, m: nat)
    requires i.repo == repo
    requires forall k :: 0 <= k < |links| ==> InsertsBuild(links[k]) && HoldsImport(links[k], repo, p, i, m)
    ensures ImportsAdded(links, repo, i) == m * ImportInserting(links, repo, i)
  {
    hide InsertsBuild, HoldsImport, LinkAddsImports;
    if links != [] {
      var n := |links| - 1;
      SumOfImports(links[..n], repo, p, i, m);
      LinkAddsSomeImports(links[n], repo, p, i, m);
      Once(m, ImportInserting(links[..n], repo, i));
    }
  }

  /** On sources that hold the call m times, every run that got to its inserts, finished or not, adds m copies. */
  lemma EdgeMultiplicity(states: seq<DB>, links: seq<Link>, repo: Id, p: Rel, e: C.CallEdge, caller: string,
                         callee: string, m: nat)
    requires Chain(states, links) && e.repo == repo
    requires forall k :: 0 <= k < |links| ==>
               InsertsBuild(links[k]) && Spares(links[k], repo, e) &&
               HoldsCall(links[k], repo, p, e, caller, callee, m)
    ensures multiset(states[|links|].calls)[e] == multiset(states[0].calls)[e] + m * Inserting(links, repo, e)
  {
    hide Chain, Spares, HoldsCall, CallsAdded, Inserting, InsertsBuild;
    CopiesAddUp(states, links, repo, e, I.ImportEdge(repo, 0, 0, "", None));
    SumOfCalls(links, repo, p, e, caller, callee, m);
  }

  /** The same for import edges. */
  lemma ImportMultiplicity(states: seq<DB>, links: seq<Link>, repo: Id, p: Rel, i: I.ImportEdge, m: nat)
    requires Chain(states, links) && i.repo == repo
    requires forall k :: 0 <= k < |links| ==>
               InsertsBuild(links[k]) && SparesImport(links[k], repo, i) && HoldsImport(links[k], repo, p, i, m)
    ensures multiset(states[|links|].imports)[i] == multiset(states[0].imports)[i] + m * ImportInserting(links, repo, i)
  {
    hide Chain, SparesImport, HoldsImport, ImportsAdded, ImportInserting, InsertsBuild;
    CopiesAddUp(states, links, repo, C.CallEdge(repo, 0, 0, 0), i);
    SumOfImports(links, repo, p, i, m);
  }

  // ---------- Redelivery ----------

  /** A file the message does not mention. */
  ghost predicate Unmentioned(a: DB, repo: Id, input: RepositoryInput, f: Id) {
    && f in a.files && a.files[f].repo == repo && a.files[f].path.RelPath?
    && !Mentioned(input.changed, input.removed, a.files[f].path.rel)
  }

  /** The edge lies in such a file, between symbols of such files. */
  ghost predicate OnUnmentioned(a: DB, repo: Id, input: RepositoryInput, e: C.CallEdge) {
    && e.repo == repo && Unmentioned(a, repo, input, e.file)
    && e.caller in a.symbols && Unmentioned(a, repo, input, a.symbols[e.caller].file)
    && e.callee in a.symbols && Unmentioned(a, repo, input, a.symbols[e.callee].file)
  }

  ghost predicate ImportUnmentioned(a: DB, repo: Id, input: RepositoryInput, i: I.ImportEdge) {
    i.repo == repo && Unmentioned(a, repo, input, i.from) && Unmentioned(a, repo, input, i.to)
  }

  lemma UnmentionedStays(a: DB, from: Id, repo: Id, c: Clone, input: RepositoryInput, r: Run, f: Id)
    requires Ran(a, from, repo, c, input, r) && !FullRun(a, r.start, repo, input) && Unmentioned(a, repo, input, f)
    ensures f in r.start.files && f !in r.gone && VeryRows(a, r.stop, f) && Unmentioned(r.stop, repo, input, f)
  {
    var p := a.files[f].path.rel;
    MidTables(a, from, repo, c, input, r);
    ScopeIsMentioned(r.start, repo, input.changed, input.removed);
    assert FileAt(a, repo, p, f) && p !in PathsOfRun(a, r.start, repo, input);
    hide Ran, FullRun, Mentioned, Sound, Below, Confined, SameChunks, PathsOfRun, NoLegacy;
    Leaves(a, from, repo, c, input, r, p);
    UntouchedRows(r, repo, PathsOfRun(a, r.start, repo, input), f);
  }

  lemma UnmentionedSpared(a: DB, from: Id, repo: Id, c: Clone, input: RepositoryInput, r: Run, e: C.CallEdge)
    requires Ran(a, from, repo, c, input, r) && !FullRun(a, r.start, repo, input) && OnUnmentioned(a, repo, input, e)
    ensures SparedBy(r.start, r.gone, e) && OnUnmentioned(r.stop, repo, input, e)
    ensures multiset(r.stop.calls)[e] == multiset(a.calls)[e] + AddedCalls(r, e)
  {
    MidTables(a, from, repo, c, input, r);
    hide Ran, FullRun, Mentioned, Sound, Below, Confined, SameChunks, AddedCalls;
    UnmentionedStays(a, from, repo, c, input, r, e.file);
    UnmentionedStays(a, from, repo, c, input, r, a.symbols[e.caller].file);
    UnmentionedStays(a, from, repo, c, input, r, a.symbols[e.callee].file);
    CountAfter(r, e, I.ImportEdge(repo, 0, 0, "", None));
  }

  /** What a successful incremental run is: nothing but column writes, or a rebuild of the mentioned paths. */
  lemma WhatApplied(a: DB, from: Id, repo: Id, c: Clone, input: RepositoryInput, r: Run, published: seq<Id>)
    returns (paths: iset<Rel>)
    requires Succeeded(a, from, repo, c, input, r, published) && !FullRun(a, r.start, repo, input)
    ensures if GoOnly(input.changed + input.removed) == [] then Drift(r.start, r.stop, r.t)
            else Rebuilt(r.start, r.stop, repo, c, r.gone, paths, published)
  {
    KnownThen(a, r.start, repo, input);
    assert PushApplied(r.start, r.stop, repo, c, input.changed, input.removed, r.gone, r.t, published);
    hide Succeeded, FullRun, NoLegacy, CleanAt, Absent, Rebuilt, Drift, GoOnly;
    paths := ScopeOfRun(r.start, repo, input.changed, input.removed);
  }

  lemma DriftAddsNone(r: Run, e: C.CallEdge, i: I.ImportEdge)
    requires Drift(r.start, r.stop, r.t)
    ensures SparedBy(r.start, r.gone, e) ==> AddedCalls(r, e) == 0
    ensures ImportSpared(r.start, r.gone, i) ==> AddedImports(r, i) == 0
  {
    hide AddedCalls, AddedImports, SparedBy, ImportSpared;
    CountAfter(r, e, i);
  }

  /** What a successful incremental run inserts of an edge it spares. */
  lemma AppliedAdds(a: DB, from: Id, repo: Id, c: Clone, input: RepositoryInput, r: Run, published: seq<Id>, p: Rel,
                    e: C.CallEdge, caller: string, callee: string)
    requires Succeeded(a, from, repo, c, input, r, published) && !FullRun(a, r.start, repo, input) && Loads(c)
    requires SparedBy(r.start, r.gone, e) && EdgeAt(r.stop, repo, p, e, caller, callee)
    ensures AddedCalls(r, e) ==
            if GoOnly(input.changed + input.removed) == [] then 0 else CallsIn(c, p, caller, callee)
  {
    hide *;
    var paths := WhatApplied(a, from, repo, c, input, r, published);
    if GoOnly(input.changed + input.removed) == [] {
      DriftAddsNone(r, e, I.ImportEdge(repo, 0, 0, "", None));
    } else {
      AddsAll(r, repo, c, paths, published, p, e, caller, callee);
    }
  }

  lemma AppliedAddsImports(a: DB, from: Id, repo: Id, c: Clone, input: RepositoryInput, r: Run, published: seq<Id>,
                           p: Rel, i: I.ImportEdge)
    requires Succeeded(a, from, repo, c, input, r, published) && !FullRun(a, r.start, repo, input) && Loads(c)
    requires ImportSpared(r.start, r.gone, i) && i.repo == repo && FileAt(r.stop, repo, p, i.from)
    ensures AddedImports(r, i) ==
            if GoOnly(input.changed + input.removed) == [] then 0 else ImportsAt(r.stop, repo, c, p, i)
  {
    hide *;
    var paths := WhatApplied(a, from, repo, c, input, r, published);
    if GoOnly(input.changed + input.removed) == [] {
      DriftAddsNone(r, C.CallEdge(repo, 0, 0, 0), i);
    } else {
      AddsAllImports(r, repo, c, paths, published, p, i);
    }
  }

  /** With a baseline all three runs are incremental, and of the same repository. */
  lemma AllIncremental(a: DB, from: Id, first: Clone, c: Clone, input: RepositoryInput, repo: Id, stopped: Run,
                       q: Id, again: Run, published: seq<Id>, q': Id, straight: Run, published': seq<Id>)
    requires Sound(a) && Below(a, from) && Baseline(a, repo, input.ext) && input.incremental
    requires Ran(a, from, repo, first, input, stopped)
    requires Succeeded(stopped.stop, stopped.hi, q, c, input, again, published)
    requires Succeeded(a, from, q', c, input, straight, published')
    ensures q == repo == q' && !FullRun(a, stopped.start, repo, input)
    ensures !FullRun(stopped.stop, again.start, repo, input) && !FullRun(a, straight.start, repo, input)
    ensures Ran(stopped.stop, stopped.hi, repo, c, input, again) && Ran(a, from, repo, c, input, straight)
  {
    var b := stopped.stop;
    assert Ran(b, stopped.hi, q, c, input, again) && Ran(a, from, q', c, input, straight);
    hide *;
    StopParts(a, from, repo, first, input, stopped);
    StillBaseline(a, from, repo, first, input, repo, stopped);
    StillBaseline(b, stopped.hi, repo, c, input, q, again);
    StillBaseline(a, from, repo, c, input, q', straight);
  }

  /** Redelivery and the call graph. Where there is a baseline, an edge between unmentioned files ends, after a
      redelivery, with what an uninterrupted run leaves of it and the copies the stopped run had inserted: as often if
      and only if that run stopped before it inserted the edge, or the call is not in its source. */
  lemma RedeliveryCopies(a: DB, from: Id, first: Clone, c: Clone, input: RepositoryInput, repo: Id, stopped: Run,
                         q: Id, again: Run, published: seq<Id>, q': Id, straight: Run, published': seq<Id>, p: Rel,
                         e: C.CallEdge, caller: string, callee: string)
    requires Sound(a) && Below(a, from) && Baseline(a, repo, input.ext) && input.incremental && Loads(c)
    requires Ran(a, from, repo, first, input, stopped)
    requires Succeeded(stopped.stop, stopped.hi, q, c, input, again, published)
    requires Succeeded(a, from, q', c, input, straight, published')
    requires OnUnmentioned(a, repo, input, e)
    requires EdgeAt(again.stop, repo, p, e, caller, callee) && EdgeAt(straight.stop, repo, p, e, caller, callee)
    ensures multiset(again.stop.calls)[e] == multiset(straight.stop.calls)[e] + AddedCalls(stopped, e)
    ensures multiset(again.stop.calls)[e] == multiset(straight.stop.calls)[e] <==> AddedCalls(stopped, e) == 0
  {
    var b := stopped.stop;
    hide *;
    AllIncremental(a, from, first, c, input, repo, stopped, q, again, published, q', straight, published');
    UnmentionedSpared(a, from, repo, first, input, stopped, e);
    UnmentionedSpared(b, stopped.hi, repo, c, input, again, e);
    UnmentionedSpared(a, from, repo, c, input, straight, e);
    AppliedAdds(b, stopped.hi, repo, c, input, again, published, p, e, caller, callee);
    AppliedAdds(a, from, repo, c, input, straight, published', p, e, caller, callee);
  }

  /** An edge of a file or symbol that a successful run discarded is there exactly as often as its call stands in the
      source, whatever stopped before: a redelivery of a full message, or at the paths a message mentions, is exact. */
  lemma RebuiltExactly(a: DB, from: Id, repo: Id, c: Clone, input: RepositoryInput, r: Run, published: seq<Id>, p: Rel,
                       e: C.CallEdge, caller: string, callee: string)
    requires Succeeded(a, from, repo, c, input, r, published) && Loads(c)
    requires FullRun(a, r.start, repo, input) || GoOnly(input.changed + input.removed) != []
    requires FullRun(a, r.start, repo, input) || !SparedBy(r.start, r.gone, e)
    requires EdgeAt(r.stop, repo, p, e, caller, callee)
    ensures multiset(r.stop.calls)[e] == CallsIn(c, p, caller, callee)
  {
    CountAfter(r, e, I.ImportEdge(repo, 0, 0, "", None));
    var paths := if FullRun(a, r.start, repo, input) then Everywhere()
                 else ScopeOfRun(r.start, repo, input.changed, input.removed);
    assert Rebuilt(r.start, r.stop, repo, c, r.gone, paths, published) by {
      hide FullIndex, Rebuilt, GoOnly, NoLegacy, CleanAt, Absent, EdgeAt, Loads, CallsIn, AddedCalls, SparedBy, Ran;
    }
    if FullRun(a, r.start, repo, input) { FullSparesNone(r, repo, c, published, p, e, caller, callee); }
    hide Succeeded, FullRun, Loads, SparedBy, EdgeAt, AddedCalls, CallsIn, Rebuilt;
    AddsAll(r, repo, c, paths, published, p, e, caller, callee);
  }

  lemma FullSparesNone(r: Run, repo: Id, c: Clone, published: seq<Id>, p: Rel, e: C.CallEdge, caller: string,
                       callee: string)
    requires Rebuilt(r.start, r.stop, repo, c, r.gone, Everywhere(), published)
    requires Sound(r.start) && EdgeAt(r.stop, repo, p, e, caller, callee)
    requires forall f :: f in r.start.files && f !in r.gone && f in r.stop.files ==> r.stop.files[f] == r.start.files[f]
    ensures !SparedBy(r.start, r.gone, e)
  {
  }

  // ---------- Redelivery and the import graph ----------

  ghost predicate SamePaths(x: DB, y: DB, repo: Id) {
    forall p :: Absent(x, repo, p) <==> Absent(y, repo, p)
  }

  lemma AlikePresence(x: DB, y: DB, repo: Id, p: Rel)
    requires Alike(x, repo, y, repo, p)
    ensures Absent(x, repo, p) <==> Absent(y, repo, p)
  {
    hide SymbolsListed, ChunksListed, VeryRows;
  }

  lemma FirstRowSame(x: DB, y: DB, repo: Id, root: Abs, goFiles: seq<Abs>, f: Id)
    requires SamePaths(x, y, repo) && f in x.files && f in y.files && x.files[f] == y.files[f]
    requires FirstRow(x, repo, root, goFiles, f)
    ensures FirstRow(y, repo, root, goFiles, f)
  {
    var k :| 0 <= k < |goFiles| && RowOf(x, repo, root, goFiles[k], f) &&
             forall j, g :: 0 <= j < k ==> !RowOf(x, repo, root, goFiles[j], g);
    assert RowOf(y, repo, root, goFiles[k], f);
    forall j, g | 0 <= j < k ensures !RowOf(y, repo, root, goFiles[j], g) {
      if root <= goFiles[j] {
        var p := goFiles[j][|root|..];
        assert Absent(x, repo, p) by {
          forall h | h in x.files ensures x.files[h] != FileRow(repo, RelPath(p)) {
            assert !RowOf(x, repo, root, goFiles[j], h);
          }
        }
        assert Absent(y, repo, p);
      }
    }
  }

  lemma OneSyntax(c: Clone, u: Syntax, v: Syntax)
    requires Loads(c) && c.pkgs.Some? && u in Files(c.pkgs.value) && v in Files(c.pkgs.value) && u.abs == v.abs
    ensures u == v
  {
    hide Files;
    var i := PositionOf(c, u);
    var j := PositionOf(c, v);
  }

  /** The build counts the imports of the one loaded file. */
  lemma ImportsAtIs(b: DB, repo: Id, c: Clone, p: Rel, u: Syntax, i: I.ImportEdge)
    requires Loads(c) && LoadedWith(b, repo, c, p, u, i.from)
    ensures ImportsAt(b, repo, c, p, i) == ImportsIn(b, repo, c.root, u, i)
  {
    hide Loads, Files, ImportsIn, FileAt;
    assert exists v :: LoadedWith(b, repo, c, p, v, i.from);
    var v :| LoadedWith(b, repo, c, p, v, i.from) && ImportsAt(b, repo, c, p, i) == ImportsIn(b, repo, c.root, v, i);
    assert v in Files(c.pkgs.value) && v.abs == Join(c.root, p);
    OneSyntax(c, u, v);
  }

  lemma ImportsInSame(x: DB, y: DB, repo: Id, root: Abs, u: Syntax, i: I.ImportEdge)
    requires SamePaths(x, y, repo) && i.to in x.files && i.to in y.files && x.files[i.to] == y.files[i.to]
    ensures ImportsIn(x, repo, root, u, i) == ImportsIn(y, repo, root, u, i)
  {
    hide FirstRow;
    if i.path in u.deps {
      if FirstRow(x, repo, root, u.deps[i.path], i.to) { FirstRowSame(x, y, repo, root, u.deps[i.path], i.to); }
      if FirstRow(y, repo, root, u.deps[i.path], i.to) { FirstRowSame(y, x, repo, root, u.deps[i.path], i.to); }
    }
  }

  lemma ImportsSame(x: DB, y: DB, repo: Id, c: Clone, p: Rel, i: I.ImportEdge)
    requires Loads(c) && SamePaths(x, y, repo) && FileAt(x, repo, p, i.from) && FileAt(y, repo, p, i.from)
    requires i.to in x.files && i.to in y.files && x.files[i.to] == y.files[i.to]
    ensures ImportsAt(x, repo, c, p, i) == ImportsAt(y, repo, c, p, i)
  {
    assert forall u :: LoadedWith(x, repo, c, p, u, i.from) <==> LoadedWith(y, repo, c, p, u, i.from);
    hide Loads, SamePaths, ImportsIn, LoadedWith, FileAt;
    if u :| LoadedWith(x, repo, c, p, u, i.from) {
      ImportsAtIs(x, repo, c, p, u, i);
      ImportsAtIs(y, repo, c, p, u, i);
      ImportsInSame(x, y, repo, c.root, u, i);
    }
  }

  lemma ImportUnmentionedSpared(a: DB, from: Id, repo: Id, c: Clone, input: RepositoryInput, r: Run, i: I.ImportEdge)
    requires Ran(a, from, repo, c, input, r) && !FullRun(a, r.start, repo, input)
    requires ImportUnmentioned(a, repo, input, i)
    ensures ImportSpared(r.start, r.gone, i) && ImportUnmentioned(r.stop, repo, input, i)
    ensures r.stop.files[i.from] == a.files[i.from] && r.stop.files[i.to] == a.files[i.to]
    ensures multiset(r.stop.imports)[i] == multiset(a.imports)[i] + AddedImports(r, i)
  {
    MidTables(a, from, repo, c, input, r);
    hide Ran, FullRun, Mentioned, Sound, Below, Confined, SameChunks, AddedImports;
    UnmentionedStays(a, from, repo, c, input, r, i.from);
    UnmentionedStays(a, from, repo, c, input, r, i.to);
    CountAfter(r, C.CallEdge(repo, 0, 0, 0), i);
  }

  lemma SameAfter(a: DB, from: Id, first: Clone, c: Clone, input: RepositoryInput, repo: Id, stopped: Run, again: Run,
                  published: seq<Id>, straight: Run, published': seq<Id>)
    requires Sound(a) && Below(a, from) && Baseline(a, repo, input.ext)
    requires Ran(a, from, repo, first, input, stopped)
    requires Succeeded(stopped.stop, stopped.hi, repo, c, input, again, published)
    requires Succeeded(a, from, repo, c, input, straight, published')
    ensures SamePaths(again.stop, straight.stop, repo)
  {
    assert ReplaySafe(a, first, c, input);
    hide *;
    forall p ensures Absent(again.stop, repo, p) <==> Absent(straight.stop, repo, p) {
      MessageReplay(a, from, first, c, input, repo, stopped, repo, again, published, repo, straight, published', p);
      AlikePresence(again.stop, straight.stop, repo, p);
    }
    PathsAreSame(again.stop, straight.stop, repo);
  }

  lemma PathsAreSame(x: DB, y: DB, repo: Id)
    requires forall p :: Absent(x, repo, p) <==> Absent(y, repo, p)
    ensures SamePaths(x, y, repo)
  {
    hide Absent;
  }

  /** The same for import edges: a stopped run's copies stay. */
  lemma RedeliveryImports(a: DB, from: Id, first: Clone, c: Clone, input: RepositoryInput, repo: Id, stopped: Run,
                          q: Id, again: Run, published: seq<Id>, q': Id, straight: Run, published': seq<Id>, p: Rel,
                          i: I.ImportEdge)
    requires Sound(a) && Below(a, from) && Baseline(a, repo, input.ext) && input.incremental && Loads(c)
    requires Ran(a, from, repo, first, input, stopped)
    requires Succeeded(stopped.stop, stopped.hi, q, c, input, again, published)
    requires Succeeded(a, from, q', c, input, straight, published')
    requires ImportUnmentioned(a, repo, input, i) && FileAt(a, repo, p, i.from)
    ensures multiset(again.stop.imports)[i] == multiset(straight.stop.imports)[i] + AddedImports(stopped, i)
    ensures multiset(again.stop.imports)[i] == multiset(straight.stop.imports)[i] <==> AddedImports(stopped, i) == 0
  {
    var b := stopped.stop;
    hide *;
    AllIncremental(a, from, first, c, input, repo, stopped, q, again, published, q', straight, published');
    SameAfter(a, from, first, c, input, repo, stopped, again, published, straight, published');
    ImportUnmentionedSpared(a, from, repo, first, input, stopped, i);
    ImportUnmentionedSpared(b, stopped.hi, repo, c, input, again, i);
    ImportUnmentionedSpared(a, from, repo, c, input, straight, i);
    StaysAt(a, again.stop, straight.stop, repo, input, p, i);
    ImportsSame(again.stop, straight.stop, repo, c, p, i);
    AppliedAddsImports(b, stopped.hi, repo, c, input, again, published, p, i);
    AppliedAddsImports(a, from, repo, c, input, straight, published', p, i);
  }

  lemma StaysAt(a: DB, x: DB, y: DB, repo: Id, input: RepositoryInput, p: Rel, i: I.ImportEdge)
    requires FileAt(a, repo, p, i.from) && ImportUnmentioned(a, repo, input, i)
    requires ImportUnmentioned(x, repo, input, i) && ImportUnmentioned(y, repo, input, i)
    requires x.files[i.from] == a.files[i.from] == y.files[i.from] && x.files[i.to] == y.files[i.to]
    ensures FileAt(x, repo, p, i.from) && FileAt(y, repo, p, i.from) && i.repo == repo
    ensures i.to in x.files && i.to in y.files && x.files[i.to] == y.files[i.to]
  {
  }
}
