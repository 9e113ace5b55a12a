/** How often an edge occurs after runs that add a whole-repository build to what the cascade left. */
module Edges {
  import opened Base
  import opened Paths
  import opened SourceTree
  import opened Tables
  import opened Index
  import opened Rebuild
  import opened Runs
  import C = Calls
  import I = Imports

  /** After a successful run an edge occurs as often as before, if the cascade spared it, and once more for each time
      the build yields it. */
  lemma EdgesAfterRun(a: DB, b: DB, gone: set<Id>, calls: seq<C.CallEdge>, imports: seq<I.ImportEdge>, e: C.CallEdge,
                      i: I.ImportEdge)
    requires Sound(a) && HasEdges(DeleteFiles(a, gone), b, calls, imports)
    ensures var d := DeleteFiles(a, gone);
            && multiset(b.calls)[e] == multiset(calls)[e] +
                 (if e.file in d.files && e.caller in d.symbols &&
                     e.callee in d.symbols then multiset(a.calls)[e] else 0)
            && multiset(b.imports)[i] == multiset(imports)[i] +
                 (if i.from in d.files && i.to in d.files then multiset(a.imports)[i] else 0)
  {
    var d := DeleteFiles(a, gone);
    KeepCallsCount(a.calls, d.files.Keys, d.symbols.Keys, e);
    KeepImportsCount(a.imports, d.files.Keys, i);
    hide KeepCalls, KeepImports;
  }

  /** s is the one row of the repository that bears its name. */
  ghost predicate SoleBearer(db: DB, repo: Id, s: Id) {
    s in db.symbols && db.symbols[s].repo == repo &&
    forall q :: q in db.symbols && db.symbols[q].repo == repo ==>
      db.symbols[q].data.fqName == db.symbols[s].data.fqName ==> q == s
  }

  lemma NamesInjective(db: DB, repo: Id, sm: map<string, Id>)
    requires NameMapOf(db, repo, sm)
    ensures C.InjectiveNames(sm)
  {
    forall x, y | x in sm && y in sm && sm[x] == sm[y] ensures x == y {
      assert db.symbols[sm[x]].data.fqName == x && db.symbols[sm[y]].data.fqName == y;
    }
  }

  lemma NameMapIs(db: DB, repo: Id, sm: map<string, Id>, s: Id)
    requires NameMapOf(db, repo, sm) && SoleBearer(db, repo, s)
    ensures db.symbols[s].data.fqName in sm && sm[db.symbols[s].data.fqName] == s
  {
  }

  lemma FileMapIs(db: DB, repo: Id, root: Abs, fm: map<Abs, Id>, p: Rel, f: Id)
    requires FileMapOf(db, repo, root, fm) && FileAt(db, repo, p, f)
    ensures Join(root, p) in fm && fm[Join(root, p)] == f
    ensures forall x, y :: x in fm && y in fm && fm[x] == fm[y] ==> x == y
  {
    forall x, y | x in fm && y in fm && fm[x] == fm[y] ensures x == y {
      assert x == root + x[|root|..] && y == root + y[|root|..];
    }
  }

  lemma LoadedAt(c: Clone, p: Rel, src: SourceFile) returns (k: nat)
    requires Loads(c) && c.pkgs.Some? && p in c.tree && c.tree[p] == src && src.built
    ensures k < |Files(c.pkgs.value)| && Files(c.pkgs.value)[k].abs == Join(c.root, p) &&
        Files(c.pkgs.value)[k].src == src
    ensures forall i, j :: 0 <= i < j < |Files(c.pkgs.value)| ==>
        Files(c.pkgs.value)[i].abs != Files(c.pkgs.value)[j].abs
  {
    hide Files;
    var files := Files(c.pkgs.value);
    assert IsLoaded(files, Join(c.root, p));
    k :| 0 <= k < |files| && files[k].abs == Join(c.root, p);
    assert LoadedFrom(files[k], c.root, c.tree);
    assert Join(c.root, p)[|c.root|..] == p;
  }

  lemma NotLoaded(c: Clone, p: Rel)
    requires Loads(c) && c.pkgs.Some? && !(p in c.tree && c.tree[p].built)
    ensures forall k :: 0 <= k < |Files(c.pkgs.value)| ==> Files(c.pkgs.value)[k].abs != Join(c.root, p)
  {
    hide Files;
    var files := Files(c.pkgs.value);
    forall k | 0 <= k < |files| ensures files[k].abs != Join(c.root, p) {
      assert LoadedFrom(files[k], c.root, c.tree);
      assert Join(c.root, p)[|c.root|..] == p;
    }
  }

  ghost predicate EndAt(b: DB, repo: Id, s: Id, name: string) {
    s in b.symbols && b.symbols[s].repo == repo && b.symbols[s].data.fqName == name
  }

  /** The edge lies in the file at path p, between symbols that are alone in bearing the given names. */
  ghost predicate EdgeAt(b: DB, repo: Id, p: Rel, e: C.CallEdge, caller: string, callee: string) {
    && e.repo == repo && FileAt(b, repo, p, e.file)
    && EndAt(b, repo, e.caller, caller) && SoleBearer(b, repo, e.caller)
    && EndAt(b, repo, e.callee, callee) && SoleBearer(b, repo, e.callee)
  }

  /** How often the call stands in the source that the clone has at the path. */
  ghost function CallsIn(c: Clone, p: Rel, caller: string, callee: string): nat {
    if p in c.tree && c.tree[p].built then multiset(C.FilePairs(c.tree[p]))[(caller, callee)] else 0
  }

  lemma NotBuilt(files: seq<Syntax>, fm: map<Abs, Id>, sm: map<string, Id>, repo: Id, x: Abs, e: C.CallEdge)
    requires forall k :: 0 <= k < |files| ==> files[k].abs != x
    requires x in fm && fm[x] == e.file && forall y :: y in fm && fm[y] == e.file ==> y == x
    ensures multiset(C.AllEdges(files, fm, sm, repo))[e] == 0
  {
    C.CountInFile(files, fm, sm, repo, |files|, e);
  }

  /** How often a build yields an edge: once for each call in the source of its file from the one name to the other. */
  lemma BuildYields(b: DB, repo: Id, c: Clone, calls: seq<C.CallEdge>, imports: seq<I.ImportEdge>, p: Rel,
                    e: C.CallEdge, caller: string, callee: string)
    requires Loads(c) && c.pkgs.Some? && Built(b, repo, c.root, Files(c.pkgs.value), calls, imports)
    requires EdgeAt(b, repo, p, e, caller, callee)
    ensures multiset(calls)[e] == CallsIn(c, p, caller, callee)
  {
    hide C.AllEdges, I.AllEdges, C.FilePairs, Files, Loads;
    var files := Files(c.pkgs.value);
    var fm, sm :| FileMapOf(b, repo, c.root, fm) && NameMapOf(b, repo, sm) &&
      calls == C.AllEdges(files, fm, sm, repo) && imports == I.AllEdges(files, fm, repo);
    NamesInjective(b, repo, sm);
    NameMapIs(b, repo, sm, e.caller);
    NameMapIs(b, repo, sm, e.callee);
    FileMapIs(b, repo, c.root, fm, p, e.file);
    hide NameMapOf, FileMapOf, SoleBearer;
    if p in c.tree && c.tree[p].built {
      var k := LoadedAt(c, p, c.tree[p]);
      C.CountInBuild(files, fm, sm, repo, k, caller, callee);
    } else {
      NotLoaded(c, p);
      NotBuilt(files, fm, sm, repo, Join(c.root, p), e);
    }
  }

  /** Where names are borne by several rows, a call still has an edge between some bearers of the two names. */
  lemma BuildCovers(db: DB, repo: Id, root: Abs, files: seq<Syntax>, calls: seq<C.CallEdge>, imports: seq<I.ImportEdge>,
                    k: nat, p: Rel, f: Id, x: Id, y: Id) returns (e: C.CallEdge)
    requires Built(db, repo, root, files, calls, imports)
    requires k < |files| && files[k].abs == Join(root, p) && FileAt(db, repo, p, f)
    requires forall i, j :: 0 <= i < j < |files| ==> files[i].abs != files[j].abs
    requires x in db.symbols && db.symbols[x].repo == repo && y in db.symbols && db.symbols[y].repo == repo
    requires (db.symbols[x].data.fqName, db.symbols[y].data.fqName) in C.FilePairs(files[k].src)
    ensures e in calls && e.repo == repo && e.file == f
    ensures EndAt(db, repo, e.caller, db.symbols[x].data.fqName) && EndAt(db, repo, e.callee, db.symbols[y].data.fqName)
  {
    hide C.AllEdges, I.AllEdges, C.FilePairs;
    var fm, sm :| FileMapOf(db, repo, root, fm) && NameMapOf(db, repo, sm) &&
      calls == C.AllEdges(files, fm, sm, repo) && imports == I.AllEdges(files, fm, repo);
    NamesInjective(db, repo, sm);
    FileMapIs(db, repo, root, fm, p, f);
    var a, b := db.symbols[x].data.fqName, db.symbols[y].data.fqName;
    e := C.CallEdge(repo, sm[a], sm[b], f);
    hide FileMapOf;
    C.CountInBuild(files, fm, sm, repo, k, a, b);
    assert multiset(C.FilePairs(files[k].src))[(a, b)] > 0;
    assert multiset(calls)[e] > 0;
  }

  // ---------- Call edges over runs ----------

  /** A successful run: its clone, the files it discarded, the paths it rebuilt. */
  datatype SuccessfulRun = SuccessfulRun(clone: Clone, gone: set<Id>, paths: iset<Rel>, published: seq<Id>)

  ghost predicate RunOn(a: DB, b: DB, repo: Id, s: SuccessfulRun) {
    Sound(a) && Loads(s.clone) && Rebuilt(a, b, repo, s.clone, s.gone, s.paths, s.published)
  }

  /** File f is indexed at path p, whose source in the clone is src. */
  ghost predicate SourceAt(b: DB, repo: Id, c: Clone, p: Rel, src: SourceFile, f: Id) {
    FileAt(b, repo, p, f) && p in c.tree && c.tree[p] == src && src.built
  }

  ghost predicate SparedBy(a: DB, gone: set<Id>, e: C.CallEdge) {
    && e.file in a.files && e.file !in gone
    && e.caller in a.symbols && a.symbols[e.caller].file !in gone
    && e.callee in a.symbols && a.symbols[e.callee].file !in gone
  }

  /** What a run built and how it stands in its tables. */
  lemma RunBuilds(a: DB, b: DB, repo: Id, s: SuccessfulRun) returns (calls: seq<C.CallEdge>, imports: seq<I.ImportEdge>)
    requires RunOn(a, b, repo, s)
    ensures s.clone.pkgs.Some? && Loads(s.clone) && Sound(a)
    ensures Built(b, repo, s.clone.root, Files(s.clone.pkgs.value), calls, imports)
    ensures HasEdges(DeleteFiles(a, s.gone), b, calls, imports)
  {
    hide Sound, Loads, Built, HasEdges, DeleteFiles;
    calls, imports :| Built(b, repo, s.clone.root, Files(s.clone.pkgs.value), calls, imports) &&
      HasEdges(DeleteFiles(a, s.gone), b, calls, imports);
  }

  /** After a successful run an edge is there as often as before, if the run spared it, and once more for every such
      call in the source of its file. */
  lemma OneMoreRun(a: DB, b: DB, repo: Id, s: SuccessfulRun, p: Rel, e: C.CallEdge, caller: string, callee: string)
    requires RunOn(a, b, repo, s) && EdgeAt(b, repo, p, e, caller, callee)
    ensures multiset(b.calls)[e] ==
            (if SparedBy(a, s.gone, e) then multiset(a.calls)[e] else 0) + CallsIn(s.clone, p, caller, callee)
  {
    hide RunOn, Loads, Files, EdgeAt, CallsIn, Sound, Built, HasEdges, DeleteFiles, SparedBy;
    var calls, imports := RunBuilds(a, b, repo, s);
    BuildYields(b, repo, s.clone, calls, imports, p, e, caller, callee);
    EdgesAfterRun(a, b, s.gone, calls, imports, e, I.ImportEdge(0, 0, 0, "", None));
    SparedIs(a, s.gone, e);
  }

  /** An edge of the file between rows that bear the two names. */
  ghost predicate Between(b: DB, repo: Id, f: Id, e: C.CallEdge, caller: string, callee: string) {
    e.repo == repo && e.file == f && EndAt(b, repo, e.caller, caller) && EndAt(b, repo, e.callee, callee)
  }

  /** Every call between names that some symbol rows bear has an edge after a successful run. */
  lemma EdgeCoverage(a: DB, b: DB, repo: Id, s: SuccessfulRun, p: Rel, src: SourceFile, f: Id, caller: string,
                     callee: string)
    requires RunOn(a, b, repo, s) && SourceAt(b, repo, s.clone, p, src, f) && (caller, callee) in C.FilePairs(src)
    requires exists x :: EndAt(b, repo, x, caller)
    requires exists y :: EndAt(b, repo, y, callee)
    ensures exists e :: e in b.calls && Between(b, repo, f, e, caller, callee)
  {
    hide RunOn, Loads, Files, C.FilePairs, Sound, Built, DeleteFiles;
    var calls, imports := RunBuilds(a, b, repo, s);
    var k := LoadedAt(s.clone, p, src);
    var x :| EndAt(b, repo, x, caller);
    var y :| EndAt(b, repo, y, callee);
    var e := BuildCovers(b, repo, s.clone.root, Files(s.clone.pkgs.value), calls, imports, k, p, f, x, y);
    assert e in b.calls && Between(b, repo, f, e, caller, callee);
  }

  // ---------- Import edges over runs ----------

  /** File f is the row of the first of these files that has one. */
  ghost predicate FirstRow(b: DB, repo: Id, root: Abs, goFiles: seq<Abs>, f: Id) {
    exists k :: 0 <= k < |goFiles| && RowOf(b, repo, root, goFiles[k], f) &&
                forall j, g :: 0 <= j < k ==> !RowOf(b, repo, root, goFiles[j], g)
  }

  ghost predicate RowOf(b: DB, repo: Id, root: Abs, x: Abs, f: Id) { root <= x && FileAt(b, repo, x[|root|..], f) }

  lemma MappedIsRow(b: DB, repo: Id, root: Abs, fm: map<Abs, Id>, x: Abs)
    requires FileMapOf(b, repo, root, fm)
    ensures forall f :: RowOf(b, repo, root, x, f) <==> x in fm && fm[x] == f
  {
    forall f ensures RowOf(b, repo, root, x, f) <==> x in fm && fm[x] == f {
      if RowOf(b, repo, root, x, f) { assert Join(root, x[|root|..]) == x; }
    }
  }

  lemma {:induction false} FirstIndexedIs(b: DB, repo: Id, root: Abs, fm: map<Abs, Id>, goFiles: seq<Abs>, f: Id)
    requires FileMapOf(b, repo, root, fm)
    ensures I.FirstIndexed(goFiles, fm) == Some(f) <==> FirstRow(b, repo, root, goFiles, f)
  {
    hide FileMapOf, RowOf;
    if goFiles == [] {
    } else {
      var x, rest := goFiles[0], goFiles[1..];
      MappedIsRow(b, repo, root, fm, x);
      FirstIndexedIs(b, repo, root, fm, rest, f);
      assert forall k :: 0 <= k < |rest| ==> goFiles[k + 1] == rest[k];
      if x in fm {
        assert RowOf(b, repo, root, x, fm[x]);
      } else {
        if FirstRow(b, repo, root, rest, f) {
          var k :| 0 <= k < |rest| && RowOf(b, repo, root, rest[k], f) &&
                   forall j, g :: 0 <= j < k ==> !RowOf(b, repo, root, rest[j], g);
          assert RowOf(b, repo, root, goFiles[k + 1], f);
          forall j, g | 0 <= j < k + 1 ensures !RowOf(b, repo, root, goFiles[j], g) {
            if j > 0 { assert goFiles[j] == rest[j - 1]; }
          }
        }
        if FirstRow(b, repo, root, goFiles, f) {
          var k :| 0 <= k < |goFiles| && RowOf(b, repo, root, goFiles[k], f) &&
                   forall j, g :: 0 <= j < k ==> !RowOf(b, repo, root, goFiles[j], g);
          assert RowOf(b, repo, root, rest[k - 1], f);
        }
      }
    }
  }

  /** An import of the path in file u leads to file f: the first file of the package it stands for that has a row. */
  ghost predicate LeadsTo(b: DB, repo: Id, root: Abs, u: Syntax, path: string, f: Id) {
    path in u.deps && FirstRow(b, repo, root, u.deps[path], f)
  }

  /** u is the loaded file at path p, which has row f. */
  ghost predicate LoadedWith(b: DB, repo: Id, c: Clone, p: Rel, u: Syntax, f: Id) {
    c.pkgs.Some? && u in Files(c.pkgs.value) && u.abs == Join(c.root, p) && FileAt(b, repo, p, f)
  }

  /** How often a build yields an import edge. */
  ghost function ImportsIn(b: DB, repo: Id, root: Abs, u: Syntax, i: I.ImportEdge): nat {
    if LeadsTo(b, repo, root, u, i.path, i.to) then multiset(u.src.imports)[ImportSpec(i.path, i.alias)] else 0
  }

  lemma BuildYieldsImports(b: DB, repo: Id, root: Abs, files: seq<Syntax>, calls: seq<C.CallEdge>,
                           imports: seq<I.ImportEdge>, k: nat, p: Rel, i: I.ImportEdge)
    requires Built(b, repo, root, files, calls, imports) && i.repo == repo
    requires k < |files| && files[k].abs == Join(root, p) && FileAt(b, repo, p, i.from)
    requires forall x, y :: 0 <= x < y < |files| ==> files[x].abs != files[y].abs
    ensures multiset(imports)[i] == ImportsIn(b, repo, root, files[k], i)
  {
    hide C.AllEdges, I.AllEdges, FirstRow, I.FirstIndexed;
    var fm, sm :| FileMapOf(b, repo, root, fm) && NameMapOf(b, repo, sm) &&
      calls == C.AllEdges(files, fm, sm, repo) && imports == I.AllEdges(files, fm, repo);
    FileMapIs(b, repo, root, fm, p, i.from);
    if i.path in files[k].deps { FirstIndexedIs(b, repo, root, fm, files[k].deps[i.path], i.to); }
    hide FileMapOf, NameMapOf;
    I.CountInBuild(files, fm, repo, k, i);
  }

  ghost predicate ImportSpared(a: DB, gone: set<Id>, i: I.ImportEdge) {
    i.from in a.files && i.from !in gone && i.to in a.files && i.to !in gone
  }

  lemma ImportSparedIs(a: DB, gone: set<Id>, i: I.ImportEdge)
    ensures var d := DeleteFiles(a, gone); ImportSpared(a, gone, i) <==> i.from in d.files && i.to in d.files
  {
    hide KeepCalls, KeepImports;
  }

  lemma PositionOf(c: Clone, u: Syntax) returns (k: nat)
    requires Loads(c) && c.pkgs.Some? && u in Files(c.pkgs.value)
    ensures k < |Files(c.pkgs.value)| && Files(c.pkgs.value)[k] == u
    ensures forall i, j :: 0 <= i < j < |Files(c.pkgs.value)| ==>
        Files(c.pkgs.value)[i].abs != Files(c.pkgs.value)[j].abs
  {
    hide Files;
    k :| 0 <= k < |Files(c.pkgs.value)| && Files(c.pkgs.value)[k] == u;
  }

  /** After a successful run an import edge is there as often as before, if the run spared it, and once more for every
      such import in its file that leads to its target. */
  lemma OneMoreImport(a: DB, b: DB, repo: Id, s: SuccessfulRun, p: Rel, u: Syntax, i: I.ImportEdge)
    requires RunOn(a, b, repo, s) && LoadedWith(b, repo, s.clone, p, u, i.from) && i.repo == repo
    ensures multiset(b.imports)[i] ==
            (if ImportSpared(a, s.gone, i) then multiset(a.imports)[i] else 0) + ImportsIn(b, repo, s.clone.root, u, i)
  {
    hide RunOn, Loads, Files, ImportsIn, Sound, Built, HasEdges, DeleteFiles, ImportSpared;
    var calls, imports := RunBuilds(a, b, repo, s);
    var k := PositionOf(s.clone, u);
    BuildYieldsImports(b, repo, s.clone.root, Files(s.clone.pkgs.value), calls, imports, k, p, i);
    EdgesAfterRun(a, b, s.gone, calls, imports, C.CallEdge(0, 0, 0, 0), i);
    ImportSparedIs(a, s.gone, i);
  }

  /** Every import of a package that has an indexed file has its edge after a successful run. */
  lemma ImportCoverage(a: DB, b: DB, repo: Id, s: SuccessfulRun, p: Rel, u: Syntax, f: Id, spec: ImportSpec, to: Id)
    requires RunOn(a, b, repo, s) && LoadedWith(b, repo, s.clone, p, u, f)
    requires spec in u.src.imports && LeadsTo(b, repo, s.clone.root, u, spec.path, to)
    ensures I.ImportEdge(repo, f, to, spec.path, spec.alias) in b.imports
  {
    var i := I.ImportEdge(repo, f, to, spec.path, spec.alias);
    OneMoreImport(a, b, repo, s, p, u, i);
    hide RunOn, LoadedWith, LeadsTo, ImportSpared;
    assert multiset(u.src.imports)[spec] > 0;
    assert multiset(b.imports)[i] > 0;
  }

  /** How often a build of the clone yields an import edge of the file at path p: none if it is not loaded. */
  ghost function ImportsAt(b: DB, repo: Id, c: Clone, p: Rel, i: I.ImportEdge): nat {
    if exists u :: LoadedWith(b, repo, c, p, u, i.from) then
      var u :| LoadedWith(b, repo, c, p, u, i.from);
      ImportsIn(b, repo, c.root, u, i)
    else 0
  }

  lemma NoImports(b: DB, repo: Id, c: Clone, calls: seq<C.CallEdge>, imports: seq<I.ImportEdge>, p: Rel,
                  i: I.ImportEdge)
    requires c.pkgs.Some? && Built(b, repo, c.root, Files(c.pkgs.value), calls, imports)
    requires FileAt(b, repo, p, i.from) && !exists u :: LoadedWith(b, repo, c, p, u, i.from)
    ensures multiset(imports)[i] == 0
  {
    hide C.AllEdges, I.AllEdges, Files;
    var files := Files(c.pkgs.value);
    var fm, sm :| FileMapOf(b, repo, c.root, fm) && NameMapOf(b, repo, sm) &&
      calls == C.AllEdges(files, fm, sm, repo) && imports == I.AllEdges(files, fm, repo);
    FileMapIs(b, repo, c.root, fm, p, i.from);
    hide NameMapOf, FileMapOf;
    forall k | 0 <= k < |files| ensures files[k].abs != Join(c.root, p) {
      assert files[k] in files && !LoadedWith(b, repo, c, p, files[k], i.from);
    }
    I.CountInFile(files, fm, repo, |files|, i);
  }

  /** How often a build yields an import edge, whatever file it is of. */
  lemma BuildYieldsImport(b: DB, repo: Id, c: Clone, calls: seq<C.CallEdge>, imports: seq<I.ImportEdge>, p: Rel,
                          i: I.ImportEdge)
    requires Loads(c) && c.pkgs.Some? && Built(b, repo, c.root, Files(c.pkgs.value), calls, imports)
    requires i.repo == repo && FileAt(b, repo, p, i.from)
    ensures multiset(imports)[i] == ImportsAt(b, repo, c, p, i)
  {
    hide Built, Loads, Files, ImportsIn;
    if exists u :: LoadedWith(b, repo, c, p, u, i.from) {
      var u :| LoadedWith(b, repo, c, p, u, i.from) && ImportsAt(b, repo, c, p, i) == ImportsIn(b, repo, c.root, u, i);
      var k := PositionOf(c, u);
      BuildYieldsImports(b, repo, c.root, Files(c.pkgs.value), calls, imports, k, p, i);
    } else {
      NoImports(b, repo, c, calls, imports, p, i);
    }
  }

  // ---------- When the tables are exactly the build ----------

  /** A run leaves exactly the build of its clone, in both tables, if and only if it spared no edge of the
      repository. */
  lemma ExactIffNothingSpared(a: DB, b: DB, repo: Id, s: SuccessfulRun, calls: seq<C.CallEdge>,
                              imports: seq<I.ImportEdge>)
    requires RunOn(a, b, repo, s) && HasEdges(DeleteFiles(a, s.gone), b, calls, imports)
    requires Built(b, repo, s.clone.root, Files(s.clone.pkgs.value), calls, imports)
    ensures (forall e: C.CallEdge :: e.repo == repo ==> multiset(b.calls)[e] == multiset(calls)[e]) <==>
            (forall e :: e in a.calls && e.repo == repo ==> !SparedBy(a, s.gone, e))
    ensures (forall i: I.ImportEdge :: i.repo == repo ==> multiset(b.imports)[i] == multiset(imports)[i]) <==>
            (forall i :: i in a.imports && i.repo == repo ==> !ImportSpared(a, s.gone, i))
  {
    hide HasEdges, DeleteFiles, Sound, SparedBy, ImportSpared, Built, Loads, Rebuilt;
    forall e: C.CallEdge
      ensures multiset(b.calls)[e] == multiset(calls)[e] + (if SparedBy(a, s.gone, e) then multiset(a.calls)[e] else 0)
    {
      EdgesAfterRun(a, b, s.gone, calls, imports, e, I.ImportEdge(0, 0, 0, "", None));
      SparedIs(a, s.gone, e);
    }
    forall i: I.ImportEdge
      ensures multiset(b.imports)[i] ==
              multiset(imports)[i] + (if ImportSpared(a, s.gone, i) then multiset(a.imports)[i] else 0)
    {
      EdgesAfterRun(a, b, s.gone, calls, imports, C.CallEdge(0, 0, 0, 0), i);
      ImportSparedIs(a, s.gone, i);
    }
    assert forall e :: e in a.calls <==> multiset(a.calls)[e] > 0;
    assert forall i :: i in a.imports <==> multiset(a.imports)[i] > 0;
  }

  lemma SparedIs(a: DB, gone: set<Id>, e: C.CallEdge)
    ensures var d := DeleteFiles(a, gone);
            SparedBy(a, gone, e) <==> e.file in d.files && e.caller in d.symbols && e.callee in d.symbols
  {
    hide KeepCalls, KeepImports;
  }

  function WithoutCalls(es: seq<C.CallEdge>, repo: Id): seq<C.CallEdge> {
    if es == [] then []
    else WithoutCalls(es[..|es| - 1], repo) + (if es[|es| - 1].repo == repo then [] else [es[|es| - 1]])
  }

  function WithoutImports(es: seq<I.ImportEdge>, repo: Id): seq<I.ImportEdge> {
    if es == [] then []
    else WithoutImports(es[..|es| - 1], repo) + (if es[|es| - 1].repo == repo then [] else [es[|es| - 1]])
  }

  lemma {:induction false} NoneOfRepo(es: seq<C.CallEdge>, imps: seq<I.ImportEdge>, repo: Id)
    ensures forall e :: e in WithoutCalls(es, repo) ==> e in es && e.repo != repo
    ensures forall i :: i in WithoutImports(imps, repo) ==> i in imps && i.repo != repo
    decreases |es| + |imps|
  {
    if es != [] { NoneOfRepo(es[..|es| - 1], imps, repo); }
    if imps != [] { NoneOfRepo(es, imps[..|imps| - 1], repo); }
  }

  /** Had the run first deleted the repository's edges, the edge tables would hold exactly the build. */
  lemma DeletingEdgesFirst(a: DB, b: DB, repo: Id, gone: set<Id>, calls: seq<C.CallEdge>, imports: seq<I.ImportEdge>,
                           e: C.CallEdge, i: I.ImportEdge)
    requires Sound(a) && e.repo == repo && i.repo == repo
    requires HasEdges(DeleteFiles(a.(calls := WithoutCalls(a.calls, repo), imports := WithoutImports(a.imports, repo)),
        gone), b, calls, imports)
    ensures multiset(b.calls)[e] == multiset(calls)[e]
    ensures multiset(b.imports)[i] == multiset(imports)[i]
  {
    var a' := a.(calls := WithoutCalls(a.calls, repo), imports := WithoutImports(a.imports, repo));
    NoneOfRepo(a.calls, a.imports, repo);
    assert e !in a'.calls && i !in a'.imports;
    hide WithoutCalls, WithoutImports, DeleteFiles, HasEdges;
    FewerEdgesSound(a, a'.calls, a'.imports);
    hide Sound;
    EdgesAfterRun(a', b, gone, calls, imports, e, i);
  }

  lemma FewerEdgesSound(a: DB, calls: seq<C.CallEdge>, imports: seq<I.ImportEdge>)
    requires Sound(a) && (forall e :: e in calls ==> e in a.calls) && (forall i :: i in imports ==> i in a.imports)
    ensures Sound(a.(calls := calls, imports := imports))
  {
    var d := a.(calls := calls, imports := imports);
    assert UniquePaths(d) && UniqueExternalIds(d) && FilesSound(d) && SymbolsSound(d) && ChunksSound(d);
    hide UniquePaths, UniqueExternalIds, FilesSound, SymbolsSound, ChunksSound;
    assert forall e :: CallSound(a, e) ==> CallSound(d, e);
    assert forall i :: ImportSound(a, i) ==> ImportSound(d, i);
  }
}
