/** Import edges: from each file to the first indexed file of every package it imports. */
module Imports {
  import opened Base
  import opened Paths
  import opened SourceTree

  /** An import_edge row; is_external is always false and the row's own id is never read. */
  datatype ImportEdge = ImportEdge(repo: Id, from: Id, to: Id, path: string, alias: Option<string>)

  function FirstIndexed(goFiles: seq<Abs>, fileMap: map<Abs, Id>): (r: Option<Id>)
    ensures r.Some? <==> exists k :: 0 <= k < |goFiles| && goFiles[k] in fileMap
    ensures r.Some? ==> r.value in fileMap.Values
  {
    if goFiles == [] then None
    else if goFiles[0] in fileMap then Some(fileMap[goFiles[0]])
    else
      assert forall k :: 0 < k < |goFiles| ==> goFiles[k] == goFiles[1..][k - 1];
      FirstIndexed(goFiles[1..], fileMap)
  }

  lemma {:induction false} FirstIndexedIs(goFiles: seq<Abs>, fileMap: map<Abs, Id>, k: nat)
    requires k < |goFiles| && goFiles[k] in fileMap && forall j :: 0 <= j < k ==> goFiles[j] !in fileMap
    ensures FirstIndexed(goFiles, fileMap) == Some(fileMap[goFiles[k]])
  {
    if k > 0 {
      assert goFiles[1..][k - 1] == goFiles[k];
      FirstIndexedIs(goFiles[1..], fileMap, k - 1);
    }
  }

  /** Where an import of the path leads in file u: the first indexed file of the package it stands for. */
  function TargetOf(u: Syntax, path: string, fileMap: map<Abs, Id>): Option<Id> {
    if path in u.deps then FirstIndexed(u.deps[path], fileMap) else None
  }

  function SpecEdges(spec: ImportSpec, u: Syntax, fileMap: map<Abs, Id>, repo: Id): seq<ImportEdge>
    requires u.abs in fileMap
  {
    match TargetOf(u, spec.path, fileMap)
    case Some(to) => [ImportEdge(repo, fileMap[u.abs], to, spec.path, spec.alias)]
    case None => []
  }

  function SpecsEdges(specs: seq<ImportSpec>, u: Syntax, fileMap: map<Abs, Id>, repo: Id): seq<ImportEdge>
    requires u.abs in fileMap
  {
    if specs == [] then []
    else SpecsEdges(specs[..|specs| - 1], u, fileMap, repo) + SpecEdges(specs[|specs| - 1], u, fileMap, repo)
  }

  function FileEdges(u: Syntax, fileMap: map<Abs, Id>, repo: Id): seq<ImportEdge> {
    if u.abs in fileMap then SpecsEdges(u.src.imports, u, fileMap, repo) else []
  }

  function AllEdges(files: seq<Syntax>, fileMap: map<Abs, Id>, repo: Id): seq<ImportEdge> {
    if files == [] then []
    else AllEdges(files[..|files| - 1], fileMap, repo) + FileEdges(files[|files| - 1], fileMap, repo)
  }

  method FindTarget(goFiles: seq<Abs>, fileMap: map<Abs, Id>) returns (to: Option<Id>)
    ensures to == FirstIndexed(goFiles, fileMap)
  {
    to := None;
    for k := 0 to |goFiles|
      invariant FirstIndexed(goFiles, fileMap) == FirstIndexed(goFiles[k..], fileMap)
    {
      assert goFiles[k..][1..] == goFiles[k + 1..];
      if goFiles[k] in fileMap {
        return Some(fileMap[goFiles[k]]);
      }
    }
  }

  method FileImports(repo: Id, u: Syntax, fileMap: map<Abs, Id>) returns (edges: seq<ImportEdge>)
    requires u.abs in fileMap
    ensures edges == SpecsEdges(u.src.imports, u, fileMap, repo)
  {
    edges := [];
    var specs := u.src.imports;
    for i := 0 to |specs|
      invariant edges == SpecsEdges(specs[..i], u, fileMap, repo)
    {
      TakeNext(specs, i);
      if specs[i].path !in u.deps { continue; }
      var to := FindTarget(u.deps[specs[i].path], fileMap);
      if to.None? { continue; }
      edges := edges + [ImportEdge(repo, fileMap[u.abs], to.value, specs[i].path, specs[i].alias)];
    }
    assert specs[..|specs|] == specs;
  }

  lemma NextFile(files: seq<Syntax>, k: nat, fileMap: map<Abs, Id>, repo: Id)
    requires k < |files|
    ensures AllEdges(files[..k + 1], fileMap, repo) == AllEdges(files[..k], fileMap, repo) + FileEdges(files[k],
        fileMap, repo)
  {
    TakeNext(files, k);
  }

  lemma FileEdgesIs(u: Syntax, fileMap: map<Abs, Id>, repo: Id)
    ensures FileEdges(u, fileMap, repo) == if u.abs in fileMap then SpecsEdges(u.src.imports, u, fileMap, repo) else []
  {
  }

  lemma NothingBuilt(all: seq<Syntax>, fileMap: map<Abs, Id>, repo: Id)
    ensures AllEdges(all[..0], fileMap, repo) == []
  {
  }

  /** The files of one package, which stand at position from of the whole list. */
  method BuildPackage(repo: Id, fileMap: map<Abs, Id>, pkg: Package, sofar: seq<ImportEdge>,
                      ghost all: seq<Syntax>, ghost from: nat)
    returns (edges: seq<ImportEdge>)
    requires PackageIn(pkg, all, from) && from + |pkg.syntax| <= |all|
    requires sofar == AllEdges(all[..from], fileMap, repo)
    ensures edges == AllEdges(all[..from + |pkg.syntax|], fileMap, repo)
  {
    hide *;
    edges := sofar;
    for j := 0 to |pkg.syntax|
      invariant edges == AllEdges(all[..from + j], fileMap, repo)
    {
      var f := pkg.syntax[j];
      SyntaxAt(pkg, all, from, j);
      NextFile(all, from + j, fileMap, repo);
      FileEdgesIs(f, fileMap, repo);
      if f.abs in fileMap {
        var more := FileImports(repo, f, fileMap);
        edges := edges + more;
      }
    }
  }

  method Build(repo: Id, fileMap: map<Abs, Id>, pkgs: seq<Package>) returns (edges: seq<ImportEdge>)
    ensures edges == AllEdges(Files(pkgs), fileMap, repo)
  {
    hide *;
    edges := [];
    ghost var all, n: nat := Files(pkgs), 0;
    NothingBuilt(all, fileMap, repo);
    FilesBegin(pkgs);
    for i := 0 to |pkgs|
      invariant n == |Files(pkgs[..i])| && n <= |all|
      invariant edges == AllEdges(all[..n], fileMap, repo)
    {
      PackageAt(pkgs, i);
      PackageBound(pkgs[i], all, n);
      edges := BuildPackage(repo, fileMap, pkgs[i], edges, all, n);
      n := n + |pkgs[i].syntax|;
    }
    assert all[..n] == all;
  }

  lemma {:induction false} SpecsEdgesInMap(specs: seq<ImportSpec>, u: Syntax, fileMap: map<Abs, Id>, repo: Id)
    requires u.abs in fileMap
    ensures forall e :: e in SpecsEdges(specs, u, fileMap, repo) ==>
              e.repo == repo && e.from == fileMap[u.abs] && e.to in fileMap.Values
  {
    if specs != [] {
      SpecsEdgesInMap(specs[..|specs| - 1], u, fileMap, repo);
    }
  }

  /** Both ends of every import edge are files of the map: an import that reaches no indexed file gives none. */
  lemma {:induction false} AllEdgesInMap(files: seq<Syntax>, fileMap: map<Abs, Id>, repo: Id)
    ensures forall e :: e in AllEdges(files, fileMap, repo) ==>
              e.repo == repo && e.from in fileMap.Values && e.to in fileMap.Values
  {
    if files != [] {
      var u := files[|files| - 1];
      AllEdgesInMap(files[..|files| - 1], fileMap, repo);
      if u.abs in fileMap {
        SpecsEdgesInMap(u.src.imports, u, fileMap, repo);
      }
    }
  }

  // ---------- How often an edge occurs ----------

  lemma {:induction false} CountSpecs(specs: seq<ImportSpec>, u: Syntax, fileMap: map<Abs, Id>, repo: Id, e: ImportEdge)
    requires u.abs in fileMap && e.repo == repo && e.from == fileMap[u.abs]
    ensures multiset(SpecsEdges(specs, u, fileMap, repo))[e] ==
            if TargetOf(u, e.path, fileMap) == Some(e.to) then multiset(specs)[ImportSpec(e.path, e.alias)] else 0
  {
    if specs != [] {
      var k := |specs| - 1;
      CountSpecs(specs[..k], u, fileMap, repo, e);
      CountLast(specs, ImportSpec(e.path, e.alias));
      var more := SpecEdges(specs[k], u, fileMap, repo);
      assert SpecsEdges(specs, u, fileMap, repo) == SpecsEdges(specs[..k], u, fileMap, repo) + more;
      assert multiset(more)[e] ==
             if specs[k] == ImportSpec(e.path, e.alias) && TargetOf(u, e.path, fileMap) == Some(e.to) then 1 else 0;
    }
  }

  /** An edge of another file is not among those of this one. */
  lemma NotInFile(u: Syntax, fileMap: map<Abs, Id>, repo: Id, e: ImportEdge)
    requires u.abs in fileMap ==> fileMap[u.abs] != e.from
    ensures multiset(FileEdges(u, fileMap, repo))[e] == 0
  {
    if u.abs in fileMap { SpecsEdgesInMap(u.src.imports, u, fileMap, repo); }
    hide SpecsEdges;
    assert e !in FileEdges(u, fileMap, repo);
  }

  /** No file but the one at position k is the given file. */
  ghost predicate OnlyAt(files: seq<Syntax>, fileMap: map<Abs, Id>, file: Id, k: nat) {
    forall j :: 0 <= j < |files| && j != k && files[j].abs in fileMap ==> fileMap[files[j].abs] != file
  }

  lemma {:induction false} CountInFile(files: seq<Syntax>, fileMap: map<Abs, Id>, repo: Id, k: nat, e: ImportEdge)
    requires OnlyAt(files, fileMap, e.from, k)
    ensures multiset(AllEdges(files, fileMap, repo))[e] ==
            if k < |files| then multiset(FileEdges(files[k], fileMap, repo))[e] else 0
  {
    if files != [] {
      var n := |files| - 1;
      assert files[..n + 1] == files;
      NextFile(files, n, fileMap, repo);
      if k != n { NotInFile(files[n], fileMap, repo, e); }
      hide FileEdges, AllEdges;
      CountInFile(files[..n], fileMap, repo, k, e);
    }
  }

  /** How often a whole-repository build yields an import edge: once for each import spec of its file with that path
      and alias, if the path leads to the file the edge points at. */
  lemma CountInBuild(files: seq<Syntax>, fileMap: map<Abs, Id>, repo: Id, k: nat, e: ImportEdge)
    requires k < |files| && files[k].abs in fileMap && e.repo == repo && e.from == fileMap[files[k].abs]
    requires forall i, j :: 0 <= i < j < |files| ==> files[i].abs != files[j].abs
    requires forall x, y :: x in fileMap && y in fileMap && fileMap[x] == fileMap[y] ==> x == y
    ensures multiset(AllEdges(files, fileMap, repo))[e] ==
            if TargetOf(files[k], e.path, fileMap) == Some(e.to)
            then multiset(files[k].src.imports)[ImportSpec(e.path, e.alias)] else 0
  {
    CountInFile(files, fileMap, repo, k, e);
    hide AllEdges, SpecsEdges, TargetOf;
    CountSpecs(files[k].src.imports, files[k], fileMap, repo, e);
  }
}
