/** Inserting the file rows of a run. */
module FileRows {
  import opened Base
  import opened Paths
  import opened SourceTree
  import opened Symbols
  import opened Tables
  import opened Backends
  import opened Index

  datatype Failure = StoreDown | ConstraintBroken | LoadFailed | NoPackages | ParseFailed

  datatype Outcome = Success | Failed(why: Failure)

  function FromCall(r: CallResult): (out: Outcome)
    ensures r.Done? <==> out == Success
    ensures r.Unavailable? <==> out == Failed(StoreDown)
    ensures r.Violation? <==> out == Failed(ConstraintBroken)
  {
    match r
    case Done => Success
    case Unavailable => Failed(StoreDown)
    case Violation => Failed(ConstraintBroken)
  }

  predicate Selected(only: Option<set<Abs>>, abs: Abs) { only.None? || abs in only.value }

  /** rows' is rows plus one row for every entry of m, with an id drawn from lo on. */
  ghost predicate NewFiles(rows: map<Id, FileRow>, rows': map<Id, FileRow>, m: map<Abs, Id>, repo: Id, root: Abs,
                           lo: Id) {
    && Injective(m)
    && (forall x :: x in m ==>
          root < x && m[x] >= lo && m[x] in rows' && rows'[m[x]] == FileRow(repo, RelPath(x[|root|..])))
    && (forall f :: f in rows ==> f in rows' && rows'[f] == rows[f])
    && (forall f :: f in rows' && f !in rows ==> f in m.Values)
  }

  /** The state after some files were inserted: nothing but file rows (and worker columns) differs from a. */
  ghost predicate FilesAdded(a: DB, b: DB, t: Writes, m: map<Abs, Id>, repo: Id, root: Abs, lo: Id, hi: Id) {
    && Sound(b) && Below(b, hi) && lo <= hi && repo in b.repos
    && Drift(a.(files := b.files), b, t)
    && NewFiles(a.files, b.files, m, repo, root, lo)
  }

  ghost predicate OnlyThese(m: map<Abs, Id>, files: seq<Syntax>, only: Option<set<Abs>>) {
    forall x :: x in m ==> IsLoaded(files, x) && Selected(only, x)
  }

  ghost predicate AllThese(m: map<Abs, Id>, files: seq<Syntax>, only: Option<set<Abs>>) {
    forall k :: 0 <= k < |files| && Selected(only, files[k].abs) ==> files[k].abs in m
  }

  ghost predicate NoRowYet(a: DB, repo: Id, root: Abs, files: seq<Syntax>, only: Option<set<Abs>>) {
    forall k :: 0 <= k < |files| && Selected(only, files[k].abs) ==> Absent(a, repo, RelOf(root, files[k]))
  }

  /** A file row for a path not yet present breaks no constraint. */
  lemma CanAdd(a: DB, b: DB, t: Writes, m: map<Abs, Id>, repo: Id, root: Abs, lo: Id, hi: Id, abs: Abs)
    requires FilesAdded(a, b, t, m, repo, root, lo, hi)
    requires root < abs && abs !in m && Absent(a, repo, abs[|root|..])
    ensures CanInsertFile(b, hi, FileRow(repo, RelPath(abs[|root|..])))
  {
    forall f | f in b.files ensures b.files[f] != FileRow(repo, RelPath(abs[|root|..])) {
      if f !in a.files {
        var x :| x in m && m[x] == f;
        assert x == root + x[|root|..] && abs == root + abs[|root|..];
      }
    }
  }

  lemma AddUnique(b: DB, id: Id, row: FileRow)
    requires UniquePaths(b) && CanInsertFile(b, id, row)
    ensures UniquePaths(b.(files := b.files[id := row]))
  {
    assert forall f :: f in b.files ==> b.files[f] in b.files.Values;
  }

  lemma AddRowSound(b: DB, id: Id, row: FileRow)
    requires Sound(b) && CanInsertFile(b, id, row)
    ensures Sound(b.(files := b.files[id := row]))
  {
    AddUnique(b, id, row);
    hide UniquePaths;
  }

  lemma NewFilesStep(rows: map<Id, FileRow>, rows': map<Id, FileRow>, m: map<Abs, Id>, repo: Id, root: Abs, lo: Id,
                     abs: Abs, id: Id, row: FileRow)
    requires NewFiles(rows, rows', m, repo, root, lo)
    requires root < abs && abs !in m && id >= lo && id !in rows' && row == FileRow(repo, RelPath(abs[|root|..]))
    ensures NewFiles(rows, rows'[id := row], m[abs := id], repo, root, lo)
  {
    StillInjective(rows, rows', m, repo, root, lo, abs, id);
    ValuesGrow(m, abs, id);
    RowsNext(rows, rows', m, repo, root, lo, id, row);
    hide Injective;
    EntriesNext(rows, rows', m, repo, root, lo, abs, id, row);
    hide NewFiles;
    NewFilesWhen(rows, rows'[id := row], m[abs := id], repo, root, lo);
  }

  lemma NewFilesWhen(rows: map<Id, FileRow>, rows': map<Id, FileRow>, m: map<Abs, Id>, repo: Id, root: Abs, lo: Id)
    requires Injective(m)
    requires forall x :: x in m ==>
        root < x && m[x] >= lo && m[x] in rows' && rows'[m[x]] == FileRow(repo, RelPath(x[|root|..]))
    requires forall f :: f in rows ==> f in rows' && rows'[f] == rows[f]
    requires forall f :: f in rows' && f !in rows ==> f in m.Values
    ensures NewFiles(rows, rows', m, repo, root, lo)
  {
    hide Injective;
  }

  lemma RowsNext(rows: map<Id, FileRow>, rows': map<Id, FileRow>, m: map<Abs, Id>, repo: Id, root: Abs, lo: Id,
                 id: Id, row: FileRow)
    requires NewFiles(rows, rows', m, repo, root, lo) && id !in rows'
    ensures forall f :: f in rows ==> f in rows'[id := row] && rows'[id := row][f] == rows[f]
    ensures forall f :: f in rows'[id := row] && f !in rows ==> f in m.Values + {id}
  {
    hide Injective;
  }

  lemma EntriesNext(rows: map<Id, FileRow>, rows': map<Id, FileRow>, m: map<Abs, Id>, repo: Id, root: Abs, lo: Id,
                    abs: Abs, id: Id, row: FileRow)
    requires NewFiles(rows, rows', m, repo, root, lo)
    requires root < abs && abs !in m && id >= lo && id !in rows' && row == FileRow(repo, RelPath(abs[|root|..]))
    ensures forall x :: x in m[abs := id] ==>
        && root < x && m[abs := id][x] >= lo && m[abs := id][x] in rows'[id := row]
        && rows'[id := row][m[abs := id][x]] == FileRow(repo, RelPath(x[|root|..]))
  {
    hide Injective;
  }

  lemma ValuesGrow(m: map<Abs, Id>, abs: Abs, id: Id)
    requires abs !in m
    ensures m[abs := id].Values == m.Values + {id}
  {
    var m' := m[abs := id];
    forall f ensures f in m'.Values <==> f in m.Values + {id} {
      if f in m.Values {
        var x :| x in m && m[x] == f;
        assert m'[x] == f;
      }
      if f == id { assert m'[abs] == f; }
    }
  }

  lemma StillInjective(rows: map<Id, FileRow>, rows': map<Id, FileRow>, m: map<Abs, Id>, repo: Id, root: Abs, lo: Id,
                       abs: Abs, id: Id)
    requires NewFiles(rows, rows', m, repo, root, lo) && id !in rows'
    ensures Injective(m[abs := id])
  {
    forall x | x in m ensures m[x] != id {
    }
  }

  lemma FilesDrift(a: DB, b: DB, b': DB, t: Writes, t': Writes, files: map<Id, FileRow>)
    requires Drift(a.(files := b.files), b, t) && Drift(b.(files := files), b', t') && t <= t'
    ensures Drift(a.(files := b'.files), b', t')
  {
  }

  lemma AddedStep(a: DB, b: DB, b': DB, t: Writes, t': Writes, m: map<Abs, Id>, repo: Id, root: Abs, lo: Id, hi: Id,
                  abs: Abs, row: FileRow)
    requires FilesAdded(a, b, t, m, repo, root, lo, hi) && t <= t'
    requires root < abs && abs !in m && Absent(a, repo, abs[|root|..]) && row == FileRow(repo, RelPath(abs[|root|..]))
    requires Drift(b.(files := b.files[hi := row]), b', t')
    ensures FilesAdded(a, b', t', m[abs := hi], repo, root, lo, hi + 1)
  {
    var d := b.(files := b.files[hi := row]);
    hide *;
    AddedFacts(a, b, t, m, repo, root, lo, hi);
    CanAdd(a, b, t, m, repo, root, lo, hi, abs);
    AddRowSound(b, hi, row);
    AddRowBelow(b, hi, row);
    DriftKeepsSound(d, b', t');
    DriftKeys(d, b', t');
    FilesDrift(a, b, b', t, t', d.files);
    NewFilesStep(a.files, b.files, m, repo, root, lo, abs, hi, row);
    AddedWhen(a, b', t', m[abs := hi], repo, root, lo, hi + 1);
  }

  lemma AddedFacts(a: DB, b: DB, t: Writes, m: map<Abs, Id>, repo: Id, root: Abs, lo: Id, hi: Id)
    requires FilesAdded(a, b, t, m, repo, root, lo, hi)
    ensures Sound(b) && Below(b, hi) && lo <= hi && repo in b.repos && hi !in b.files
    ensures Drift(a.(files := b.files), b, t) && NewFiles(a.files, b.files, m, repo, root, lo)
  {
    hide Sound, Drift, NewFiles;
  }

  lemma AddedWhen(a: DB, b: DB, t: Writes, m: map<Abs, Id>, repo: Id, root: Abs, lo: Id, hi: Id)
    requires Sound(b) && Below(b, hi) && lo <= hi && repo in b.repos
    requires Drift(a.(files := b.files), b, t) && NewFiles(a.files, b.files, m, repo, root, lo)
    ensures FilesAdded(a, b, t, m, repo, root, lo, hi)
  {
    hide Sound, Below, Drift, NewFiles;
  }

  lemma AddRowBelow(b: DB, hi: Id, row: FileRow)
    requires Below(b, hi)
    ensures Below(b.(files := b.files[hi := row]), hi + 1)
  {
  }

  lemma DriftKeys(a: DB, b: DB, t: Writes)
    requires Drift(a, b, t)
    ensures a.repos == b.repos && a.files == b.files && a.symbols == b.symbols && a.chunks.Keys == b.chunks.Keys
    ensures forall n :: Below(a, n) ==> Below(b, n)
  {
  }

  lemma AddedDrift(a: DB, b: DB, b': DB, t: Writes, t': Writes, m: map<Abs, Id>, repo: Id, root: Abs, lo: Id, hi: Id,
                   hi': Id)
    requires FilesAdded(a, b, t, m, repo, root, lo, hi) && t <= t' && Drift(b, b', t') && hi <= hi'
    ensures FilesAdded(a, b', t', m, repo, root, lo, hi')
  {
    DriftKeepsSound(b, b', t');
    DriftKeys(b, b', t');
    DriftTrans(a.(files := b.files), b, b', t, t');
    hide Sound, Drift, NewFiles;
  }

  lemma ThoseNext(m: map<Abs, Id>, m': map<Abs, Id>, all: seq<Syntax>, n: nat, only: Option<set<Abs>>)
    requires n < |all| && OnlyThese(m, all, only) && AllThese(m, all[..n], only)
    requires m.Keys <= m'.Keys && m'.Keys <= m.Keys + (if Selected(only, all[n].abs) then {all[n].abs} else {})
    ensures OnlyThese(m', all, only)
    ensures (Selected(only, all[n].abs) ==> all[n].abs in m') ==> AllThese(m', all[..n + 1], only)
  {
    forall x | x in m' ensures IsLoaded(all, x) && Selected(only, x) {
      if x !in m { assert all[n].abs == x; }
    }
    assert forall k :: 0 <= k < n ==> all[..n][k] == all[..n + 1][k];
  }

  method AddFile(b: Backend, ids: IdSource, repo: Id, root: Abs, abs: Abs, fileMap: map<Abs, Id>, ghost a: DB,
                 ghost lo: Id)
    returns (out: Outcome, fileMap': map<Abs, Id>)
    requires FilesAdded(a, b.db, b.written, fileMap, repo, root, lo, ids.next)
    requires root < abs && abs !in fileMap && Absent(a, repo, abs[|root|..])
    modifies b, ids
    ensures FilesAdded(a, b.db, b.written, fileMap', repo, root, lo, ids.next)
    ensures b.vectors == old(b.vectors) && b.published == old(b.published) && b.deletes == old(b.deletes) &&
        old(b.written) <= b.written && old(ids.next) <= ids.next
    ensures out == Success || (out == Failed(StoreDown) && b.budget == 0)
    ensures fileMap'.Keys == if out.Success? then fileMap.Keys + {abs} else fileMap.Keys
  {
    hide *;
    StoredPathIs(root, abs);
    var row := FileRow(repo, RelPath(RelTo(root, abs)));
    CanAdd(a, b.db, b.written, fileMap, repo, root, lo, ids.next, abs);
    ghost var before, t, hi := b.db, b.written, ids.next;
    var id := ids.Generate();
    var r := b.InsertFile(id, row);
    out := FromCall(r);
    if r.Done? {
      AddedStep(a, before, b.db, t, b.written, fileMap, repo, root, lo, hi, abs, row);
      fileMap' := fileMap[abs := id];
    } else {
      AddedDrift(a, before, b.db, t, b.written, fileMap, repo, root, lo, hi, ids.next);
      fileMap' := fileMap;
    }
  }

  lemma StoredPathIs(root: Abs, abs: Abs)
    requires root < abs
    ensures RelTo(root, abs) == abs[|root|..]
  {
    RelToUndoesJoin(root, abs[|root|..]);
    assert Join(root, abs[|root|..]) == abs;
  }

  lemma LoadedHere(c: Clone, files: seq<Syntax>, k: nat)
    requires LoadsFiles(files, c.root, c.tree) && k < |files|
    ensures c.root < files[k].abs && RelOf(c.root, files[k]) == files[k].abs[|c.root|..]
    ensures IsLoaded(files, files[k].abs)
  {
    assert LoadedFrom(files[k], c.root, c.tree);
    assert IsGo(RelOf(c.root, files[k]));
  }

  lemma NoRowHere(a: DB, repo: Id, root: Abs, files: seq<Syntax>, only: Option<set<Abs>>, k: nat)
    requires NoRowYet(a, repo, root, files, only) && k < |files| && Selected(only, files[k].abs)
    ensures Absent(a, repo, RelOf(root, files[k]))
  {
  }

  /** One loaded file: skipped when it already has a row in this run or is not selected. */
  method ProcessFile(b: Backend, ids: IdSource, repo: Id, root: Abs, abs: Abs, only: Option<set<Abs>>,
                     fileMap: map<Abs, Id>,
                     ghost a: DB, ghost lo: Id, ghost c: Clone, ghost all: seq<Syntax>, ghost n: nat)
    returns (out: Outcome, fileMap': map<Abs, Id>)
    requires FilesAdded(a, b.db, b.written, fileMap, repo, root, lo, ids.next)
    requires LoadsFiles(all, c.root, c.tree) && root == c.root && n < |all| && all[n].abs == abs
    requires NoRowYet(a, repo, root, all, only)
    requires OnlyThese(fileMap, all, only) && AllThese(fileMap, all[..n], only)
    modifies b, ids
    ensures FilesAdded(a, b.db, b.written, fileMap', repo, root, lo, ids.next)
    ensures b.vectors == old(b.vectors) && b.published == old(b.published) && b.deletes == old(b.deletes) &&
        old(b.written) <= b.written && old(ids.next) <= ids.next
    ensures out == Success || (out == Failed(StoreDown) && b.budget == 0)
    ensures OnlyThese(fileMap', all, only)
    ensures out.Success? ==> AllThese(fileMap', all[..n + 1], only)
  {
    hide *;
    LoadedHere(c, all, n);
    ThoseNext(fileMap, fileMap, all, n, only);
    if abs in fileMap { return Success, fileMap; }
    if !Selected(only, abs) { return Success, fileMap; }
    NoRowHere(a, repo, root, all, only, n);
    out, fileMap' := AddFile(b, ids, repo, root, abs, fileMap, a, lo);
    ThoseNext(fileMap, fileMap', all, n, only);
  }

  method ProcessPackage(b: Backend, ids: IdSource, repo: Id, root: Abs, pkg: Package, only: Option<set<Abs>>,
                        fileMap0: map<Abs, Id>,
                        ghost a: DB, ghost lo: Id, ghost c: Clone, ghost all: seq<Syntax>, ghost from: nat)
    returns (out: Outcome, fileMap: map<Abs, Id>)
    requires FilesAdded(a, b.db, b.written, fileMap0, repo, root, lo, ids.next)
    requires LoadsFiles(all, c.root, c.tree) && root == c.root && NoRowYet(a, repo, root, all, only)
    requires PackageIn(pkg, all, from) && from + |pkg.syntax| <= |all|
    requires OnlyThese(fileMap0, all, only) && AllThese(fileMap0, all[..from], only)
    modifies b, ids
    ensures FilesAdded(a, b.db, b.written, fileMap, repo, root, lo, ids.next)
    ensures b.vectors == old(b.vectors) && b.published == old(b.published) && b.deletes == old(b.deletes)
    ensures old(b.written) <= b.written && old(ids.next) <= ids.next
    ensures out == Success || (out == Failed(StoreDown) && b.budget == 0)
    ensures OnlyThese(fileMap, all, only)
    ensures out.Success? ==> AllThese(fileMap, all[..from + |pkg.syntax|], only)
  {
    hide *;
    fileMap, out := fileMap0, Success;
    for j := 0 to |pkg.syntax|
      invariant out == Success
      invariant b.vectors == old(b.vectors) && b.published == old(b.published) && b.deletes == old(b.deletes)
      invariant old(b.written) <= b.written && old(ids.next) <= ids.next
      invariant FilesAdded(a, b.db, b.written, fileMap, repo, root, lo, ids.next)
      invariant OnlyThese(fileMap, all, only) && AllThese(fileMap, all[..from + j], only)
    {
      SyntaxAt(pkg, all, from, j);
      out, fileMap := ProcessFile(b, ids, repo, root, pkg.syntax[j].abs, only, fileMap, a, lo, c, all, from + j);
      if !out.Success? { return; }
    }
  }

  lemma NothingAdded(a: DB, t: Writes, repo: Id, root: Abs, hi: Id, all: seq<Syntax>, only: Option<set<Abs>>)
    requires Sound(a) && Below(a, hi) && repo in a.repos
    ensures FilesAdded(a, a, t, map[], repo, root, hi, hi)
    ensures OnlyThese(map[], all, only) && AllThese(map[], all[..0], only)
    ensures |Files([])| == 0
  {
  }

  /** Derives a file row for every loaded file (when only is given, for those files alone) and inserts it. */
  method ProcessFiles(b: Backend, ids: IdSource, repo: Id, ghost c: Clone, root: Abs, pkgs: seq<Package>,
                      only: Option<set<Abs>>)
    returns (out: Outcome, fileMap: map<Abs, Id>)
    requires LoadsFiles(Files(pkgs), c.root, c.tree) && root == c.root
    requires Sound(b.db) && Below(b.db, ids.next) && repo in b.db.repos
    requires NoRowYet(b.db, repo, c.root, Files(pkgs), only)
    modifies b, ids
    ensures FilesAdded(old(b.db), b.db, b.written, fileMap, repo, c.root, old(ids.next), ids.next)
    ensures b.vectors == old(b.vectors) && b.published == old(b.published) && b.deletes == old(b.deletes) &&
        old(b.written) <= b.written && old(ids.next) <= ids.next
    ensures out == Success || (out == Failed(StoreDown) && b.budget == 0)
    ensures OnlyThese(fileMap, Files(pkgs), only)
    ensures out.Success? ==> AllThese(fileMap, Files(pkgs), only)
  {
    hide *;
    fileMap, out := map[], Success;
    ghost var all, n: nat := Files(pkgs), 0;
    NothingAdded(b.db, b.written, repo, root, ids.next, all, only);
    FilesBegin(pkgs);
    for i := 0 to |pkgs|
      invariant n == |Files(pkgs[..i])| && n <= |all| && out == Success
      invariant b.vectors == old(b.vectors) && b.published == old(b.published) && b.deletes == old(b.deletes)
      invariant old(b.written) <= b.written && old(ids.next) <= ids.next
      invariant FilesAdded(old(b.db), b.db, b.written, fileMap, repo, root, old(ids.next), ids.next)
      invariant OnlyThese(fileMap, all, only) && AllThese(fileMap, all[..n], only)
    {
      PackageAt(pkgs, i);
      PackageBound(pkgs[i], all, n);
      out, fileMap := ProcessPackage(b, ids, repo, root, pkgs[i], only, fileMap, old(b.db), old(ids.next), c, all, n);
      if !out.Success? { return; }
      n := n + |pkgs[i].syntax|;
    }
    assert all[..n] == all;
  }
}
