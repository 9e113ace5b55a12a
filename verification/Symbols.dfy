/** The symbols of a file, in pre-order, and the map from names to symbols. */
module Symbols {
  import opened Base
  import opened Paths
  import opened SourceTree

  datatype SymbolKind = FunctionSym | TypeSym | InterfaceSym | VariableSym | ConstantSym

  /** A symbol without its ids; detail holds signature, receiver, visibility and columns. */
  datatype SymbolData = SymbolData(fqName: string, kind: SymbolKind, startLine: int, endLine: int, detail: string)

  datatype Symbol = Symbol(id: Id, file: Id, repo: Id, data: SymbolData)

  /** What the walk carries from node to node: the objects already recorded, and the token of the
      last general declaration entered. */
  datatype Scan = Scan(seen: set<nat>, tok: Tok)

  function Mark(st: Scan, d: Def): Scan { st.(seen := st.seen + {d.obj}) }

  predicate Fresh(st: Scan, def: Option<Def>) { def.Some? && def.value.obj !in st.seen }

  function ValueKind(tok: Tok): SymbolKind { if tok == Const then ConstantSym else VariableSym }

  function NamesAfter(st: Scan, names: seq<Name>): Scan {
    if names == [] then st
    else
      var before := NamesAfter(st, names[..|names| - 1]);
      var n := names[|names| - 1];
      if !n.blank && Fresh(before, n.def) then Mark(before, n.def.value) else before
  }

  function NamesNew(st: Scan, names: seq<Name>, info: Info): seq<SymbolData> {
    if names == [] then []
    else
      var before := NamesAfter(st, names[..|names| - 1]);
      var n := names[|names| - 1];
      NamesNew(st, names[..|names| - 1], info) +
      (if !n.blank && Fresh(before, n.def) && n.def.value.hasPkg
       then [SymbolData(n.def.value.fqName, ValueKind(st.tok), info.startLine, info.endLine, n.detail)]
       else [])
  }

  function After(st: Scan, n: Node): Scan {
    match n.kind
    case GenDecl(tok) => st.(tok := tok)
    case FuncDecl(def, _) => if Fresh(st, def) then Mark(st, def.value) else st
    case TypeSpec(def, _, _) => if Fresh(st, def) then Mark(st, def.value) else st
    case ValueSpec(names) => NamesAfter(st, names)
    case _ => st
  }

  function New(st: Scan, n: Node): seq<SymbolData> {
    match n.kind
    case FuncDecl(def, detail) =>
      if Fresh(st, def) && def.value.isFunc
      then [SymbolData(def.value.fqName, FunctionSym, n.info.startLine, n.info.endLine, detail)] else []
    case TypeSpec(def, shape, detail) =>
      if Fresh(st, def) && def.value.hasPkg
      then [SymbolData(def.value.fqName, if shape.InterfaceType? then InterfaceSym else TypeSym,
                       n.info.startLine, n.info.endLine, detail)] else []
    case ValueSpec(names) => NamesNew(st, names, n.info)
    case _ => []
  }

  function State(st: Scan, ns: seq<Node>): Scan {
    if ns == [] then st else After(State(st, ns[..|ns| - 1]), ns[|ns| - 1])
  }

  function Out(st: Scan, ns: seq<Node>): seq<SymbolData> {
    if ns == [] then []
    else Out(st, ns[..|ns| - 1]) + New(State(st, ns[..|ns| - 1]), ns[|ns| - 1])
  }

  /** The symbols a file gives, as a function of that file alone. */
  function SymbolsOf(src: SourceFile): seq<SymbolData> {
    Out(Scan({}, NoTok), PreOrder(src.ast))
  }

  // ---------- The walk over one file does not depend on the files before it ----------

  lemma {:induction false} NamesLocal(st: Scan, x: set<nat>, names: seq<Name>, info: Info)
    requires x !! NameObjects(names)
    ensures NamesAfter(Scan(st.seen + x, st.tok), names) ==
            Scan(NamesAfter(st, names).seen + x, NamesAfter(st, names).tok)
    ensures NamesNew(Scan(st.seen + x, st.tok), names, info) == NamesNew(st, names, info)
    ensures NamesAfter(st, names).seen <= st.seen + NameObjects(names)
  {
    if names != [] {
      var k := |names| - 1;
      assert NameObjects(names[..k]) <= NameObjects(names);
      NamesLocal(st, x, names[..k], info);
      var before := NamesAfter(st, names[..k]);
      if names[k].def.Some? {
        var o := names[k].def.value.obj;
        assert o in NameObjects(names);
        assert before.seen + x + {o} == before.seen + {o} + x;
      }
    }
  }

  lemma VisitLocal(st: Scan, x: set<nat>, n: Node)
    requires x !! NodeObjects(n)
    ensures After(Scan(st.seen + x, st.tok), n) == Scan(After(st, n).seen + x, After(st, n).tok)
    ensures New(Scan(st.seen + x, st.tok), n) == New(st, n)
    ensures After(st, n).seen <= st.seen + NodeObjects(n)
  {
    match n.kind
    case ValueSpec(names) => NamesLocal(st, x, names, n.info);
    case FuncDecl(def, _) =>
      if def.Some? { assert st.seen + x + {def.value.obj} == st.seen + {def.value.obj} + x; }
    case TypeSpec(def, _, _) =>
      if def.Some? { assert st.seen + x + {def.value.obj} == st.seen + {def.value.obj} + x; }
    case _ =>
  }

  lemma {:induction false} ScanLocal(st: Scan, x: set<nat>, ns: seq<Node>)
    requires x !! Objects(ns)
    ensures State(Scan(st.seen + x, st.tok), ns) == Scan(State(st, ns).seen + x, State(st, ns).tok)
    ensures Out(Scan(st.seen + x, st.tok), ns) == Out(st, ns)
    ensures State(st, ns).seen <= st.seen + Objects(ns)
  {
    if ns != [] {
      var k := |ns| - 1;
      assert ns[..k + 1] == ns;
      assert forall o :: o in NodeObjects(ns[k]) ==> o in Objects(ns);
      assert Objects(ns[..k]) <= Objects(ns);
      ScanLocal(st, x, ns[..k]);
      VisitLocal(State(st, ns[..k]), x, ns[k]);
    }
  }

  // ---------- Extraction ----------

  function Datas(symbols: seq<Symbol>): (r: seq<SymbolData>)
    ensures |r| == |symbols|
    ensures forall k :: 0 <= k < |r| ==> r[k] == symbols[k].data
  {
    seq(|symbols|, k requires 0 <= k < |symbols| => symbols[k].data)
  }

  /** The symbols of one file, in list order. */
  function ForFile(symbols: seq<Symbol>, file: Id): (r: seq<Symbol>)
    ensures forall s :: s in r <==> s in symbols && s.file == file
  {
    if symbols == [] then []
    else
      var k := |symbols| - 1;
      assert symbols == symbols[..k] + [symbols[k]];
      ForFile(symbols[..k], file) + (if symbols[k].file == file then [symbols[k]] else [])
  }

  /** at holds the positions of the symbols of the file. */
  ghost predicate FilePositions(symbols: seq<Symbol>, file: Id, at: seq<nat>) {
    forall k: nat :: k in at <==> k < |symbols| && symbols[k].file == file
  }

  lemma FilePositionsNext(symbols: seq<Symbol>, file: Id, n: nat, at: seq<nat>)
    requires |symbols| == n + 1 && FilePositions(symbols[..n], file, at)
    ensures FilePositions(symbols, file, if symbols[n].file == file then at + [n] else at)
  {
  }

  lemma {:induction false} ForFileInOrder(symbols: seq<Symbol>, file: Id) returns (at: seq<nat>)
    ensures Picks(symbols, ForFile(symbols, file), at) && FilePositions(symbols, file, at)
  {
    at := [];
    if symbols != [] {
      var n := |symbols| - 1;
      at := ForFileInOrder(symbols[..n], file);
      var front := ForFile(symbols[..n], file);
      assert ForFile(symbols, file) == if symbols[n].file == file then front + [symbols[n]] else front;
      hide *;
      PicksNext(symbols, front, at, n);
      FilePositionsNext(symbols, file, n, at);
      assert symbols[..n + 1] == symbols;
      if symbols[n].file == file { at := at + [n]; }
    }
  }

  method SymbolsForFile(symbols: seq<Symbol>, file: Id) returns (result: seq<Symbol>)
    ensures result == ForFile(symbols, file)
    ensures exists at: seq<nat> :: Picks(symbols, result, at) && FilePositions(symbols, file, at)
  {
    result := [];
    for i := 0 to |symbols|
      invariant result == ForFile(symbols[..i], file)
    {
      TakeNext(symbols, i);
      if symbols[i].file == file {
        result := result + [symbols[i]];
      }
    }
    assert symbols[..|symbols|] == symbols;
    ghost var at := ForFileInOrder(symbols, file);
  }

  lemma {:induction false} ForFileAppend(a: seq<Symbol>, b: seq<Symbol>, file: Id)
    ensures ForFile(a + b, file) == ForFile(a, file) + ForFile(b, file)
  {
    if b == [] {
      assert a + b == a;
    } else {
      var k := |b| - 1;
      ForFileAppend(a, b[..k], file);
      assert (a + b)[..|a + b| - 1] == a + b[..k];
    }
  }

  lemma {:induction false} ForFileUniform(b: seq<Symbol>, owner: Id, file: Id)
    requires forall s :: s in b ==> s.file == owner
    ensures ForFile(b, file) == if file == owner then b else []
  {
    if b != [] {
      var k := |b| - 1;
      assert b == b[..k] + [b[k]];
      ForFileUniform(b[..k], owner, file);
    }
  }

  lemma {:induction false} ForFileNone(b: seq<Symbol>, file: Id)
    requires forall s :: s in b ==> s.file != file
    ensures ForFile(b, file) == []
  {
    if b != [] {
      var k := |b| - 1;
      assert b == b[..k] + [b[k]];
      ForFileNone(b[..k], file);
    }
  }

  /** Ids drawn one after the other from [lo, hi). */
  ghost predicate Drawn(s: seq<Symbol>, lo: Id, hi: Id) {
    && lo <= hi
    && (forall k :: 0 <= k < |s| ==> lo <= s[k].id < hi)
    && (forall i, j :: 0 <= i < j < |s| ==> s[i].id < s[j].id)
  }

  ghost predicate InRepo(s: seq<Symbol>, repo: Id) {
    forall x :: x in s ==> x.repo == repo
  }

  ghost predicate Owned(s: seq<Symbol>, repo: Id, file: Id) {
    forall x :: x in s ==> x.repo == repo && x.file == file
  }

  method VisitNames(ids: IdSource, repo: Id, file: Id, st: Scan, names: seq<Name>, info: Info)
    returns (seen: set<nat>, emitted: seq<Symbol>)
    modifies ids
    ensures Scan(seen, st.tok) == NamesAfter(st, names)
    ensures Datas(emitted) == NamesNew(st, names, info)
    ensures Drawn(emitted, old(ids.next), ids.next) && Owned(emitted, repo, file)
  {
    seen, emitted := st.seen, [];
    for i := 0 to |names|
      invariant Scan(seen, st.tok) == NamesAfter(st, names[..i])
      invariant Datas(emitted) == NamesNew(st, names[..i], info)
      invariant Drawn(emitted, old(ids.next), ids.next) && Owned(emitted, repo, file)
    {
      TakeNext(names, i);
      var name := names[i];
      if name.blank { continue; }
      if name.def.None? || name.def.value.obj in seen { continue; }
      seen := seen + {name.def.value.obj};
      if name.def.value.hasPkg {
        var id := ids.Generate();
        var data := SymbolData(name.def.value.fqName, ValueKind(st.tok), info.startLine, info.endLine, name.detail);
        assert Datas(emitted + [Symbol(id, file, repo, data)]) == Datas(emitted) + [data];
        emitted := emitted + [Symbol(id, file, repo, data)];
      }
    }
    assert names[..|names|] == names;
  }

  method VisitNode(ids: IdSource, repo: Id, file: Id, st: Scan, n: Node)
    returns (seen: set<nat>, tok: Tok, emitted: seq<Symbol>)
    modifies ids
    ensures Scan(seen, tok) == After(st, n)
    ensures Datas(emitted) == New(st, n)
    ensures Drawn(emitted, old(ids.next), ids.next) && Owned(emitted, repo, file)
  {
    seen, tok, emitted := st.seen, st.tok, [];
    match n.kind {
      case GenDecl(t) => tok := t;
      case FuncDecl(def, detail) =>
        if def.Some? && def.value.obj !in seen {
          seen := seen + {def.value.obj};
          if def.value.isFunc {
            var id := ids.Generate();
            emitted := [Symbol(id, file, repo, SymbolData(def.value.fqName, FunctionSym, n.info.startLine,
                n.info.endLine, detail))];
          }
        }
      case TypeSpec(def, shape, detail) =>
        if def.Some? && def.value.obj !in seen {
          seen := seen + {def.value.obj};
          if def.value.hasPkg {
            var id := ids.Generate();
            var kind := if shape.InterfaceType? then InterfaceSym else TypeSym;
            emitted := [Symbol(id, file, repo, SymbolData(def.value.fqName, kind, n.info.startLine, n.info.endLine,
                detail))];
          }
        }
      case ValueSpec(names) =>
        seen, emitted := VisitNames(ids, repo, file, st, names, n.info);
      case _ =>
    }
  }

  lemma DatasAppend(a: seq<Symbol>, b: seq<Symbol>)
    ensures Datas(a + b) == Datas(a) + Datas(b)
  {
  }

  lemma NextNode(st: Scan, ns: seq<Node>, k: nat)
    requires k < |ns|
    ensures State(st, ns[..k + 1]) == After(State(st, ns[..k]), ns[k])
    ensures Out(st, ns[..k + 1]) == Out(st, ns[..k]) + New(State(st, ns[..k]), ns[k])
  {
    TakeNext(ns, k);
  }

  /** The walk as far as node k. */
  ghost predicate Walked(src: SourceFile, seen0: set<nat>, k: nat, seen: set<nat>, tok: Tok, emitted: seq<Symbol>) {
    var nodes := PreOrder(src.ast);
    && k <= |nodes|
    && Scan(seen, tok) == State(Scan(seen0, NoTok), nodes[..k])
    && Datas(emitted) == Out(Scan(seen0, NoTok), nodes[..k])
  }

  lemma WalkBegins(src: SourceFile, seen0: set<nat>)
    ensures Walked(src, seen0, 0, seen0, NoTok, [])
  {
  }

  lemma WalkStep(src: SourceFile, seen0: set<nat>, k: nat, seen: set<nat>, tok: Tok, emitted: seq<Symbol>,
                 seen': set<nat>, tok': Tok, more: seq<Symbol>)
    requires Walked(src, seen0, k, seen, tok, emitted) && k < |PreOrder(src.ast)|
    requires Scan(seen', tok') == After(Scan(seen, tok), PreOrder(src.ast)[k])
    requires Datas(more) == New(Scan(seen, tok), PreOrder(src.ast)[k])
    ensures Walked(src, seen0, k + 1, seen', tok', emitted + more)
  {
    hide PreOrder, State, Out, After, New, Datas;
    NextNode(Scan(seen0, NoTok), PreOrder(src.ast), k);
    DatasAppend(emitted, more);
  }

  /** What earlier files left in the seen set makes no difference to the file. */
  lemma WalkEnds(src: SourceFile, seen0: set<nat>, seen: set<nat>, tok: Tok, emitted: seq<Symbol>)
    requires seen0 !! Objects(PreOrder(src.ast))
    requires Walked(src, seen0, |PreOrder(src.ast)|, seen, tok, emitted)
    ensures Datas(emitted) == SymbolsOf(src) && seen <= seen0 + Objects(PreOrder(src.ast))
  {
    var nodes := PreOrder(src.ast);
    assert nodes[..|nodes|] == nodes;
    assert Scan({}, NoTok).seen + seen0 == seen0;
    hide PreOrder, State, Out, Objects;
    ScanLocal(Scan({}, NoTok), seen0, nodes);
  }

  /** The walk over one file, starting from the objects seen in earlier files. */
  method ExtractFile(ids: IdSource, repo: Id, file: Id, src: SourceFile, seen0: set<nat>)
    returns (seen: set<nat>, emitted: seq<Symbol>)
    requires seen0 !! Objects(PreOrder(src.ast))
    modifies ids
    ensures Datas(emitted) == SymbolsOf(src)
    ensures seen <= seen0 + Objects(PreOrder(src.ast))
    ensures Drawn(emitted, old(ids.next), ids.next) && Owned(emitted, repo, file)
  {
    hide *;
    var nodes := PreOrder(src.ast);
    var tok := NoTok;
    seen, emitted := seen0, [];
    WalkBegins(src, seen0);
    NoneDrawn(ids.next);
    NoneOwned(repo, file);
    for k := 0 to |nodes|
      invariant Walked(src, seen0, k, seen, tok, emitted)
      invariant Drawn(emitted, old(ids.next), ids.next) && Owned(emitted, repo, file)
    {
      ghost var seen1, tok1, start := seen, tok, ids.next;
      var more;
      seen, tok, more := VisitNode(ids, repo, file, Scan(seen, tok), nodes[k]);
      WalkStep(src, seen0, k, seen1, tok1, emitted, seen, tok, more);
      DrawnAppend(emitted, more, old(ids.next), start, ids.next);
      OwnedAppend(emitted, more, repo, file);
      emitted := emitted + more;
    }
    WalkEnds(src, seen0, seen, tok, emitted);
  }

  lemma NoneOwned(repo: Id, file: Id)
    ensures Owned([], repo, file)
  {
  }

  lemma OwnedAppend(a: seq<Symbol>, b: seq<Symbol>, repo: Id, file: Id)
    requires Owned(a, repo, file) && Owned(b, repo, file)
    ensures Owned(a + b, repo, file)
  {
  }

  ghost predicate Injective(fileMap: map<Abs, Id>) {
    forall a, b :: a in fileMap && b in fileMap && fileMap[a] == fileMap[b] ==> a == b
  }

  /** A symbol list that gives every file of the map exactly the symbols of its source. */
  ghost predicate Extracted(symbols: seq<Symbol>, files: seq<Syntax>, fileMap: map<Abs, Id>) {
    && (forall k :: 0 <= k < |files| && files[k].abs in fileMap ==>
          Datas(ForFile(symbols, fileMap[files[k].abs])) == SymbolsOf(files[k].src))
    && (forall s :: s in symbols ==>
        exists k :: 0 <= k < |files| && files[k].abs in fileMap && s.file == fileMap[files[k].abs])
  }

  lemma ExtractedStep(symbols: seq<Symbol>, more: seq<Symbol>, done: seq<Syntax>, u: Syntax, fileMap: map<Abs, Id>,
                      repo: Id)
    requires Extracted(symbols, done, fileMap) && Injective(fileMap)
    requires forall k :: 0 <= k < |done| ==> done[k].abs != u.abs
    requires u.abs in fileMap ==> Owned(more, repo, fileMap[u.abs]) && Datas(more) == SymbolsOf(u.src)
    requires u.abs !in fileMap ==> more == []
    ensures Extracted(symbols + more, done + [u], fileMap)
  {
    var files := done + [u];
    hide ForFile, SymbolsOf;
    forall k | 0 <= k < |files| && files[k].abs in fileMap
      ensures Datas(ForFile(symbols + more, fileMap[files[k].abs])) == SymbolsOf(files[k].src)
    {
      var f := fileMap[files[k].abs];
      ForFileAppend(symbols, more, f);
      if u.abs in fileMap {
        ForFileUniform(more, fileMap[u.abs], f);
      } else {
        ForFileUniform(more, f, f);
      }
      if k == |done| {
        forall s | s in symbols ensures s.file != f {
          var j :| 0 <= j < |done| && done[j].abs in fileMap && s.file == fileMap[done[j].abs];
        }
        ForFileNone(symbols, f);
      }
    }
    forall s | s in symbols + more
      ensures exists k :: 0 <= k < |files| && files[k].abs in fileMap && s.file == fileMap[files[k].abs]
    {
      if s in symbols {
        var j :| 0 <= j < |done| && done[j].abs in fileMap && s.file == fileMap[done[j].abs];
        assert files[j] == done[j];
      } else {
        assert files[|done|] == u;
      }
    }
  }

  /** The files still to come define nothing that has been seen. */
  ghost predicate Unseen(seen: set<nat>, all: seq<Syntax>, from: nat) {
    forall k :: from <= k < |all| ==> seen !! Objects(PreOrder(all[k].src.ast))
  }

  lemma UnseenStep(seen: set<nat>, seen': set<nat>, all: seq<Syntax>, i: nat, root: Abs, tree: Tree)
    requires LoadsFiles(all, root, tree) && i < |all|
    requires Unseen(seen, all, i) && seen' <= seen + Objects(PreOrder(all[i].src.ast))
    ensures seen !! Objects(PreOrder(all[i].src.ast))
    ensures Unseen(seen', all, i + 1)
  {
  }

  lemma LoadedOnce(all: seq<Syntax>, i: nat, root: Abs, tree: Tree)
    requires LoadsFiles(all, root, tree) && i < |all|
    ensures forall k :: 0 <= k < i ==> all[..i][k].abs != all[i].abs
  {
  }

  lemma DrawnAppend(a: seq<Symbol>, b: seq<Symbol>, lo: Id, mid: Id, hi: Id)
    requires Drawn(a, lo, mid) && Drawn(b, mid, hi)
    ensures Drawn(a + b, lo, hi)
  {
  }

  /** The first n files are done: result holds their symbols, seen their objects. */
  ghost predicate Progress(result: seq<Symbol>, seen: set<nat>, all: seq<Syntax>, n: nat, fileMap: map<Abs, Id>,
                           repo: Id,
                           lo: Id, hi: Id) {
    && n <= |all|
    && Extracted(result, all[..n], fileMap) && Unseen(seen, all, n)
    && Drawn(result, lo, hi) && InRepo(result, repo)
  }

  lemma ProgressBegins(all: seq<Syntax>, fileMap: map<Abs, Id>, repo: Id, lo: Id)
    ensures Progress([], {}, all, 0, fileMap, repo, lo, lo)
  {
  }

  lemma ProgressEnds(result: seq<Symbol>, seen: set<nat>, all: seq<Syntax>, fileMap: map<Abs, Id>, repo: Id, lo: Id,
                     hi: Id)
    requires Progress(result, seen, all, |all|, fileMap, repo, lo, hi)
    ensures Extracted(result, all, fileMap) && Drawn(result, lo, hi) && InRepo(result, repo)
  {
    assert all[..|all|] == all;
    hide Extracted, Drawn, InRepo, Unseen;
  }

  lemma NextUnseen(result: seq<Symbol>, seen: set<nat>, all: seq<Syntax>, n: nat, fileMap: map<Abs, Id>, repo: Id,
                   lo: Id, hi: Id, root: Abs, tree: Tree)
    requires Progress(result, seen, all, n, fileMap, repo, lo, hi) && LoadsFiles(all, root, tree) && n < |all|
    ensures seen !! Objects(PreOrder(all[n].src.ast))
  {
    hide LoadsFiles, Extracted, Drawn, InRepo, PreOrder, Objects;
  }

  /** One more file, of the map or not. */
  lemma ProgressStep(result: seq<Symbol>, more: seq<Symbol>, seen: set<nat>, seen': set<nat>, all: seq<Syntax>, n: nat,
                     fileMap: map<Abs, Id>, repo: Id, lo: Id, mid: Id, hi: Id, root: Abs, tree: Tree)
    requires Progress(result, seen, all, n, fileMap, repo, lo, mid) && LoadsFiles(all, root, tree) && n < |all|
    requires Injective(fileMap) && Drawn(more, mid, hi) && seen' <= seen + Objects(PreOrder(all[n].src.ast))
    requires all[n].abs in fileMap ==> Owned(more, repo, fileMap[all[n].abs]) && Datas(more) == SymbolsOf(all[n].src)
    requires all[n].abs !in fileMap ==> more == []
    ensures Progress(result + more, seen', all, n + 1, fileMap, repo, lo, hi)
  {
    TakeNext(all, n);
    LoadedOnce(all, n, root, tree);
    UnseenStep(seen, seen', all, n, root, tree);
    hide LoadsFiles, Injective, Unseen, Objects, PreOrder, SymbolsOf, Datas;
    ExtractedStep(result, more, all[..n], all[n], fileMap, repo);
    hide Extracted;
    DrawnAppend(result, more, lo, mid, hi);
    hide Drawn;
    InRepoAppend(result, more, repo);
  }

  lemma InRepoAppend(a: seq<Symbol>, b: seq<Symbol>, repo: Id)
    requires InRepo(a, repo) && (b == [] || exists file :: Owned(b, repo, file))
    ensures InRepo(a + b, repo)
  {
  }

  lemma NoneDrawn(hi: Id)
    ensures Drawn([], hi, hi)
  {
  }

  /** The files of one package, which stand at position from of the whole list. */
  method ExtractPackage(ids: IdSource, repo: Id, fileMap: map<Abs, Id>, pkg: Package, seen0: set<nat>,
                        sofar: seq<Symbol>,
                        ghost all: seq<Syntax>, ghost from: nat, ghost root: Abs, ghost tree: Tree, ghost lo: Id)
    returns (seen: set<nat>, result: seq<Symbol>)
    requires Injective(fileMap) && LoadsFiles(all, root, tree) && PackageIn(pkg, all, from)
    requires Progress(sofar, seen0, all, from, fileMap, repo, lo, ids.next)
    modifies ids
    ensures Progress(result, seen, all, from + |pkg.syntax|, fileMap, repo, lo, ids.next)
  {
    hide *;
    seen, result := seen0, sofar;
    for j := 0 to |pkg.syntax|
      invariant Progress(result, seen, all, from + j, fileMap, repo, lo, ids.next)
    {
      var u := pkg.syntax[j];
      ghost var start, n := ids.next, from + j;
      SyntaxAt(pkg, all, from, j);
      NextUnseen(result, seen, all, n, fileMap, repo, lo, start, root, tree);
      if u.abs in fileMap {
        var seen', more := ExtractFile(ids, repo, fileMap[u.abs], u.src, seen);
        ProgressStep(result, more, seen, seen', all, n, fileMap, repo, lo, start, ids.next, root, tree);
        seen, result := seen', result + more;
      } else {
        NoneDrawn(start);
        ProgressStep(result, [], seen, seen, all, n, fileMap, repo, lo, start, start, root, tree);
        assert result + [] == result;
      }
    }
  }

  /** Derives the symbols of every file in fileMap. */
  method Extract(ids: IdSource, repo: Id, fileMap: map<Abs, Id>, pkgs: seq<Package>, ghost root: Abs, ghost tree: Tree)
    returns (result: seq<Symbol>)
    requires LoadsFiles(Files(pkgs), root, tree) && Injective(fileMap)
    modifies ids
    ensures Extracted(result, Files(pkgs), fileMap)
    ensures Drawn(result, old(ids.next), ids.next) && InRepo(result, repo)
  {
    hide *;
    result := [];
    var seen := {};
    ghost var all, n: nat := Files(pkgs), 0;
    ProgressBegins(all, fileMap, repo, ids.next);
    FilesBegin(pkgs);
    for i := 0 to |pkgs|
      invariant n == |Files(pkgs[..i])| && n <= |all|
      invariant Progress(result, seen, all, n, fileMap, repo, old(ids.next), ids.next)
    {
      PackageAt(pkgs, i);
      seen, result := ExtractPackage(ids, repo, fileMap, pkgs[i], seen, result, all, n, root, tree, old(ids.next));
      n := n + |pkgs[i].syntax|;
    }
    ProgressEnds(result, seen, all, fileMap, repo, old(ids.next), ids.next);
  }

  // ---------- Names ----------

  /** The map sends every name to the last symbol of the list that bears it. */
  ghost predicate IsNameMap(m: map<string, Id>, symbols: seq<Symbol>) {
    && (forall k :: 0 <= k < |symbols| ==> symbols[k].data.fqName in m)
    && (forall n :: n in m ==> LastWith(n, m[n], symbols))
  }

  ghost predicate LastWith(name: string, id: Id, symbols: seq<Symbol>) {
    exists k :: 0 <= k < |symbols| && symbols[k].data.fqName == name && symbols[k].id == id &&
                forall j :: k < j < |symbols| ==> symbols[j].data.fqName != name
  }

  lemma LaterWith(name: string, id: Id, symbols: seq<Symbol>, s: Symbol)
    requires LastWith(name, id, symbols) && s.data.fqName != name
    ensures LastWith(name, id, symbols + [s])
  {
    var k :| 0 <= k < |symbols| && symbols[k].data.fqName == name && symbols[k].id == id &&
             forall j :: k < j < |symbols| ==> symbols[j].data.fqName != name;
    assert (symbols + [s])[k] == symbols[k];
  }

  lemma NameMapNext(m: map<string, Id>, symbols: seq<Symbol>, s: Symbol)
    requires IsNameMap(m, symbols)
    ensures IsNameMap(m[s.data.fqName := s.id], symbols + [s])
  {
    var m', more := m[s.data.fqName := s.id], symbols + [s];
    assert LastWith(s.data.fqName, s.id, more) by { assert more[|symbols|] == s; }
    hide LastWith;
    forall n | n in m' ensures LastWith(n, m'[n], more) {
      if n != s.data.fqName { LaterWith(n, m[n], symbols, s); }
    }
  }

  /** No later symbol bears the name of symbol k. */
  ghost predicate NoLater(symbols: seq<Symbol>, k: nat) {
    k < |symbols| && forall j :: k < j < |symbols| ==> symbols[j].data.fqName != symbols[k].data.fqName
  }

  lemma NameMapIs(m: map<string, Id>, symbols: seq<Symbol>)
    requires IsNameMap(m, symbols)
    ensures forall n :: n in m <==> exists k :: 0 <= k < |symbols| && symbols[k].data.fqName == n
    ensures forall k :: 0 <= k < |symbols| && NoLater(symbols, k) ==> m[symbols[k].data.fqName] == symbols[k].id
  {
    forall k | 0 <= k < |symbols| && NoLater(symbols, k)
      ensures m[symbols[k].data.fqName] == symbols[k].id
    {
      assert LastWith(symbols[k].data.fqName, m[symbols[k].data.fqName], symbols);
    }
  }

  method ToFqNameMap(symbols: seq<Symbol>) returns (m: map<string, Id>)
    ensures IsNameMap(m, symbols)
    ensures forall n :: n in m <==> exists k :: 0 <= k < |symbols| && symbols[k].data.fqName == n
    ensures forall k :: 0 <= k < |symbols| && NoLater(symbols, k) ==> m[symbols[k].data.fqName] == symbols[k].id
  {
    m := map[];
    assert IsNameMap(m, symbols[..0]);
    hide *;
    for i := 0 to |symbols|
      invariant IsNameMap(m, symbols[..i])
    {
      TakeNext(symbols, i);
      NameMapNext(m, symbols[..i], symbols[i]);
      m := m[symbols[i].data.fqName := symbols[i].id];
    }
    assert symbols[..|symbols|] == symbols;
    NameMapIs(m, symbols);
  }
}
