/** Call edges: one pre-order walk per file, with the current caller carried from node to node. */
module Calls {
  import opened Base
  import opened Paths
  import opened SourceTree

  /** A call_edge row. Its own id is never read and is left out. */
  datatype CallEdge = CallEdge(repo: Id, caller: Id, callee: Id, file: Id)

  // ---------- Specification: callers and callees by name ----------

  function Resolved(n: Node): Option<string> {
    match n.kind
    case FuncDecl(Some(d), _) => if d.isFunc then Some(d.fqName) else None
    case _ => None
  }

  function Callee(n: Node): Option<string> {
    match n.kind
    case CallExpr(callee) => callee
    case _ => None
  }

  /** The pair a node gives when it is reached under a caller. */
  function PairOf(caller: Option<string>, n: Node): seq<(string, string)> {
    if caller.Some? && Callee(n).Some? then [(caller.value, Callee(n).value)] else []
  }

  /** The latest resolved function declaration at or before the end of ns. */
  function Carry(c: Option<string>, ns: seq<Node>): Option<string> {
    if ns == [] then c
    else
      var last := Resolved(ns[|ns| - 1]);
      if last.Some? then last else Carry(c, ns[..|ns| - 1])
  }

  /** Each resolved call, attributed to the declaration carried when it is reached. */
  function Pairs(c: Option<string>, ns: seq<Node>): seq<(string, string)> {
    if ns == [] then []
    else
      var k := |ns| - 1;
      Pairs(c, ns[..k]) + PairOf(Carry(c, ns[..k]), ns[k])
  }

  function FilePairs(src: SourceFile): seq<(string, string)> { Pairs(None, PreOrder(src.ast)) }

  /** The edges of a list of pairs: those with both ends in the symbol map. */
  function EdgesOf(pairs: seq<(string, string)>, m: map<string, Id>, repo: Id, file: Id): seq<CallEdge> {
    if pairs == [] then []
    else
      var (caller, callee) := pairs[|pairs| - 1];
      EdgesOf(pairs[..|pairs| - 1], m, repo, file) +
      (if caller in m && callee in m then [CallEdge(repo, m[caller], m[callee], file)] else [])
  }

  function FileEdges(u: Syntax, fileMap: map<Abs, Id>, m: map<string, Id>, repo: Id): seq<CallEdge> {
    if u.abs in fileMap then EdgesOf(FilePairs(u.src), m, repo, fileMap[u.abs]) else []
  }

  function AllEdges(files: seq<Syntax>, fileMap: map<Abs, Id>, m: map<string, Id>, repo: Id): seq<CallEdge> {
    if files == [] then []
    else AllEdges(files[..|files| - 1], fileMap, m, repo) + FileEdges(files[|files| - 1], fileMap, m, repo)
  }

  // ---------- The walk ----------

  function Lookup(m: map<string, Id>, name: Option<string>): Option<Id> {
    if name.Some? && name.value in m then Some(m[name.value]) else None
  }

  lemma NextStep(ns: seq<Node>, k: nat, m: map<string, Id>, repo: Id, file: Id)
    requires k < |ns|
    ensures var caller := Lookup(m, Carry(None, ns[..k]));
            EdgesOf(Pairs(None, ns[..k + 1]), m, repo, file) == EdgesOf(Pairs(None, ns[..k]), m, repo, file) +
              (if caller.Some? && Callee(ns[k]).Some? && Callee(ns[k]).value in m
               then [CallEdge(repo, caller.value, m[Callee(ns[k]).value], file)] else [])
  {
    TakeNext(ns, k);
    var before := Pairs(None, ns[..k]);
    var more := PairOf(Carry(None, ns[..k]), ns[k]);
    if more != [] {
      Snoc(before, more[0]);
    } else {
      assert before + more == before;
    }
  }

  /** One node: a resolved declaration becomes the caller, a resolved call under a caller gives an edge. */
  method VisitNode(repo: Id, file: Id, n: Node, symbolMap: map<string, Id>, callerSymbol: Option<Id>)
    returns (caller: Option<Id>, more: seq<CallEdge>)
    ensures caller == if Resolved(n).Some? then Lookup(symbolMap, Resolved(n)) else callerSymbol
    ensures more == if callerSymbol.Some? && Callee(n).Some? && Callee(n).value in symbolMap
                    then [CallEdge(repo, callerSymbol.value, symbolMap[Callee(n).value], file)] else []
  {
    caller, more := callerSymbol, [];
    match n.kind {
      case FuncDecl(def, _) =>
        if def.Some? && def.value.isFunc {
          caller := if def.value.fqName in symbolMap then Some(symbolMap[def.value.fqName]) else None;
        }
      case CallExpr(callee) =>
        if callerSymbol.Some? && callee.Some? && callee.value in symbolMap {
          more := [CallEdge(repo, callerSymbol.value, symbolMap[callee.value], file)];
        }
      case _ =>
    }
  }

  lemma WalkBegins(nodes: seq<Node>, src: SourceFile, m: map<string, Id>, repo: Id, file: Id)
    requires nodes == PreOrder(src.ast)
    ensures Lookup(m, Carry(None, nodes[..0])) == None
    ensures EdgesOf(Pairs(None, nodes[..0]), m, repo, file) == []
    ensures FilePairs(src) == Pairs(None, nodes) && nodes[..|nodes|] == nodes
  {
  }

  lemma NextLookup(ns: seq<Node>, k: nat, m: map<string, Id>)
    requires k < |ns|
    ensures Lookup(m, Carry(None, ns[..k + 1])) ==
            if Resolved(ns[k]).Some? then Lookup(m, Resolved(ns[k])) else Lookup(m, Carry(None, ns[..k]))
  {
    TakeNext(ns, k);
  }

  method InspectFile(repo: Id, file: Id, src: SourceFile, symbolMap: map<string, Id>) returns (edges: seq<CallEdge>)
    ensures edges == EdgesOf(FilePairs(src), symbolMap, repo, file)
  {
    hide *;
    var nodes := PreOrder(src.ast);
    edges := [];
    var callerSymbol: Option<Id> := None;
    WalkBegins(nodes, src, symbolMap, repo, file);
    for k := 0 to |nodes|
      invariant callerSymbol == Lookup(symbolMap, Carry(None, nodes[..k]))
      invariant edges == EdgesOf(Pairs(None, nodes[..k]), symbolMap, repo, file)
    {
      NextStep(nodes, k, symbolMap, repo, file);
      NextLookup(nodes, k, symbolMap);
      var more;
      callerSymbol, more := VisitNode(repo, file, nodes[k], symbolMap, callerSymbol);
      edges := edges + more;
    }
  }

  lemma NextFile(files: seq<Syntax>, k: nat, fileMap: map<Abs, Id>, m: map<string, Id>, repo: Id)
    requires k < |files|
    ensures AllEdges(files[..k + 1], fileMap, m, repo) ==
            AllEdges(files[..k], fileMap, m, repo) + FileEdges(files[k], fileMap, m, repo)
  {
    TakeNext(files, k);
  }

  lemma FileEdgesIs(u: Syntax, fileMap: map<Abs, Id>, m: map<string, Id>, repo: Id)
    ensures FileEdges(u, fileMap, m, repo) == if u.abs in fileMap then EdgesOf(FilePairs(u.src), m, repo,
        fileMap[u.abs]) else []
  {
  }

  lemma NothingBuilt(all: seq<Syntax>, fileMap: map<Abs, Id>, m: map<string, Id>, repo: Id)
    ensures AllEdges(all[..0], fileMap, m, repo) == []
  {
  }

  /** The files of one package, which stand at position from of the whole list. */
  method BuildPackage(repo: Id, fileMap: map<Abs, Id>, symbolMap: map<string, Id>, pkg: Package, sofar: seq<CallEdge>,
                      ghost all: seq<Syntax>, ghost from: nat)
    returns (edges: seq<CallEdge>)
    requires PackageIn(pkg, all, from) && from + |pkg.syntax| <= |all|
    requires sofar == AllEdges(all[..from], fileMap, symbolMap, repo)
    ensures edges == AllEdges(all[..from + |pkg.syntax|], fileMap, symbolMap, repo)
  {
    hide *;
    edges := sofar;
    for j := 0 to |pkg.syntax|
      invariant edges == AllEdges(all[..from + j], fileMap, symbolMap, repo)
    {
      var f := pkg.syntax[j];
      SyntaxAt(pkg, all, from, j);
      NextFile(all, from + j, fileMap, symbolMap, repo);
      FileEdgesIs(f, fileMap, symbolMap, repo);
      if f.abs in fileMap {
        var more := InspectFile(repo, fileMap[f.abs], f.src, symbolMap);
        edges := edges + more;
      }
    }
  }

  method Build(repo: Id, fileMap: map<Abs, Id>, symbolMap: map<string, Id>, pkgs: seq<Package>)
    returns (edges: seq<CallEdge>)
    ensures edges == AllEdges(Files(pkgs), fileMap, symbolMap, repo)
  {
    hide *;
    edges := [];
    ghost var all, n: nat := Files(pkgs), 0;
    NothingBuilt(all, fileMap, symbolMap, repo);
    FilesBegin(pkgs);
    for i := 0 to |pkgs|
      invariant n == |Files(pkgs[..i])| && n <= |all|
      invariant edges == AllEdges(all[..n], fileMap, symbolMap, repo)
    {
      PackageAt(pkgs, i);
      PackageBound(pkgs[i], all, n);
      edges := BuildPackage(repo, fileMap, symbolMap, pkgs[i], edges, all, n);
      n := n + |pkgs[i].syntax|;
    }
    assert all[..n] == all;
  }

  // ---------- Both ends of every edge are in the map ----------

  lemma {:induction false} EdgesInMap(pairs: seq<(string, string)>, m: map<string, Id>, repo: Id, file: Id)
    ensures forall e :: e in EdgesOf(pairs, m, repo, file) ==>
              e.repo == repo && e.file == file && e.caller in m.Values && e.callee in m.Values
  {
    if pairs != [] {
      EdgesInMap(pairs[..|pairs| - 1], m, repo, file);
    }
  }

  lemma {:induction false} AllEdgesInMaps(files: seq<Syntax>, fileMap: map<Abs, Id>, m: map<string, Id>, repo: Id)
    ensures forall e :: e in AllEdges(files, fileMap, m, repo) ==>
              e.repo == repo && e.file in fileMap.Values && e.caller in m.Values && e.callee in m.Values
  {
    if files != [] {
      var u := files[|files| - 1];
      AllEdgesInMaps(files[..|files| - 1], fileMap, m, repo);
      if u.abs in fileMap {
        EdgesInMap(FilePairs(u.src), m, repo, fileMap[u.abs]);
      }
    }
  }

  // ---------- The carried caller against the enclosing function ----------

  lemma {:induction false} CarryAppend(c: Option<string>, a: seq<Node>, b: seq<Node>)
    ensures Carry(c, a + b) == Carry(Carry(c, a), b)
  {
    if b == [] {
      assert a + b == a;
    } else {
      assert (a + b)[..|a + b| - 1] == a + b[..|b| - 1];
      CarryAppend(c, a, b[..|b| - 1]);
    }
  }

  lemma {:induction false} PairsAppend(c: Option<string>, a: seq<Node>, b: seq<Node>)
    ensures Pairs(c, a + b) == Pairs(c, a) + Pairs(Carry(c, a), b)
  {
    if b == [] {
      assert a + b == a;
    } else {
      var k := |b| - 1;
      assert (a + b)[..|a + b| - 1] == a + b[..k];
      PairsAppend(c, a, b[..k]);
      CarryAppend(c, a, b[..k]);
      var x, y := Pairs(c, a), Pairs(Carry(c, a), b[..k]);
      var z := PairOf(Carry(c, a + b[..k]), b[k]);
      assert x + y + z == x + (y + z);
    }
  }

  function Callees(ns: seq<Node>): seq<string> {
    if ns == [] then []
    else
      var last := Callee(ns[|ns| - 1]);
      Callees(ns[..|ns| - 1]) + (if last.Some? then [last.value] else [])
  }

  function Attribute(caller: string, callees: seq<string>): (r: seq<(string, string)>)
    ensures |r| == |callees|
  {
    seq(|callees|, i requires 0 <= i < |callees| => (caller, callees[i]))
  }

  predicate NoResolved(ns: seq<Node>) { forall n :: n in ns ==> Resolved(n).None? }

  /** Without a declaration inside, every call keeps the caller it was entered with. */
  lemma {:induction false} PairsWithin(c: Option<string>, ns: seq<Node>)
    requires NoResolved(ns)
    ensures Carry(c, ns) == c
    ensures Pairs(c, ns) == if c.Some? then Attribute(c.value, Callees(ns)) else []
  {
    if ns != [] {
      var k := |ns| - 1;
      PairsWithin(c, ns[..k]);
      assert Resolved(ns[k]).None?;
      if c.Some? && Callee(ns[k]).Some? {
        var callee := Callee(ns[k]).value;
        assert Attribute(c.value, Callees(ns[..k]) + [callee]) == Attribute(c.value,
            Callees(ns[..k])) + [(c.value, callee)];
      }
    }
  }

  /** A Go file: function declarations occur only at the top level. */
  predicate GoFileShape(ast: Node) {
    ast.kind.FileKind? && forall d :: d in ast.kids ==> NoResolved(PreOrders(d.kids))
  }

  /** Each call attributed to the resolved function it stands in; calls outside are attributed to none. */
  function Enclosing(decls: seq<Node>): seq<(string, string)> {
    if decls == [] then []
    else
      var d := decls[|decls| - 1];
      Enclosing(decls[..|decls| - 1]) +
      (if Resolved(d).Some? then Attribute(Resolved(d).value, Callees(PreOrder(d))) else [])
  }

  /** Top-level declaration k is not a resolved function, holds a resolved call, and comes after a
      resolved function. */
  ghost predicate Stray(decls: seq<Node>, k: nat)
    requires k < |decls|
  {
    && Resolved(decls[k]).None?
    && Callees(PreOrder(decls[k])) != []
    && exists j :: 0 <= j < k && Resolved(decls[j]).Some?
  }

  ghost predicate NoStray(decls: seq<Node>) { forall k :: 0 <= k < |decls| ==> !Stray(decls, k) }

  lemma DeclPairs(c: Option<string>, d: Node)
    requires NoResolved(PreOrders(d.kids))
    ensures Carry(c, PreOrder(d)) == if Resolved(d).Some? then Resolved(d) else c
    ensures Pairs(c, PreOrder(d)) ==
            if Resolved(d).Some? then Attribute(Resolved(d).value, Callees(PreOrder(d)))
            else if c.Some? then Attribute(c.value, Callees(PreOrder(d)))
            else []
  {
    var kids := PreOrders(d.kids);
    if Resolved(d).Some? {
      CarryAppend(c, [d], kids);
      PairsAppend(c, [d], kids);
      PairsWithin(Resolved(d), kids);
      assert [d][..0] == [];
      CalleesAppend([d], kids);
      assert [] + Attribute(Resolved(d).value, Callees(kids)) == Attribute(Resolved(d).value, Callees(kids));
      assert [] + Callees(kids) == Callees(kids);
    } else {
      PairsWithin(c, [d] + kids);
    }
  }

  lemma {:induction false} CalleesAppend(a: seq<Node>, b: seq<Node>)
    ensures Callees(a + b) == Callees(a) + Callees(b)
  {
    if b == [] {
      assert a + b == a;
    } else {
      assert (a + b)[..|a + b| - 1] == a + b[..|b| - 1];
      CalleesAppend(a, b[..|b| - 1]);
    }
  }

  lemma CancelRight<T>(a: seq<T>, b: seq<T>, x: seq<T>)
    ensures a + x == b + x <==> a == b
  {
    if a + x == b + x {
      assert |a| == |b|;
      assert (a + x)[..|a|] == a && (b + x)[..|b|] == b;
    }
  }

  lemma SameAfter<T>(p: seq<T>, e: seq<T>, a: seq<T>, named: bool, carried: bool)
    requires |p| >= |e|
    ensures var p', e' := p + (if named || carried then a else []), e + (if named then a else []);
            |p'| >= |e'| && (p' == e' <==> p == e && !(!named && carried && a != []))
  {
    if named {
      CancelRight(p, e, a);
    } else {
      assert e + [] == e && p + [] == p;
      assert a == [] ==> p + a == p;
    }
  }

  lemma StraySplit(decls: seq<Node>, k: nat)
    requires |decls| == k + 1
    ensures NoStray(decls) <==> NoStray(decls[..k]) && !Stray(decls, k)
    ensures (exists j :: 0 <= j < k + 1 && Resolved(decls[j]).Some?) <==>
            (exists j :: 0 <= j < k && Resolved(decls[..k][j]).Some?) || Resolved(decls[k]).Some?
    ensures Stray(decls, k) <==> Resolved(decls[k]).None? && Callees(PreOrder(decls[k])) != [] &&
                                 exists j :: 0 <= j < k && Resolved(decls[..k][j]).Some?
  {
    assert forall j :: 0 <= j < k ==> decls[..k][j] == decls[j];
    assert forall j :: 0 <= j < k ==> (Stray(decls, j) <==> Stray(decls[..k], j));
  }

  lemma NextDecl(decls: seq<Node>, k: nat)
    requires |decls| == k + 1 && NoResolved(PreOrders(decls[k].kids))
    ensures var c, callees := Carry(None, PreOrders(decls[..k])), Callees(PreOrder(decls[k]));
            var name := Resolved(decls[k]);
            && Carry(None, PreOrders(decls)) == (if name.Some? then name else c)
            && Pairs(None, PreOrders(decls)) == Pairs(None, PreOrders(decls[..k])) +
                 (if name.Some? then Attribute(name.value, callees) else if c.Some? then Attribute(c.value,
                     callees) else [])
            && Enclosing(decls) == Enclosing(decls[..k]) + (if name.Some? then Attribute(name.value, callees) else [])
  {
    CarryAppend(None, PreOrders(decls[..k]), PreOrder(decls[k]));
    PairsAppend(None, PreOrders(decls[..k]), PreOrder(decls[k]));
    DeclPairs(Carry(None, PreOrders(decls[..k])), decls[k]);
  }

  lemma {:induction false} DeclsPairs(decls: seq<Node>)
    requires forall d :: d in decls ==> NoResolved(PreOrders(d.kids))
    ensures Carry(None, PreOrders(decls)).Some? <==> exists j :: 0 <= j < |decls| && Resolved(decls[j]).Some?
    ensures |Pairs(None, PreOrders(decls))| >= |Enclosing(decls)|
    ensures Pairs(None, PreOrders(decls)) == Enclosing(decls) <==> NoStray(decls)
  {
    if decls == [] {
    } else {
      var k := |decls| - 1;
      hide *;
      DeclsPairs(decls[..k]);
      StraySplit(decls, k);
      NextDecl(decls, k);
      var pairs, enclosing := Pairs(None, PreOrders(decls[..k])), Enclosing(decls[..k]);
      var name, c := Resolved(decls[k]), Carry(None, PreOrders(decls[..k]));
      var caller := if name.Some? then name.value else if c.Some? then c.value else "";
      SameAfter(pairs, enclosing, Attribute(caller, Callees(PreOrder(decls[k]))), name.Some?, c.Some?);
    }
  }

  /** The carried caller is the enclosing function for every call of the file exactly when no call
      outside a resolved function follows a resolved function. */
  lemma CallerIsEnclosing(src: SourceFile)
    requires GoFileShape(src.ast)
    ensures FilePairs(src) == Enclosing(src.ast.kids) <==> NoStray(src.ast.kids)
  {
    var kids := PreOrders(src.ast.kids);
    PairsAppend(None, [src.ast], kids);
    assert [src.ast][..0] == [];
    assert Carry(None, [src.ast]) == None && Pairs(None, [src.ast]) == [];
    assert [] + Pairs(None, kids) == Pairs(None, kids);
    DeclsPairs(src.ast.kids);
  }

  lemma StrayNodes(f: Def, g: string, i: Info, d: string)
    ensures var call := Node(CallExpr(Some(g)), i, []);
            var func, variable := Node(FuncDecl(Some(f), d), i, []), Node(GenDecl(VarTok), i, [call]);
            PreOrders([func, variable]) == [func, variable, call] && PreOrder(func) == [func]
  {
    var call := Node(CallExpr(Some(g)), i, []);
    var func, variable := Node(FuncDecl(Some(f), d), i, []), Node(GenDecl(VarTok), i, [call]);
    assert [func, variable][..1] == [func] && [func][..0] == [] && [call][..0] == [];
    assert PreOrder(call) == [call] && PreOrder(func) == [func];
    assert PreOrders([call]) == [call] && PreOrders([func]) == [func];
    assert PreOrder(variable) == [variable, call];
  }

  lemma StrayPairs(f: string, g: string, func: Node, variable: Node, call: Node)
    requires Resolved(func) == Some(f) && Callee(func).None?
    requires Resolved(variable).None? && Callee(variable).None?
    requires Resolved(call).None? && Callee(call) == Some(g)
    ensures Pairs(None, [func, variable, call]) == [(f, g)]
  {
    hide *;
    Single(None, func);
    Single(Some(f), variable);
    Single(Some(f), call);
    PairsAppend(None, [func], [variable, call]);
    PairsAppend(Some(f), [variable], [call]);
    assert [func] + [variable, call] == [func, variable, call] && [variable] + [call] == [variable, call];
    assert PairOf(None, func) == [] && PairOf(Some(f), variable) == [] &&
        PairOf(Some(f), call) == [(f, g)] by { PairsOfThree(f, g, func, variable, call); }
  }

  lemma PairsOfThree(f: string, g: string, func: Node, variable: Node, call: Node)
    requires Callee(func).None? && Callee(variable).None? && Callee(call) == Some(g)
    ensures PairOf(None, func) == [] && PairOf(Some(f), variable) == [] && PairOf(Some(f), call) == [(f, g)]
  {
  }

  /** The failing case: a package variable initialised by a call, after a function. The call is
      recorded as made by the function. */
  lemma StrayExample(f: Def, g: string, i: Info, d: string)
    requires f.isFunc
    ensures var call := Node(CallExpr(Some(g)), i, []);
            var decls := [Node(FuncDecl(Some(f), d), i, []), Node(GenDecl(VarTok), i, [call])];
            FilePairs(SourceFile(true, true, Node(FileKind, i, decls), [])) == [(f.fqName, g)] && Enclosing(decls) == []
  {
    var call := Node(CallExpr(Some(g)), i, []);
    var func, variable := Node(FuncDecl(Some(f), d), i, []), Node(GenDecl(VarTok), i, [call]);
    var file := Node(FileKind, i, [func, variable]);
    StrayNodes(f, g, i, d);
    StrayPairs(f.fqName, g, func, variable, call);
    PairsAppend(None, [file], [func, variable, call]);
    Single(None, file);
    Single(None, func);
    Single(None, call);
    assert PairOf(None, file) == [];
    assert [func, variable][..1] == [func] && [func][..0] == [];
    hide Pairs, Carry, Callees, PreOrders;
    assert Attribute(f.fqName, []) == [] && Enclosing([]) == [];
    assert Enclosing([func]) == [] + [];
  }

  lemma Single(c: Option<string>, n: Node)
    ensures Carry(c, [n]) == if Resolved(n).Some? then Resolved(n) else c
    ensures Pairs(c, [n]) == PairOf(c, n)
    ensures Callees([n]) == if Callee(n).Some? then [Callee(n).value] else []
  {
    assert [n][..0] == [];
    assert [] + PairOf(c, n) == PairOf(c, n);
  }

  // ---------- The pairs against the tree ----------

  ghost predicate FuncAt(ns: seq<Node>, h: nat, name: string) {
    && h < |ns| && ns[h].kind.FuncDecl? && ns[h].kind.def.Some?
    && ns[h].kind.def.value.isFunc && ns[h].kind.def.value.fqName == name
  }

  /** The last function declared before node k is that of the name. */
  ghost predicate LastFunc(ns: seq<Node>, k: nat, h: nat, name: string) {
    h < k && FuncAt(ns, h, name) && forall i: nat, other :: h < i < k ==> !FuncAt(ns, i, other)
  }

  /** Node k is a resolved call, reached after a function: the call is charged to the last one before it. */
  ghost predicate CallAt(ns: seq<Node>, k: nat, caller: string, callee: string) {
    k < |ns| && ns[k].kind == CallExpr(Some(callee)) && exists h: nat :: LastFunc(ns, k, h, caller)
  }

  lemma LastFuncNext(ns: seq<Node>, k: nat, h: nat, name: string)
    requires |ns| == k + 1
    ensures LastFunc(ns, k + 1, h, name) <==>
            if Resolved(ns[k]).Some? then h == k && Resolved(ns[k]) == Some(name) else LastFunc(ns[..k], k, h, name)
  {
    assert forall i: nat, other :: i < k ==> (FuncAt(ns, i, other) <==> FuncAt(ns[..k], i, other));
    assert forall other :: FuncAt(ns, k, other) <==> Resolved(ns[k]) == Some(other);
    if Resolved(ns[k]).Some? { assert FuncAt(ns, k, Resolved(ns[k]).value); }
  }

  lemma {:induction false} CarryIs(ns: seq<Node>, name: string)
    ensures Carry(None, ns) == Some(name) <==> exists h: nat :: LastFunc(ns, |ns|, h, name)
  {
    if ns != [] {
      var k := |ns| - 1;
      CarryIs(ns[..k], name);
      assert |ns[..k]| == k && |ns| == k + 1;
      LastFuncNext(ns, k, k, name);
      hide LastFunc, Resolved;
      if h: nat :| LastFunc(ns, |ns|, h, name) { LastFuncNext(ns, k, h, name); }
      if h: nat :| LastFunc(ns[..k], k, h, name) { LastFuncNext(ns, k, h, name); }
    }
  }

  lemma EarlierCall(ns: seq<Node>, n: nat, k: nat, caller: string, callee: string)
    requires |ns| == n + 1
    ensures CallAt(ns[..n], k, caller, callee) <==> CallAt(ns, k, caller, callee) && k < n
    ensures CallAt(ns, n, caller, callee) <==> Callee(ns[n]) == Some(callee) && Carry(None, ns[..n]) == Some(caller)
  {
    assert forall i: nat, other :: i < n ==> (FuncAt(ns, i, other) <==> FuncAt(ns[..n], i, other));
    assert forall h: nat, m: nat :: m <= n ==> (LastFunc(ns, m, h, caller) <==> LastFunc(ns[..n], m, h, caller));
    CarryIs(ns[..n], caller);
    assert |ns[..n]| == n;
  }

  /** The pairs are those of the calls at the given nodes, which are in order and leave none out. */
  ghost predicate PairsAt(ns: seq<Node>, pairs: seq<(string, string)>, at: seq<nat>) {
    && |at| == |pairs| && (forall i, j :: 0 <= i < j < |at| ==> at[i] < at[j])
    && (forall i :: 0 <= i < |at| ==> CallAt(ns, at[i], pairs[i].0, pairs[i].1))
    && (forall k: nat, caller, callee :: CallAt(ns, k, caller, callee) ==> k in at)
  }

  lemma PairsAtNext(ns: seq<Node>, n: nat, pairs: seq<(string, string)>, at: seq<nat>)
    requires |ns| == n + 1 && PairsAt(ns[..n], pairs, at)
    ensures var more := PairOf(Carry(None, ns[..n]), ns[n]);
            PairsAt(ns, pairs + more, if more == [] then at else at + [n])
  {
    forall i | 0 <= i < |at| ensures at[i] < n && CallAt(ns, at[i], pairs[i].0, pairs[i].1) {
      EarlierCall(ns, n, at[i], pairs[i].0, pairs[i].1);
    }
    forall k: nat, caller, callee | CallAt(ns, k, caller, callee) ensures k < n ==> k in at {
      EarlierCall(ns, n, k, caller, callee);
    }
    var more := PairOf(Carry(None, ns[..n]), ns[n]);
    forall caller, callee ensures CallAt(ns, n, caller, callee) <==> more == [(caller, callee)] {
      EarlierCall(ns, n, n, caller, callee);
    }
    assert forall k: nat, caller, callee :: CallAt(ns, k, caller, callee) ==> k <= n;
    hide CallAt, PairOf, Carry;
    if more == [] {
      assert pairs + more == pairs;
    } else {
      OnePair(ns, n, more);
      LastPair(ns, n, pairs, at, more[0]);
    }
  }

  lemma OnePair(ns: seq<Node>, n: nat, more: seq<(string, string)>)
    requires n < |ns| && more == PairOf(Carry(None, ns[..n]), ns[n]) && more != []
    ensures more == [more[0]]
  {
  }

  lemma LastPair(ns: seq<Node>, n: nat, pairs: seq<(string, string)>, at: seq<nat>, last: (string, string))
    requires |at| == |pairs| && (forall i, j :: 0 <= i < j < |at| ==> at[i] < at[j])
    requires forall i :: 0 <= i < |at| ==> at[i] < n && CallAt(ns, at[i], pairs[i].0, pairs[i].1)
    requires forall k: nat, caller, callee :: CallAt(ns, k, caller, callee) ==> k in at || k == n
    requires CallAt(ns, n, last.0, last.1)
    ensures PairsAt(ns, pairs + [last], at + [n])
  {
    hide CallAt;
    var at', all := at + [n], pairs + [last];
    forall i | 0 <= i < |at'| ensures CallAt(ns, at'[i], all[i].0, all[i].1) {
      if i < |at| { assert at'[i] == at[i] && all[i] == pairs[i]; }
    }
    forall k: nat, caller, callee | CallAt(ns, k, caller, callee) ensures k in at' { assert at'[|at|] == n; }
  }

  /** The pairs of a file are its resolved calls in the order of the walk, each charged to the last function declared
      before it; calls before any function are left out, and so are those that name no known function. */
  lemma {:induction false} PairsInOrder(ns: seq<Node>) returns (at: seq<nat>)
    ensures PairsAt(ns, Pairs(None, ns), at)
  {
    at := [];
    if ns != [] {
      var n := |ns| - 1;
      at := PairsInOrder(ns[..n]);
      PairsAtNext(ns, n, Pairs(None, ns[..n]), at);
      hide PairsAt;
      if PairOf(Carry(None, ns[..n]), ns[n]) != [] { at := at + [n]; }
    }
  }

  // ---------- How often an edge occurs ----------

  ghost predicate InjectiveNames(m: map<string, Id>) {
    forall a, b :: a in m && b in m && m[a] == m[b] ==> a == b
  }

  lemma {:induction false} CountPairs(pairs: seq<(string, string)>, m: map<string, Id>, repo: Id, file: Id, a: string,
                                      b: string)
    requires InjectiveNames(m) && a in m && b in m
    ensures multiset(EdgesOf(pairs, m, repo, file))[CallEdge(repo, m[a], m[b], file)] == multiset(pairs)[(a, b)]
  {
    if pairs != [] {
      var k := |pairs| - 1;
      var last := pairs[k];
      var rest := if last.0 in m && last.1 in m then [CallEdge(repo, m[last.0], m[last.1], file)] else [];
      assert EdgesOf(pairs, m, repo, file) == EdgesOf(pairs[..k], m, repo, file) + rest;
      hide EdgesOf;
      CountPairs(pairs[..k], m, repo, file, a, b);
      CountLast(pairs, (a, b));
      assert multiset(rest)[CallEdge(repo, m[a], m[b], file)] == if last == (a, b) then 1 else 0;
    }
  }

  /** An edge of another file is not among those of this one. */
  lemma NotInFile(u: Syntax, fileMap: map<Abs, Id>, m: map<string, Id>, repo: Id, e: CallEdge)
    requires u.abs in fileMap ==> fileMap[u.abs] != e.file
    ensures multiset(FileEdges(u, fileMap, m, repo))[e] == 0
  {
    if u.abs in fileMap { EdgesInMap(FilePairs(u.src), m, repo, fileMap[u.abs]); }
    hide EdgesOf, FilePairs;
    assert e !in FileEdges(u, fileMap, m, repo);
  }

  /** No file but the one at position k is the given file. */
  ghost predicate OnlyAt(files: seq<Syntax>, fileMap: map<Abs, Id>, file: Id, k: nat) {
    forall j :: 0 <= j < |files| && j != k && files[j].abs in fileMap ==> fileMap[files[j].abs] != file
  }

  /** The edges of one file among those of all: the other files yield none of them. */
  lemma {:induction false} CountInFile(files: seq<Syntax>, fileMap: map<Abs, Id>, m: map<string, Id>, repo: Id, k: nat,
                                       e: CallEdge)
    requires OnlyAt(files, fileMap, e.file, k)
    ensures multiset(AllEdges(files, fileMap, m, repo))[e] ==
            if k < |files| then multiset(FileEdges(files[k], fileMap, m, repo))[e] else 0
  {
    if files != [] {
      var n := |files| - 1;
      assert files[..n + 1] == files;
      NextFile(files, n, fileMap, m, repo);
      if k != n { NotInFile(files[n], fileMap, m, repo, e); }
      hide FileEdges, AllEdges;
      CountInFile(files[..n], fileMap, m, repo, k, e);
    }
  }

  /** How often a whole-repository build yields an edge depends only on the source of the file the edge
      is in and on the names of its two ends. */
  lemma CountInBuild(files: seq<Syntax>, fileMap: map<Abs, Id>, m: map<string, Id>, repo: Id,
                     k: nat, a: string, b: string)
    requires k < |files| && files[k].abs in fileMap
    requires forall i, j :: 0 <= i < j < |files| ==> files[i].abs != files[j].abs
    requires forall x, y :: x in fileMap && y in fileMap && fileMap[x] == fileMap[y] ==> x == y
    requires InjectiveNames(m) && a in m && b in m
    ensures multiset(AllEdges(files, fileMap, m, repo))[CallEdge(repo, m[a], m[b], fileMap[files[k].abs])] ==
            multiset(FilePairs(files[k].src))[(a, b)]
  {
    var e := CallEdge(repo, m[a], m[b], fileMap[files[k].abs]);
    CountInFile(files, fileMap, m, repo, k, e);
    hide AllEdges, EdgesOf, FilePairs, InjectiveNames;
    CountPairs(FilePairs(files[k].src), m, repo, e.file, a, b);
  }
}
