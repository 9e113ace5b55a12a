/** The input of an index run: the syntax trees of a cloned repository, with names already
    resolved, and the packages the loader reports for it. */
module SourceTree {
  import opened Base
  import opened Paths

  datatype Tok = NoTok | Const | VarTok | TypeTok | ImportTok

  /** The object an identifier defines: its identity, and the facts the extractor asks of it. */
  datatype Def = Def(obj: nat, isFunc: bool, hasPkg: bool, fqName: string)

  datatype Name = Name(blank: bool, def: Option<Def>, detail: string)
  datatype Shape = StructType | InterfaceType | OtherType
  datatype Info = Info(startLine: int, endLine: int, text: string)

  datatype Kind =
    | FileKind
    | GenDecl(tok: Tok)
    | FuncDecl(def: Option<Def>, detail: string)
    | TypeSpec(def: Option<Def>, shape: Shape, detail: string)
    | ValueSpec(names: seq<Name>)
    | CallExpr(callee: Option<string>)
    | OtherNode

  datatype Node = Node(kind: Kind, info: Info, kids: seq<Node>)

  /** The order in which ast.Inspect visits the tree when the visitor always continues. */
  function PreOrder(n: Node): seq<Node>
    decreases n, 1
  {
    [n] + PreOrders(n.kids)
  }

  function PreOrders(ns: seq<Node>): seq<Node>
    decreases ns, 0
  {
    if ns == [] then [] else PreOrders(ns[..|ns| - 1]) + PreOrder(ns[|ns| - 1])
  }

  /** A place in a walk: a node, and one of the specs or names it holds (0 where there is nothing to choose). */
  type Place = (nat, nat)

  predicate Earlier(x: Place, y: Place) { x.0 < y.0 || (x.0 == y.0 && x.1 < y.1) }

  function NameObjects(names: seq<Name>): set<nat> {
    set k | 0 <= k < |names| && names[k].def.Some? :: names[k].def.value.obj
  }

  function NodeObjects(n: Node): set<nat> {
    match n.kind
    case FuncDecl(Some(d), _) => {d.obj}
    case TypeSpec(Some(d), _, _) => {d.obj}
    case ValueSpec(names) => NameObjects(names)
    case _ => {}
  }

  ghost function Objects(ns: seq<Node>): set<nat> {
    set k, o | 0 <= k < |ns| && o in NodeObjects(ns[k]) :: o
  }

  datatype ImportSpec = ImportSpec(path: string, alias: Option<string>)

  /** A source file. built: the loader includes it (build constraints, file name). parses: the
      chunker's own parse of it succeeds. */
  datatype SourceFile = SourceFile(built: bool, parses: bool, ast: Node, imports: seq<ImportSpec>)

  type Tree = map<Rel, SourceFile>

  /** One loaded file, with the Go files of each package its package imports. */
  datatype Syntax = Syntax(abs: Abs, src: SourceFile, deps: map<string, seq<Abs>>)

  datatype Package = Package(syntax: seq<Syntax>)

  /** A clone in its own directory: what is on disk, and what the loader makes of it (None: the
      loader fails). */
  datatype Clone = Clone(root: Abs, tree: Tree, pkgs: Option<seq<Package>>)

  function Files(pkgs: seq<Package>): seq<Syntax> {
    if pkgs == [] then [] else Files(pkgs[..|pkgs| - 1]) + pkgs[|pkgs| - 1].syntax
  }

  lemma NextPackage(pkgs: seq<Package>, i: nat)
    requires i < |pkgs|
    ensures Files(pkgs[..i + 1]) == Files(pkgs[..i]) + pkgs[i].syntax
  {
    TakeNext(pkgs, i);
  }

  lemma {:induction false} FilesPrefix(pkgs: seq<Package>, i: nat)
    requires i <= |pkgs|
    ensures Files(pkgs[..i]) <= Files(pkgs)
    decreases |pkgs| - i
  {
    if i == |pkgs| {
      assert pkgs[..i] == pkgs;
    } else {
      FilesPrefix(pkgs, i + 1);
      NextPackage(pkgs, i);
    }
  }

  /** The files of the package stand at position from of the whole list. */
  ghost predicate PackageIn(pkg: Package, all: seq<Syntax>, from: nat) {
    && from + |pkg.syntax| <= |all|
    && forall j :: 0 <= j < |pkg.syntax| ==> pkg.syntax[j] == all[from + j]
  }

  lemma PackageAt(pkgs: seq<Package>, i: nat)
    requires i < |pkgs|
    ensures |Files(pkgs[..i + 1])| == |Files(pkgs[..i])| + |pkgs[i].syntax| <= |Files(pkgs)|
    ensures PackageIn(pkgs[i], Files(pkgs), |Files(pkgs[..i])|)
  {
    FilesPrefix(pkgs, i + 1);
    NextPackage(pkgs, i);
    hide Files;
    forall j | 0 <= j < |pkgs[i].syntax|
      ensures pkgs[i].syntax[j] == Files(pkgs)[|Files(pkgs[..i])| + j]
    {
      assert Files(pkgs[..i + 1])[|Files(pkgs[..i])| + j] == pkgs[i].syntax[j];
    }
  }

  lemma SyntaxAt(pkg: Package, all: seq<Syntax>, from: nat, j: nat)
    requires PackageIn(pkg, all, from) && j < |pkg.syntax|
    ensures from + j < |all| && pkg.syntax[j] == all[from + j]
  {
  }

  lemma PackageBound(pkg: Package, all: seq<Syntax>, from: nat)
    requires PackageIn(pkg, all, from)
    ensures from + |pkg.syntax| <= |all|
  {
  }

  /** Nothing is loaded yet. */
  lemma FilesBegin(pkgs: seq<Package>)
    ensures pkgs[..0] == [] && |Files(pkgs[..0])| == 0
    ensures pkgs[..|pkgs|] == pkgs
  {
  }

  function RelOf(root: Abs, u: Syntax): Rel { if root <= u.abs then u.abs[|root|..] else [] }

  /** What the loader is assumed to report: exactly the built files of the clone, each once, each with
      its own syntax, and no object defined in two files. */
  ghost predicate LoadsFiles(files: seq<Syntax>, root: Abs, tree: Tree) {
    && (forall k :: 0 <= k < |files| ==> LoadedFrom(files[k], root, tree))
    && (forall rel :: rel in tree && tree[rel].built ==> IsGo(rel) && IsLoaded(files, Join(root, rel)))
    && (forall i, j :: 0 <= i < j < |files| ==> files[i].abs != files[j].abs)
    && (forall i, j :: 0 <= i < j < |files| ==>
          Objects(PreOrder(files[i].src.ast)) !! Objects(PreOrder(files[j].src.ast)))
  }

  ghost predicate LoadedFrom(u: Syntax, root: Abs, tree: Tree) {
    && root <= u.abs
    && RelOf(root, u) in tree
    && tree[RelOf(root, u)] == u.src
    && u.src.built
  }

  ghost predicate IsLoaded(files: seq<Syntax>, abs: Abs) {
    exists k :: 0 <= k < |files| && files[k].abs == abs
  }

  ghost predicate Loads(c: Clone) {
    c.pkgs.Some? ==> LoadsFiles(Files(c.pkgs.value), c.root, c.tree)
  }

  /** The file the index of a tree should hold at a path. */
  ghost function Expected(tree: Tree, p: Rel): Option<SourceFile> {
    if p in tree && tree[p].built then Some(tree[p]) else None
  }
}
