/** Where the chunks of a source end up: the lines of its declarations, and the symbol each chunk is given to. */
module Placement {
  import opened Base
  import opened SourceTree
  import opened Symbols
  import opened Chunker

  // ---------- The lines of a tree ----------

  predicate IsDeclaration(n: Node) { n.kind.FuncDecl? || n.kind.TypeSpec? || n.kind.ValueSpec? }

  predicate InLines(inner: Node, outer: Node) {
    outer.info.startLine <= inner.info.startLine && inner.info.endLine <= outer.info.endLine
  }

  ghost predicate Holds(n: Node) { exists k :: 0 <= k < |PreOrder(n)| && IsDeclaration(PreOrder(n)[k]) }

  ghost predicate Follows(earlier: Node, later: Node) {
    Holds(earlier) && Holds(later) ==> earlier.info.endLine <= later.info.startLine
  }

  /** The lines of a syntax tree: what holds a declaration lies within its parent and does not begin before an earlier
      sibling that holds one ends. They may share a line. */
  ghost predicate InOrder(n: Node) {
    && (Holds(n) ==> n.info.startLine <= n.info.endLine)
    && (forall k :: 0 <= k < |n.kids| ==> InOrder(n.kids[k]) && (Holds(n.kids[k]) ==> InLines(n.kids[k], n)))
    && (forall i, j :: 0 <= i < j < |n.kids| ==> Follows(n.kids[i], n.kids[j]))
  }

  /** Of two declarations the first encloses the second, or the second begins no earlier than the first ends. */
  ghost predicate Laid(ns: seq<Node>) {
    && (forall i :: 0 <= i < |ns| && IsDeclaration(ns[i]) ==> ns[i].info.startLine <= ns[i].info.endLine)
    && (forall i, j :: 0 <= i < j < |ns| && IsDeclaration(ns[i]) && IsDeclaration(ns[j]) ==>
          InLines(ns[j], ns[i]) || ns[i].info.endLine <= ns[j].info.startLine)
  }

  ghost predicate AllWithin(ns: seq<Node>, n: Node) {
    forall i :: 0 <= i < |ns| && IsDeclaration(ns[i]) ==> InLines(ns[i], n)
  }

  ghost predicate AllBefore(a: seq<Node>, b: seq<Node>) {
    forall i, j :: 0 <= i < |a| && 0 <= j < |b| && IsDeclaration(a[i]) && IsDeclaration(b[j]) ==>
      a[i].info.endLine <= b[j].info.startLine
  }

  lemma LaidAppend(a: seq<Node>, b: seq<Node>)
    requires Laid(a) && Laid(b) && AllBefore(a, b)
    ensures Laid(a + b)
  {
  }

  lemma BeforeAppend(a: seq<Node>, b: seq<Node>, c: seq<Node>)
    requires AllBefore(a, c) && AllBefore(b, c)
    ensures AllBefore(a + b, c)
  {
  }

  lemma WithinAppend(a: seq<Node>, b: seq<Node>, n: Node)
    requires AllWithin(a, n) && AllWithin(b, n)
    ensures AllWithin(a + b, n)
  {
  }

  lemma NoneHeld(n: Node, m: Node)
    requires !Holds(n)
    ensures AllWithin(PreOrder(n), m)
  {
  }

  lemma WithinTrans(ns: seq<Node>, k: Node, n: Node)
    requires AllWithin(ns, k) && InLines(k, n)
    ensures AllWithin(ns, n)
  {
  }

  lemma KidBefore(a: Node, b: Node)
    requires AllWithin(PreOrder(a), a) && AllWithin(PreOrder(b), b) && Follows(a, b)
    ensures AllBefore(PreOrder(a), PreOrder(b))
  {
  }

  lemma {:induction false} EarlierKids(ns: seq<Node>, last: Node)
    requires AllWithin(PreOrder(last), last)
    requires forall k :: 0 <= k < |ns| ==> AllWithin(PreOrder(ns[k]), ns[k]) && Follows(ns[k], last)
    ensures AllBefore(PreOrders(ns), PreOrder(last))
  {
    if ns != [] {
      var k := |ns| - 1;
      hide AllWithin, Holds, Follows, AllBefore, PreOrder;
      EarlierKids(ns[..k], last);
      KidBefore(ns[k], last);
      BeforeAppend(PreOrders(ns[..k]), PreOrder(ns[k]), PreOrder(last));
    }
  }

  lemma NodeLines(n: Node)
    requires InOrder(n)
    ensures Laid(PreOrder(n)) && AllWithin(PreOrder(n), n)
    decreases n, 1
  {
    KidsLines(n.kids, n);
    assert PreOrder(n) == [n] + PreOrders(n.kids);
    if Holds(n) {
      assert Laid([n]);
      RootFirst(n, PreOrders(n.kids));
    } else {
      NoneHeld(n, n);
    }
  }

  lemma RootFirst(n: Node, below: seq<Node>)
    requires Laid(below) && AllWithin(below, n) && n.info.startLine <= n.info.endLine
    ensures Laid([n] + below) && AllWithin([n] + below, n)
  {
  }

  lemma LastWithin(k: Node, n: Node)
    requires AllWithin(PreOrder(k), k) && (Holds(k) ==> InLines(k, n))
    ensures AllWithin(PreOrder(k), n)
  {
    hide PreOrder, AllWithin;
    if Holds(k) { WithinTrans(PreOrder(k), k, n); } else { NoneHeld(k, n); }
  }

  lemma {:induction false} KidsLines(ns: seq<Node>, n: Node)
    requires forall k :: 0 <= k < |ns| ==> InOrder(ns[k]) && (Holds(ns[k]) ==> InLines(ns[k], n))
    requires forall i, j :: 0 <= i < j < |ns| ==> Follows(ns[i], ns[j])
    ensures Laid(PreOrders(ns)) && AllWithin(PreOrders(ns), n)
    decreases ns, 0
  {
    if ns != [] {
      var k := |ns| - 1;
      hide InOrder, Holds, Follows, Laid, AllWithin, AllBefore, PreOrder, InLines;
      KidsLines(ns[..k], n);
      forall i | 0 <= i < |ns| ensures Laid(PreOrder(ns[i])) && AllWithin(PreOrder(ns[i]), ns[i]) { NodeLines(ns[i]); }
      LastWithin(ns[k], n);
      EarlierKids(ns[..k], ns[k]);
      LaidAppend(PreOrders(ns[..k]), PreOrder(ns[k]));
      WithinAppend(PreOrders(ns[..k]), PreOrder(ns[k]), n);
    }
  }

  // ---------- The declaration of each symbol ----------

  ghost predicate LinesOf(s: SymbolData, n: Node) { s.startLine == n.info.startLine && s.endLine == n.info.endLine }

  lemma {:induction false} NameLines(st: Scan, names: seq<Name>, info: Info)
    ensures forall s :: s in NamesNew(st, names, info) ==> s.startLine == info.startLine && s.endLine == info.endLine
  {
    if names != [] { NameLines(st, names[..|names| - 1], info); }
  }

  lemma NewLines(st: Scan, n: Node)
    ensures forall s :: s in New(st, n) ==> IsDeclaration(n) && LinesOf(s, n)
  {
    match n.kind {
      case ValueSpec(names) => NameLines(st, names, n.info);
      case _ =>
    }
  }

  /** Symbol s is recorded at node k of the walk. */
  ghost predicate RecordedAt(st: Scan, ns: seq<Node>, s: SymbolData, k: nat) {
    k < |ns| && s in New(State(st, ns[..k]), ns[k])
  }

  /** The symbols of a walk are recorded at nodes in walk order. */
  ghost predicate Sources(st: Scan, ns: seq<Node>, symbols: seq<SymbolData>, at: seq<nat>) {
    && |at| == |symbols|
    && (forall i :: 0 <= i < |at| ==> RecordedAt(st, ns, symbols[i], at[i]))
    && (forall i, j :: 0 <= i < j < |at| ==> at[i] <= at[j])
  }

  lemma SourcesNext(st: Scan, ns: seq<Node>, n: Node, symbols: seq<SymbolData>, at: seq<nat>)
    requires Sources(st, ns, symbols, at)
    ensures Sources(st, ns + [n], symbols, at)
  {
    forall i | 0 <= i < |at| ensures RecordedAt(st, ns + [n], symbols[i], at[i]) {
      assert RecordedAt(st, ns, symbols[i], at[i]);
      assert (ns + [n])[..at[i]] == ns[..at[i]];
    }
  }

  lemma SourcesMore(st: Scan, ns: seq<Node>, k: nat, symbols: seq<SymbolData>, at: seq<nat>, more: seq<SymbolData>)
    requires Sources(st, ns, symbols, at) && |ns| == k + 1 && more == New(State(st, ns[..k]), ns[k])
    requires forall i :: 0 <= i < |at| ==> at[i] <= k
    ensures Sources(st, ns, symbols + more, at + seq(|more|, _ => k))
  {
    var at' := at + seq(|more|, _ => k);
    forall i | 0 <= i < |at'| ensures RecordedAt(st, ns, (symbols + more)[i], at'[i]) {
      if i < |at| {
        assert RecordedAt(st, ns, symbols[i], at[i]);
      } else {
        assert more[i - |at|] in more;
      }
    }
  }

  lemma {:induction false} SourcesOf(st: Scan, ns: seq<Node>) returns (at: seq<nat>)
    ensures Sources(st, ns, Out(st, ns), at)
  {
    at := [];
    if ns != [] {
      var k := |ns| - 1;
      at := SourcesOf(st, ns[..k]);
      var symbols, more := Out(st, ns[..k]), New(State(st, ns[..k]), ns[k]);
      assert Out(st, ns) == symbols + more;
      assert forall i :: 0 <= i < |at| ==> RecordedAt(st, ns[..k], symbols[i], at[i]) ==> at[i] <= k;
      hide Out, New, State;
      SourcesNext(st, ns[..k], ns[k], symbols, at);
      assert ns[..k] + [ns[k]] == ns;
      SourcesMore(st, ns, k, symbols, at, more);
      at := at + seq(|more|, _ => k);
    }
  }

  // ---------- Nested symbols ----------

  /** A declaration of several lines begins on a line of its own: not where an earlier one, next to it, ends. */
  ghost predicate OwnFirstLine(ns: seq<Node>) {
    forall i, j :: 0 <= i < j < |ns| && IsDeclaration(ns[i]) && IsDeclaration(ns[j]) ==>
      ns[i].info.endLine == ns[j].info.startLine ==> InLines(ns[j], ns[i])
  }

  lemma PairNested(ns: seq<Node>, st: Scan, symbols: seq<SymbolData>, at: seq<nat>, i: nat, j: nat)
    requires Laid(ns) && OwnFirstLine(ns) && Sources(st, ns, symbols, at) && i < j < |symbols|
    ensures Within(symbols[j], symbols[i]) || symbols[i].endLine < symbols[j].startLine
    ensures symbols[i].startLine <= symbols[i].endLine
  {
    hide New, State;
    assert RecordedAt(st, ns, symbols[i], at[i]) && RecordedAt(st, ns, symbols[j], at[j]);
    NewLines(State(st, ns[..at[i]]), ns[at[i]]);
    NewLines(State(st, ns[..at[j]]), ns[at[j]]);
  }

  lemma LineOrder(ns: seq<Node>, st: Scan, symbols: seq<SymbolData>, at: seq<nat>, i: nat)
    requires Laid(ns) && Sources(st, ns, symbols, at) && i < |symbols|
    ensures symbols[i].startLine <= symbols[i].endLine
  {
    hide New, State;
    assert RecordedAt(st, ns, symbols[i], at[i]);
    NewLines(State(st, ns[..at[i]]), ns[at[i]]);
  }

  /** The symbols of a source whose tree is laid out in order, each declaration of several lines on a first line of its
      own, are nested or disjoint. */
  lemma SymbolsNest(src: SourceFile)
    requires InOrder(src.ast) && OwnFirstLine(PreOrder(src.ast))
    ensures Nested(SymbolsOf(src))
  {
    var ns, st := PreOrder(src.ast), Scan({}, NoTok);
    NodeLines(src.ast);
    var at := SourcesOf(st, ns);
    var symbols := SymbolsOf(src);
    hide InOrder, PreOrder, Laid, OwnFirstLine, Sources, SymbolsOf;
    forall i | 0 <= i < |symbols| ensures symbols[i].startLine <= symbols[i].endLine {
      LineOrder(ns, st, symbols, at, i);
    }
    forall i, j | 0 <= i < j < |symbols|
      ensures Within(symbols[j], symbols[i]) || symbols[i].endLine < symbols[j].startLine
    {
      PairNested(ns, st, symbols, at, i, j);
    }
  }

  lemma {:induction false} PlannedFirst(raw: seq<ChunkData>, symbols: seq<SymbolData>)
    ensures forall p :: p in PlanOf(raw, symbols) ==>
              p.sym < |symbols| && p.sym == FirstMatch(symbols, p.data.startLine, p.data.endLine)
  {
    if raw != [] { PlannedFirst(raw[..|raw| - 1], symbols); }
  }

  /** In such a source every chunk is given to the outermost symbol around it: any other that covers its lines lies
      within that one. */
  lemma ChunkGoesOutermost(src: SourceFile, p: Planned, j: nat)
    requires InOrder(src.ast) && OwnFirstLine(PreOrder(src.ast))
    requires p in ChunksOf(src) && p.data.startLine <= p.data.endLine
    requires j < |SymbolsOf(src)| && Covers(SymbolsOf(src)[j], p.data.startLine, p.data.endLine)
    ensures p.sym <= j && Covers(SymbolsOf(src)[p.sym], p.data.startLine, p.data.endLine)
    ensures Within(SymbolsOf(src)[j], SymbolsOf(src)[p.sym])
  {
    SymbolsNest(src);
    PlannedFirst(RawChunks(src), SymbolsOf(src));
    hide InOrder, OwnFirstLine, PreOrder, RawChunks, SymbolsOf, PlanOf;
    FirstMatchIsOutermost(SymbolsOf(src), p.data.startLine, p.data.endLine, j);
  }

  // ---------- The symbol of a declaration's chunk ----------

  /** The symbol a function or type declaration yields. */
  function OwnSymbol(n: Node): SymbolData
    requires YieldsSymbol(n)
  {
    match n.kind
    case FuncDecl(Some(d), detail) => SymbolData(d.fqName, FunctionSym, n.info.startLine, n.info.endLine, detail)
    case TypeSpec(Some(d), shape, detail) =>
      SymbolData(d.fqName, if shape.InterfaceType? then InterfaceSym else TypeSym, n.info.startLine, n.info.endLine,
        detail)
  }

  /** No other declaration of the file covers the lines of node k. */
  ghost predicate OnOwnLines(ns: seq<Node>, k: nat)
    requires k < |ns|
  {
    forall i :: 0 <= i < |ns| && i != k && IsDeclaration(ns[i]) ==> !InLines(ns[k], ns[i])
  }

  lemma OnlyOwnSymbol(st: Scan, n: Node)
    requires YieldsSymbol(n)
    ensures forall s :: s in New(st, n) ==> s == OwnSymbol(n)
  {
  }

  /** Whatever symbol covers the lines of such a declaration is its own. */
  lemma CoveringIsOwn(st: Scan, ns: seq<Node>, symbols: seq<SymbolData>, at: seq<nat>, k: nat, m: nat)
    requires k < |ns| && YieldsSymbol(ns[k]) && OnOwnLines(ns, k) && Sources(st, ns, symbols, at) && m < |symbols|
    requires Covers(symbols[m], ns[k].info.startLine, ns[k].info.endLine)
    ensures symbols[m] == OwnSymbol(ns[k])
  {
    hide New, State;
    assert RecordedAt(st, ns, symbols[m], at[m]);
    NewLines(State(st, ns[..at[m]]), ns[at[m]]);
    OnlyOwnSymbol(State(st, ns[..k]), ns[k]);
  }

  /** The chunk of a function or type that no other declaration covers is kept, with the symbol of that declaration:
      its name, its kind, its lines. */
  lemma DeclarationOwnsChunk(src: SourceFile, k: nat, c: ChunkData)
    requires k < |PreOrder(src.ast)| && YieldsSymbol(PreOrder(src.ast)[k])
    requires SingleDefs(PreOrder(src.ast)) && OnOwnLines(PreOrder(src.ast), k)
    requires c in RawChunks(src) && !Blank(c.content)
    requires c.startLine == PreOrder(src.ast)[k].info.startLine && c.endLine == PreOrder(src.ast)[k].info.endLine
    ensures exists p :: p in ChunksOf(src) && p.data == c && SymbolsOf(src)[p.sym] == OwnSymbol(PreOrder(src.ast)[k])
  {
    var ns, st := PreOrder(src.ast), Scan({}, NoTok);
    var at := SourcesOf(st, ns);
    var j := DeclarationHasSymbol(src, ns[k]);
    var symbols := SymbolsOf(src);
    assert symbols == Out(st, ns) && ChunksOf(src) == PlanOf(RawChunks(src), symbols);
    assert Covers(symbols[j], c.startLine, c.endLine);
    hide *;
    var m := FirstMatch(symbols, c.startLine, c.endLine);
    CoveringIsOwn(st, ns, symbols, at, k, m);
    PlanHas(RawChunks(src), symbols, c);
  }

  /** In particular every function that no other declaration covers is indexed under its own symbol, with its own
      text. */
  lemma FunctionIndexed(src: SourceFile, k: nat, d: Def, detail: string)
    requires k < |PreOrder(src.ast)| && PreOrder(src.ast)[k].kind == FuncDecl(Some(d), detail) && d.isFunc
    requires SingleDefs(PreOrder(src.ast)) && OnOwnLines(PreOrder(src.ast), k)
    requires !Blank(PreOrder(src.ast)[k].info.text)
    ensures var i := PreOrder(src.ast)[k].info;
            exists p :: p in ChunksOf(src) && p.data == ChunkData(i.text, FunctionChunk, i.startLine, i.endLine) &&
                        SymbolsOf(src)[p.sym] == SymbolData(d.fqName, FunctionSym, i.startLine, i.endLine, detail)
  {
    RawChunksAre(src);
    var i := PreOrder(src.ast)[k].info;
    var c := ChunkData(i.text, FunctionChunk, i.startLine, i.endLine);
    assert c in RawChunks(src) by { assert PreOrder(src.ast)[k] in PreOrder(src.ast); }
    assert OwnSymbol(PreOrder(src.ast)[k]) == SymbolData(d.fqName, FunctionSym, i.startLine, i.endLine, detail);
    hide PreOrder, RawChunks, SymbolsOf, SingleDefs, OnOwnLines, OwnSymbol, Blank;
    DeclarationOwnsChunk(src, k, c);
  }

  /** What a walk visits below a node it visits. */
  lemma {:induction false} KidVisited(ns: seq<Node>, j: nat)
    requires j < |ns|
    ensures ns[j] in PreOrders(ns)
  {
    var n := |ns| - 1;
    if j < n { KidVisited(ns[..n], j); } else { assert PreOrder(ns[n])[0] == ns[n]; }
  }

  lemma {:induction false} BelowVisited(n: Node, m: Node, j: nat)
    requires m in PreOrder(n) && j < |m.kids|
    ensures m.kids[j] in PreOrder(n)
    decreases n, 1
  {
    if m == n {
      KidVisited(n.kids, j);
    } else {
      BelowVisitedAmong(n.kids, m, j);
    }
  }

  lemma {:induction false} BelowVisitedAmong(ns: seq<Node>, m: Node, j: nat)
    requires m in PreOrders(ns) && j < |m.kids|
    ensures m.kids[j] in PreOrders(ns)
    decreases ns, 0
  {
    var k := |ns| - 1;
    if m in PreOrder(ns[k]) { BelowVisited(ns[k], m, j); } else { BelowVisitedAmong(ns[..k], m, j); }
  }

  /** Every struct and interface that no other declaration covers is indexed under its own symbol, with its own text:
      the walk reaches it below its general declaration, and nothing else gets its chunk. */
  lemma TypeIndexed(src: SourceFile, g: nat, j: nat, d: Def, shape: Shape, detail: string)
    requires var ns := PreOrder(src.ast);
             && g < |ns| && ns[g].kind.GenDecl? && j < |ns[g].kids|
             && ns[g].kids[j].kind == TypeSpec(Some(d), shape, detail) && d.hasPkg
             && shape in {StructType, InterfaceType} && SingleDefs(ns) && !Blank(ns[g].kids[j].info.text)
             && forall k :: 0 <= k < |ns| && ns[k] == ns[g].kids[j] ==> OnOwnLines(ns, k)
    ensures var i := PreOrder(src.ast)[g].kids[j].info;
            var kind := if shape == InterfaceType then InterfaceSym else TypeSym;
            exists p :: p in ChunksOf(src) && p.data == ChunkData(i.text, TypeChunk, i.startLine, i.endLine) &&
                        SymbolsOf(src)[p.sym] == SymbolData(d.fqName, kind, i.startLine, i.endLine, detail)
  {
    var ns := PreOrder(src.ast);
    var spec := ns[g].kids[j];
    BelowVisited(src.ast, ns[g], j);
    var k :| 0 <= k < |ns| && ns[k] == spec;
    RawChunksAre(src);
    var c := ChunkData(spec.info.text, TypeChunk, spec.info.startLine, spec.info.endLine);
    assert c in RawChunks(src) by { assert ns[g] in ns && spec in ns[g].kids; }
    assert OwnSymbol(spec) == SymbolData(d.fqName, if shape == InterfaceType then InterfaceSym else TypeSym,
                                         spec.info.startLine, spec.info.endLine, detail);
    hide PreOrder, RawChunks, SymbolsOf, SingleDefs, OnOwnLines, OwnSymbol, Blank;
    DeclarationOwnsChunk(src, k, c);
  }
}
