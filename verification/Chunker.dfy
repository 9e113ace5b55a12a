/** Chunks of a file and the symbol each one is given to. */
module Chunker {
  import opened Base
  import opened SourceTree
  import opened Symbols

  datatype ChunkKind = FunctionChunk | TypeChunk | OtherChunk

  /** A chunk without its ids; its hash is a function of its content and is left out. */
  datatype ChunkData = ChunkData(content: string, kind: ChunkKind, startLine: int, endLine: int)

  datatype Chunk = Chunk(id: Id, repo: Id, file: Id, symbol: Id, data: ChunkData)

  // ---------- Building the raw chunks ----------

  function ChunkOf(n: Node, kind: ChunkKind): ChunkData {
    ChunkData(n.info.text, kind, n.info.startLine, n.info.endLine)
  }

  predicate IsChunkedSpec(n: Node) {
    n.kind.TypeSpec? && (n.kind.shape.StructType? || n.kind.shape.InterfaceType?)
  }

  function SpecChunks(specs: seq<Node>): seq<ChunkData> {
    if specs == [] then []
    else
      var last := specs[|specs| - 1];
      SpecChunks(specs[..|specs| - 1]) + (if IsChunkedSpec(last) then [ChunkOf(last, TypeChunk)] else [])
  }

  function NodeChunks(n: Node): seq<ChunkData> {
    match n.kind
    case FuncDecl(_, _) => [ChunkOf(n, FunctionChunk)]
    case GenDecl(_) => SpecChunks(n.kids)
    case _ => []
  }

  function DeclChunks(ns: seq<Node>): seq<ChunkData> {
    if ns == [] then [] else DeclChunks(ns[..|ns| - 1]) + NodeChunks(ns[|ns| - 1])
  }

  /** One chunk per function, struct and interface; a file without any is one chunk. */
  function RawChunks(src: SourceFile): (r: seq<ChunkData>)
    ensures r != []
  {
    var chunks := DeclChunks(PreOrder(src.ast));
    if chunks == [] then [ChunkOf(src.ast, OtherChunk)] else chunks
  }

  lemma NextSpec(specs: seq<Node>, j: nat)
    requires j < |specs|
    ensures SpecChunks(specs[..j + 1]) ==
            SpecChunks(specs[..j]) + (if IsChunkedSpec(specs[j]) then [ChunkOf(specs[j], TypeChunk)] else [])
  {
    TakeNext(specs, j);
  }

  method BuildSpecs(specs: seq<Node>) returns (chunks: seq<ChunkData>)
    ensures chunks == SpecChunks(specs)
  {
    chunks := [];
    assert SpecChunks(specs[..0]) == [];
    hide SpecChunks, IsChunkedSpec, ChunkOf;
    for j := 0 to |specs|
      invariant chunks == SpecChunks(specs[..j])
    {
      NextSpec(specs, j);
      if IsChunkedSpec(specs[j]) {
        chunks := chunks + [ChunkOf(specs[j], TypeChunk)];
      }
    }
    assert specs[..|specs|] == specs;
  }

  lemma NextDecl(ns: seq<Node>, k: nat)
    requires k < |ns|
    ensures DeclChunks(ns[..k + 1]) == DeclChunks(ns[..k]) + NodeChunks(ns[k])
  {
    TakeNext(ns, k);
  }

  // ---------- The chunks against the declarations ----------

  /** The chunk asked for at a place: the text and lines of a function, of a struct or of an interface. */
  ghost predicate ChunkAt(ns: seq<Node>, at: Place, c: ChunkData) {
    && at.0 < |ns|
    && var n := ns[at.0];
       || (n.kind.FuncDecl? && at.1 == 0 &&
           c == ChunkData(n.info.text, FunctionChunk, n.info.startLine, n.info.endLine))
       || (n.kind.GenDecl? && at.1 < |n.kids| &&
           var spec := n.kids[at.1];
           spec.kind.TypeSpec? && spec.kind.shape in {StructType, InterfaceType} &&
           c == ChunkData(spec.info.text, TypeChunk, spec.info.startLine, spec.info.endLine))
  }

  /** The chunks are those asked for at the given places of the walk, which are in order and leave none out. */
  ghost predicate InWalkOrder(ns: seq<Node>, chunks: seq<ChunkData>, places: seq<Place>) {
    && |places| == |chunks|
    && (forall k :: 0 <= k < |places| ==> ChunkAt(ns, places[k], chunks[k]))
    && (forall i, j :: 0 <= i < j < |places| ==> Earlier(places[i], places[j]))
    && (forall at: Place, c :: ChunkAt(ns, at, c) ==> at in places)
  }

  ghost predicate SpecsAt(specs: seq<Node>, chunks: seq<ChunkData>, at: seq<nat>) {
    && |at| == |chunks| && (forall i, j :: 0 <= i < j < |at| ==> at[i] < at[j])
    && (forall k :: 0 <= k < |at| ==>
          && at[k] < |specs| && specs[at[k]].kind.TypeSpec?
          && specs[at[k]].kind.shape in {StructType, InterfaceType} && chunks[k] == ChunkOf(specs[at[k]], TypeChunk))
    && (forall j :: 0 <= j < |specs| && specs[j].kind.TypeSpec? ==>
          specs[j].kind.shape in {StructType, InterfaceType} ==> j in at)
  }

  lemma SpecsAtNext(specs: seq<Node>, n: nat, chunks: seq<ChunkData>, at: seq<nat>)
    requires |specs| == n + 1 && SpecsAt(specs[..n], chunks, at)
    ensures if specs[n].kind.TypeSpec? && specs[n].kind.shape in {StructType, InterfaceType}
            then SpecsAt(specs, chunks + [ChunkOf(specs[n], TypeChunk)], at + [n]) else SpecsAt(specs, chunks, at)
  {
    hide ChunkOf;
  }

  lemma {:induction false} SpecsInOrder(specs: seq<Node>) returns (at: seq<nat>)
    ensures SpecsAt(specs, SpecChunks(specs), at)
  {
    at := [];
    if specs != [] {
      var n := |specs| - 1;
      hide ChunkOf;
      at := SpecsInOrder(specs[..n]);
      SpecsAtNext(specs, n, SpecChunks(specs[..n]), at);
      hide SpecsAt;
      if IsChunkedSpec(specs[n]) {
        at := at + [n];
      } else {
        assert SpecChunks(specs) == SpecChunks(specs[..n]) + [] == SpecChunks(specs[..n]);
      }
    }
  }

  /** The chunks of one node, at its place in the walk. */
  lemma NodeInOrder(ns: seq<Node>, k: nat) returns (places: seq<Place>)
    requires k < |ns|
    ensures |places| == |NodeChunks(ns[k])|
    ensures forall i :: 0 <= i < |places| ==> places[i].0 == k && ChunkAt(ns, places[i], NodeChunks(ns[k])[i])
    ensures forall i, j :: 0 <= i < j < |places| ==> Earlier(places[i], places[j])
    ensures forall at: Place, c :: ChunkAt(ns, at, c) && at.0 == k ==> at in places
  {
    match ns[k].kind {
      case FuncDecl(_, _) => places := [(k, 0)];
      case GenDecl(_) =>
        var at := SpecsInOrder(ns[k].kids);
        places := seq(|at|, i requires 0 <= i < |at| => (k, at[i]));
        forall p, c | ChunkAt(ns, p, c) && p.0 == k ensures p in places {
          var i :| 0 <= i < |at| && at[i] == p.1;
          assert places[i] == p;
        }
      case _ => places := [];
    }
  }

  lemma PlacesAppend(ns: seq<Node>, k: nat, chunks: seq<ChunkData>, places: seq<Place>, more: seq<ChunkData>,
                     morePlaces: seq<Place>)
    requires |ns| == k + 1 && InWalkOrder(ns[..k], chunks, places) && |more| == |morePlaces|
    requires forall i :: 0 <= i < |more| ==> morePlaces[i].0 == k && ChunkAt(ns, morePlaces[i], more[i])
    requires forall i, j :: 0 <= i < j < |more| ==> Earlier(morePlaces[i], morePlaces[j])
    requires forall at: Place, c :: ChunkAt(ns, at, c) && at.0 == k ==> at in morePlaces
    ensures InWalkOrder(ns, chunks + more, places + morePlaces)
  {
    var all := places + morePlaces;
    forall i | 0 <= i < |all| ensures ChunkAt(ns, all[i], (chunks + more)[i]) {
      if i < |places| { EarlierPlace(ns, k, places[i], chunks[i]); }
    }
    forall i | 0 <= i < |places| ensures places[i].0 < k { EarlierPlace(ns, k, places[i], chunks[i]); }
    forall at: Place, c | ChunkAt(ns, at, c) ensures at in all { EarlierPlace(ns, k, at, c); }
  }

  lemma EarlierPlace(ns: seq<Node>, k: nat, at: Place, c: ChunkData)
    requires |ns| == k + 1
    ensures ChunkAt(ns[..k], at, c) <==> ChunkAt(ns, at, c) && at.0 < k
    ensures ChunkAt(ns, at, c) ==> at.0 <= k
  {
  }

  lemma {:induction false} DeclsInOrder(ns: seq<Node>) returns (places: seq<Place>)
    ensures InWalkOrder(ns, DeclChunks(ns), places)
  {
    places := [];
    if ns != [] {
      var k := |ns| - 1;
      places := DeclsInOrder(ns[..k]);
      var more := NodeInOrder(ns, k);
      hide ChunkAt, InWalkOrder, NodeChunks;
      PlacesAppend(ns, k, DeclChunks(ns[..k]), places, NodeChunks(ns[k]), more);
      places := places + more;
    }
  }

  /** What the chunks of a source are, read off its tree: the functions, structs and interfaces in walk order, or the
      whole file if there are none. */
  ghost predicate ChunksOfTree(ast: Node, chunks: seq<ChunkData>) {
    if exists at: Place, c :: ChunkAt(PreOrder(ast), at, c)
    then exists places :: InWalkOrder(PreOrder(ast), chunks, places)
    else chunks == [ChunkData(ast.info.text, OtherChunk, ast.info.startLine, ast.info.endLine)]
  }

  lemma RawChunksAre(src: SourceFile)
    ensures ChunksOfTree(src.ast, RawChunks(src))
    ensures forall n :: n in PreOrder(src.ast) && n.kind.FuncDecl? ==>
        ChunkData(n.info.text, FunctionChunk, n.info.startLine, n.info.endLine) in RawChunks(src)
    ensures forall n, s :: n in PreOrder(src.ast) && n.kind.GenDecl? && s in n.kids && s.kind.TypeSpec? ==>
        s.kind.shape in {StructType, InterfaceType} ==>
          ChunkData(s.info.text, TypeChunk, s.info.startLine, s.info.endLine) in RawChunks(src)
  {
    var ns := PreOrder(src.ast);
    var places := DeclsInOrder(ns);
    var chunks := DeclChunks(ns);
    hide PreOrder, DeclChunks;
    if at: Place, c :| ChunkAt(ns, at, c) { assert at in places; }
    if chunks != [] { assert ChunkAt(ns, places[0], chunks[0]); }
    hide InWalkOrder;
    forall n | n in ns && n.kind.FuncDecl?
      ensures ChunkData(n.info.text, FunctionChunk, n.info.startLine, n.info.endLine) in RawChunks(src)
    {
      var k :| 0 <= k < |ns| && ns[k] == n;
      ChunkThere(ns, chunks, places, (k, 0),
        ChunkData(n.info.text, FunctionChunk, n.info.startLine, n.info.endLine));
    }
    forall n, s | n in ns && n.kind.GenDecl? && s in n.kids && s.kind.TypeSpec? &&
        s.kind.shape in {StructType, InterfaceType}
      ensures ChunkData(s.info.text, TypeChunk, s.info.startLine, s.info.endLine) in RawChunks(src)
    {
      var k :| 0 <= k < |ns| && ns[k] == n;
      var j :| 0 <= j < |n.kids| && n.kids[j] == s;
      ChunkThere(ns, chunks, places, (k, j), ChunkData(s.info.text, TypeChunk, s.info.startLine, s.info.endLine));
    }
  }

  lemma ChunkThere(ns: seq<Node>, chunks: seq<ChunkData>, places: seq<Place>, at: Place, c: ChunkData)
    requires InWalkOrder(ns, chunks, places) && ChunkAt(ns, at, c)
    ensures c in chunks
  {
    var i :| 0 <= i < |places| && places[i] == at;
    assert ChunkAt(ns, places[i], chunks[i]) && chunks[i] == c;
  }

  /** Parses a file into its raw chunks: one for each function, struct and interface the walk visits, in walk order;
      one for the whole file if there is none of these. */
  method Build(src: SourceFile) returns (chunks: Option<seq<ChunkData>>)
    ensures chunks == if src.parses then Some(RawChunks(src)) else None
    ensures chunks.Some? ==> ChunksOfTree(src.ast, chunks.value)
    ensures chunks.Some? ==> forall n :: n in PreOrder(src.ast) && n.kind.FuncDecl? ==>
        ChunkData(n.info.text, FunctionChunk, n.info.startLine, n.info.endLine) in chunks.value
    ensures chunks.Some? ==>
              forall n, s :: n in PreOrder(src.ast) && n.kind.GenDecl? && s in n.kids && s.kind.TypeSpec? ==>
                s.kind.shape in {StructType, InterfaceType} ==>
                  ChunkData(s.info.text, TypeChunk, s.info.startLine, s.info.endLine) in chunks.value
  {
    RawChunksAre(src);
    if !src.parses {
      return None;
    }
    var nodes, result := PreOrder(src.ast), [];
    assert DeclChunks(nodes[..0]) == [];
    hide PreOrder, DeclChunks, SpecChunks, ChunkOf, ChunksOfTree;
    for i := 0 to |nodes|
      invariant result == DeclChunks(nodes[..i])
    {
      NextDecl(nodes, i);
      match nodes[i].kind {
        case FuncDecl(_, _) => result := result + [ChunkOf(nodes[i], FunctionChunk)];
        case GenDecl(_) =>
          var more := BuildSpecs(nodes[i].kids);
          result := result + more;
        case _ =>
      }
    }
    assert nodes[..|nodes|] == nodes;
    if |result| == 0 {
      result := [ChunkOf(src.ast, OtherChunk)];
    }
    chunks := Some(result);
  }

  // ---------- Giving chunks to symbols ----------

  predicate IsSpace(c: char) {
    || c in {' ', '\t', '\n', '\r', '\U{0b}', '\U{0c}', '\U{85}', '\U{a0}', '\U{1680}', '\U{2028}', '\U{2029}',
        '\U{202f}', '\U{205f}', '\U{3000}'}
    || '\U{2000}' <= c <= '\U{200a}'
  }

  predicate Blank(s: string) { forall c :: c in s ==> IsSpace(c) }

  predicate Covers(s: SymbolData, startLine: int, endLine: int) {
    s.startLine <= startLine && s.endLine >= endLine
  }

  /** The position of the first symbol that covers the lines, or the length of the list. */
  function FirstMatch(symbols: seq<SymbolData>, startLine: int, endLine: int): (k: nat)
    ensures k <= |symbols|
    ensures k < |symbols| ==> Covers(symbols[k], startLine, endLine)
    ensures forall j :: 0 <= j < k ==> !Covers(symbols[j], startLine, endLine)
  {
    if symbols == [] then 0
    else
      var k := FirstMatch(symbols[..|symbols| - 1], startLine, endLine);
      if k < |symbols| - 1 || Covers(symbols[|symbols| - 1], startLine, endLine) then k else |symbols|
  }

  method MatchSymbol(symbols: seq<Symbol>, startLine: int, endLine: int) returns (sym: Option<Symbol>)
    ensures var k := FirstMatch(Datas(symbols), startLine, endLine);
            sym == if k < |symbols| then Some(symbols[k]) else None
  {
    for i := 0 to |symbols|
      invariant forall j :: 0 <= j < i ==> !Covers(symbols[j].data, startLine, endLine)
    {
      if symbols[i].data.startLine <= startLine && symbols[i].data.endLine >= endLine {
        assert Covers(Datas(symbols)[i], startLine, endLine);
        return Some(symbols[i]);
      }
    }
    sym := None;
  }

  /** A chunk that is kept, with the position of its symbol among the symbols of the file. */
  datatype Planned = Planned(data: ChunkData, sym: nat)

  function PlanOf(raw: seq<ChunkData>, symbols: seq<SymbolData>): (r: seq<Planned>)
    ensures forall p :: p in r ==> p.sym < |symbols|
  {
    if raw == [] then []
    else
      var c := raw[|raw| - 1];
      var k := FirstMatch(symbols, c.startLine, c.endLine);
      PlanOf(raw[..|raw| - 1], symbols) + (if !Blank(c.content) && k < |symbols| then [Planned(c, k)] else [])
  }

  /** The chunks of a file, as a function of that file alone. */
  function ChunksOf(src: SourceFile): (r: seq<Planned>)
    ensures forall p :: p in r ==> p.sym < |SymbolsOf(src)|
  {
    PlanOf(RawChunks(src), SymbolsOf(src))
  }

  ghost predicate MadeFrom(chunks: seq<Chunk>, plan: seq<Planned>, symbols: seq<Symbol>, repo: Id, file: Id) {
    && |chunks| == |plan|
    && forall k :: 0 <= k < |plan| ==>
         && plan[k].sym < |symbols|
         && chunks[k].data == plan[k].data
         && chunks[k].symbol == symbols[plan[k].sym].id
         && chunks[k].repo == repo && chunks[k].file == file
  }

  ghost predicate ChunksDrawn(s: seq<Chunk>, lo: Id, hi: Id) {
    && lo <= hi
    && (forall k :: 0 <= k < |s| ==> lo <= s[k].id < hi)
    && (forall i, j :: 0 <= i < j < |s| ==> s[i].id < s[j].id)
  }

  lemma MadeFromAppend(chunks: seq<Chunk>, plan: seq<Planned>, symbols: seq<Symbol>, repo: Id, file: Id, c: Chunk,
                       p: Planned)
    requires MadeFrom(chunks, plan, symbols, repo, file)
    requires p.sym < |symbols| && c == Chunk(c.id, repo, file, symbols[p.sym].id, p.data)
    ensures MadeFrom(chunks + [c], plan + [p], symbols, repo, file)
  {
  }

  /** Symbol j is the first whose lines enclose those of the chunk. */
  ghost predicate FirstAround(symbols: seq<SymbolData>, c: ChunkData, j: nat) {
    && j < |symbols| && symbols[j].startLine <= c.startLine && c.endLine <= symbols[j].endLine
    && forall i :: 0 <= i < j ==> c.startLine < symbols[i].startLine || symbols[i].endLine < c.endLine
  }

  /** The characters of the Unicode property White_Space, by code point. */
  ghost predicate WhiteSpace(c: char) {
    var n := c as int;
    || 9 <= n <= 13 || n == 32 || n == 0x85 || n == 0xA0 || n == 0x1680 || 0x2000 <= n <= 0x200A
    || n == 0x2028 || n == 0x2029 || n == 0x202F || n == 0x205F || n == 0x3000
  }

  lemma SpaceIs(c: char)
    ensures IsSpace(c) <==> WhiteSpace(c)
  {
  }

  /** A chunk is dropped when it holds nothing but white space, or no symbol is around it. */
  ghost predicate Dropped(symbols: seq<SymbolData>, c: ChunkData) {
    || (forall k :: 0 <= k < |c.content| ==> WhiteSpace(c.content[k]))
    || (forall j :: !FirstAround(symbols, c, j))
  }

  /** The kept chunks are those at the given positions of the raw ones, in order, each with the first symbol around
      it; the others were dropped. */
  ghost predicate KeptAt(raw: seq<ChunkData>, symbols: seq<SymbolData>, plan: seq<Planned>, at: seq<nat>) {
    && |at| == |plan| && (forall i, j :: 0 <= i < j < |at| ==> at[i] < at[j])
    && (forall i :: 0 <= i < |at| ==>
          && at[i] < |raw| && plan[i].data == raw[at[i]]
          && !Dropped(symbols, raw[at[i]]) && FirstAround(symbols, raw[at[i]], plan[i].sym))
    && (forall k :: 0 <= k < |raw| && !Dropped(symbols, raw[k]) ==> k in at)
  }

  lemma DroppedIs(symbols: seq<SymbolData>, c: ChunkData)
    ensures var k := FirstMatch(symbols, c.startLine, c.endLine);
            && (Dropped(symbols, c) <==> Blank(c.content) || k == |symbols|)
            && (k < |symbols| ==> FirstAround(symbols, c, k))
  {
    var k := FirstMatch(symbols, c.startLine, c.endLine);
    forall x: char ensures IsSpace(x) <==> WhiteSpace(x) { SpaceIs(x); }
    hide IsSpace, WhiteSpace;
    assert Blank(c.content) <==> forall i :: 0 <= i < |c.content| ==> WhiteSpace(c.content[i]);
    if k == |symbols| {
      assert forall j: nat :: j < |symbols| ==> !Covers(symbols[j], c.startLine, c.endLine);
    } else {
      assert forall i :: 0 <= i < k ==> !Covers(symbols[i], c.startLine, c.endLine);
      assert FirstAround(symbols, c, k);
    }
  }

  lemma KeptNext(raw: seq<ChunkData>, n: nat, symbols: seq<SymbolData>, plan: seq<Planned>, at: seq<nat>, j: nat)
    requires |raw| == n + 1 && KeptAt(raw[..n], symbols, plan, at)
    requires !Dropped(symbols, raw[n]) ==> FirstAround(symbols, raw[n], j)
    ensures if Dropped(symbols, raw[n]) then KeptAt(raw, symbols, plan, at)
            else KeptAt(raw, symbols, plan + [Planned(raw[n], j)], at + [n])
  {
    hide Dropped, FirstAround;
  }

  lemma {:induction false} PlanKeeps(raw: seq<ChunkData>, symbols: seq<SymbolData>) returns (at: seq<nat>)
    ensures KeptAt(raw, symbols, PlanOf(raw, symbols), at)
  {
    at := [];
    if raw != [] {
      var n := |raw| - 1;
      at := PlanKeeps(raw[..n], symbols);
      DroppedIs(symbols, raw[n]);
      var j := FirstMatch(symbols, raw[n].startLine, raw[n].endLine);
      hide KeptAt, Dropped, FirstAround, Blank, FirstMatch;
      KeptNext(raw, n, symbols, PlanOf(raw[..n], symbols), at, j);
      if !Dropped(symbols, raw[n]) { at := at + [n]; }
    }
  }

  /** Gives every non-blank chunk to its symbol; blank and unmatched chunks are dropped. */
  method Assemble(ids: IdSource, repo: Id, file: Id, raw: seq<ChunkData>,
                  symbols: seq<Symbol>) returns (chunks: seq<Chunk>)
    modifies ids
    ensures MadeFrom(chunks, PlanOf(raw, Datas(symbols)), symbols, repo, file)
    ensures exists plan: seq<Planned>, at: seq<nat> ::
              KeptAt(raw, Datas(symbols), plan, at) && MadeFrom(chunks, plan, symbols, repo, file)
    ensures ChunksDrawn(chunks, old(ids.next), ids.next)
  {
    ghost var at := PlanKeeps(raw, Datas(symbols));
    hide *;
    chunks := [];
    NothingMade(raw, symbols, repo, file, ids.next);
    for i := 0 to |raw|
      invariant MadeFrom(chunks, PlanOf(raw[..i], Datas(symbols)), symbols, repo, file)
      invariant ChunksDrawn(chunks, old(ids.next), ids.next)
    {
      PlanNext(raw, i, Datas(symbols));
      var chunk := raw[i];
      if Blank(chunk.content) { continue; }
      var sym := MatchSymbol(symbols, chunk.startLine, chunk.endLine);
      if sym.None? { continue; }
      ghost var lo := ids.next;
      var id := ids.Generate();
      var c := Chunk(id, repo, file, sym.value.id, chunk);
      MadeFromAppend(chunks, PlanOf(raw[..i], Datas(symbols)), symbols, repo, file, c,
                     Planned(chunk, FirstMatch(Datas(symbols), chunk.startLine, chunk.endLine)));
      OneMoreDrawn(chunks, old(ids.next), lo, c);
      chunks := chunks + [c];
    }
    assert raw[..|raw|] == raw;
  }

  lemma NothingMade(raw: seq<ChunkData>, symbols: seq<Symbol>, repo: Id, file: Id, lo: Id)
    ensures MadeFrom([], PlanOf(raw[..0], Datas(symbols)), symbols, repo, file) && ChunksDrawn([], lo, lo)
  {
  }

  lemma PlanNext(raw: seq<ChunkData>, i: nat, symbols: seq<SymbolData>)
    requires i < |raw|
    ensures var k := FirstMatch(symbols, raw[i].startLine, raw[i].endLine);
            PlanOf(raw[..i + 1], symbols) ==
            if !Blank(raw[i].content) && k < |symbols| then PlanOf(raw[..i], symbols) + [Planned(raw[i], k)]
            else PlanOf(raw[..i], symbols)
  {
    TakeNext(raw, i);
  }

  lemma OneMoreDrawn(chunks: seq<Chunk>, lo: Id, hi: Id, c: Chunk)
    requires ChunksDrawn(chunks, lo, hi) && c.id == hi
    ensures ChunksDrawn(chunks + [c], lo, hi + 1)
  {
  }

  // ---------- Which symbol a chunk gets ----------

  predicate Within(inner: SymbolData, outer: SymbolData) {
    outer.startLine <= inner.startLine && inner.endLine <= outer.endLine
  }

  /** Pre-order with nested-or-disjoint lines: an earlier symbol encloses a later one or ends before it. */
  ghost predicate Nested(symbols: seq<SymbolData>) {
    && (forall i :: 0 <= i < |symbols| ==> symbols[i].startLine <= symbols[i].endLine)
    && (forall i, j :: 0 <= i < j < |symbols| ==>
        Within(symbols[j], symbols[i]) || symbols[i].endLine < symbols[j].startLine)
  }

  /** The first match is the outermost: it encloses every symbol that covers the chunk. */
  lemma FirstMatchIsOutermost(symbols: seq<SymbolData>, startLine: int, endLine: int, j: nat)
    requires Nested(symbols) && startLine <= endLine
    requires j < |symbols| && Covers(symbols[j], startLine, endLine)
    ensures var k := FirstMatch(symbols, startLine, endLine);
            k <= j && Covers(symbols[k], startLine, endLine) && Within(symbols[j], symbols[k])
  {
    var k := FirstMatch(symbols, startLine, endLine);
    if k < j {
      assert symbols[j].startLine <= startLine <= endLine <= symbols[k].endLine;
    }
  }

  /** No two nodes of the file define the same object. */
  ghost predicate SingleDefs(ns: seq<Node>) {
    forall i, j :: 0 <= i < j < |ns| ==> NodeObjects(ns[i]) !! NodeObjects(ns[j])
  }

  predicate YieldsSymbol(n: Node) {
    match n.kind
    case FuncDecl(Some(d), _) => d.isFunc
    case TypeSpec(Some(d), _, _) => d.hasPkg
    case _ => false
  }

  lemma {:induction false} OutHas(st: Scan, ns: seq<Node>, k: nat, s: SymbolData)
    requires k < |ns| && s in New(State(st, ns[..k]), ns[k])
    ensures s in Out(st, ns)
  {
    if k < |ns| - 1 {
      assert ns[..|ns| - 1][..k] == ns[..k];
      OutHas(st, ns[..|ns| - 1], k, s);
    }
  }

  lemma DeclarationHasSymbol(src: SourceFile, n: Node) returns (j: nat)
    requires n in PreOrder(src.ast) && YieldsSymbol(n) && SingleDefs(PreOrder(src.ast))
    ensures j < |SymbolsOf(src)|
    ensures SymbolsOf(src)[j].startLine == n.info.startLine && SymbolsOf(src)[j].endLine == n.info.endLine
  {
    var ns := PreOrder(src.ast);
    var k :| 0 <= k < |ns| && ns[k] == n;
    var obj := n.kind.def.value.obj;
    assert obj in NodeObjects(n);
    var st := Scan({}, NoTok);
    forall o | o in Objects(ns[..k]) ensures o != obj {
      var i :| 0 <= i < k && o in NodeObjects(ns[..k][i]);
      assert ns[..k][i] == ns[i];
    }
    ScanLocal(st, {}, ns[..k]);
    var s := New(State(st, ns[..k]), n)[0];
    OutHas(st, ns, k, s);
    j :| 0 <= j < |SymbolsOf(src)| && SymbolsOf(src)[j] == s;
  }

  lemma {:induction false} PlanHas(raw: seq<ChunkData>, symbols: seq<SymbolData>, c: ChunkData)
    requires c in raw && !Blank(c.content) && FirstMatch(symbols, c.startLine, c.endLine) < |symbols|
    ensures Planned(c, FirstMatch(symbols, c.startLine, c.endLine)) in PlanOf(raw, symbols)
  {
    var k := |raw| - 1;
    if raw[k] != c {
      assert raw == raw[..k] + [raw[k]];
      PlanHas(raw[..k], symbols, c);
    }
  }

  /** The chunk of a declaration that yields a symbol is never dropped, unless it is blank. */
  lemma DeclarationChunkKept(src: SourceFile, n: Node, c: ChunkData)
    requires n in PreOrder(src.ast) && YieldsSymbol(n) && SingleDefs(PreOrder(src.ast))
    requires c in RawChunks(src) && c.startLine == n.info.startLine && c.endLine == n.info.endLine
    requires !Blank(c.content)
    ensures exists p :: p in ChunksOf(src) && p.data == c && Covers(SymbolsOf(src)[p.sym], c.startLine, c.endLine)
  {
    var j := DeclarationHasSymbol(src, n);
    assert Covers(SymbolsOf(src)[j], c.startLine, c.endLine);
    PlanHas(RawChunks(src), SymbolsOf(src), c);
  }
}
