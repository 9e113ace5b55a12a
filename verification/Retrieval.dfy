/** Retrieval: from the vectors nearest to a query to chunks, and from chunks to the text handed to the model. */
module Retrieval {
  import opened Base
  import opened Tables
  import opened Chunker
  import opened Calls
  import opened Imports
  import B = Backends
  import opened WorkerView
  import Isolation
  import W = Workers

  const DEFAULT_TOP_K: nat := 7

  datatype Found = Found(id: Id, row: ChunkRow)

  // ---------- The text ----------

  /** One line of the context. */
  datatype Line =
    | Title
    | Header(n: nat, kind: ChunkKind, startLine: int, endLine: int)
    | Summary(text: string)
    | ContentTitle
    | Content(text: string)
    | CallsTitle
    | CallTo(symbol: Id)
    | ImportsTitle
    | ImportOf(path: string, alias: Option<string>)
    | Blank

  function CallLines(edges: seq<CallEdge>): seq<Line> {
    if edges == [] then [] else CallLines(edges[..|edges| - 1]) + [CallTo(edges[|edges| - 1].callee)]
  }

  function Shown(alias: Option<string>): Option<string> { if alias == Some("") then None else alias }

  function ImportLines(edges: seq<ImportEdge>): seq<Line> {
    if edges == [] then []
    else ImportLines(edges[..|edges| - 1]) + [ImportOf(edges[|edges| - 1].path, Shown(edges[|edges| - 1].alias))]
  }

  function Section(title: Line, lines: seq<Line>): seq<Line> { if lines == [] then [] else [title] + lines }

  function SummaryLines(summary: Option<string>): seq<Line> {
    if summary.Some? && summary.value != "" then [Summary(summary.value)] else []
  }

  function ChunkLines(n: nat, row: ChunkRow, calls: seq<CallEdge>, imports: seq<ImportEdge>): seq<Line> {
    [Header(n, row.data.kind, row.data.startLine, row.data.endLine)]
    + SummaryLines(row.summary)
    + [ContentTitle, Content(row.data.content)]
    + Section(CallsTitle, CallLines(calls))
    + Section(ImportsTitle, ImportLines(imports))
    + [Blank]
  }

  // ---------- Looking up edges for every chunk anew ----------

  datatype Lookup = CallsOf(symbol: Id) | ImportsOf(file: Id)

  datatype Result<T> = Ok(value: T) | Failed(at: Lookup)

  /** The edge tables as a reader sees them; None where the query fails. */
  datatype EdgeTables = EdgeTables(calls: Id -> Option<seq<CallEdge>>, imports: Id -> Option<seq<ImportEdge>>)

  /** The first lookup that fails, going chunk by chunk, calls before imports. */
  function FirstFailure(chunks: seq<Found>, t: EdgeTables): Option<Lookup> {
    if chunks == [] then None
    else
      var n := |chunks| - 1;
      var before := FirstFailure(chunks[..n], t);
      if before.Some? then before
      else if t.calls(chunks[n].row.symbol).None? then Some(CallsOf(chunks[n].row.symbol))
      else if t.imports(chunks[n].row.file).None? then Some(ImportsOf(chunks[n].row.file))
      else None
  }

  function EdgesOr<T>(r: Option<seq<T>>): seq<T> { if r.Some? then r.value else [] }

  function Text(chunks: seq<Found>, t: EdgeTables): seq<Line> {
    if chunks == [] then []
    else
      var n := |chunks| - 1;
      Text(chunks[..n], t) + ChunkLines(n + 1, chunks[n].row, EdgesOr(t.calls(chunks[n].row.symbol)),
          EdgesOr(t.imports(chunks[n].row.file)))
  }

  /** The context with two lookups for every chunk. */
  function Direct(chunks: seq<Found>, t: EdgeTables): Result<seq<Line>> {
    var failure := FirstFailure(chunks, t);
    if failure.Some? then Failed(failure.value) else Ok([Title] + Text(chunks, t))
  }

  // ---------- What the context says ----------

  /** The lines of chunk n: where it comes from, its summary if it has one, its text, every function its symbol calls
      and every package its file imports. */
  ghost predicate BlockIs(block: seq<Line>, n: nat, row: ChunkRow, t: EdgeTables) {
    && t.calls(row.symbol).Some? && t.imports(row.file).Some?
    && var calls, imports := t.calls(row.symbol).value, t.imports(row.file).value;
       block ==
         [Header(n, row.data.kind, row.data.startLine, row.data.endLine)]
         + (if row.summary.Some? && row.summary.value != "" then [Summary(row.summary.value)] else [])
         + [ContentTitle, Content(row.data.content)]
         + (if calls == [] then []
            else [CallsTitle] + seq(|calls|, i requires 0 <= i < |calls| => CallTo(calls[i].callee)))
         + (if imports == [] then []
            else [ImportsTitle] +
                 seq(|imports|, i requires 0 <= i < |imports| =>
                   ImportOf(imports[i].path, if imports[i].alias == Some("") then None else imports[i].alias)))
         + [Blank]
  }

  lemma {:induction false} CallLinesAre(edges: seq<CallEdge>)
    ensures CallLines(edges) == seq(|edges|, i requires 0 <= i < |edges| => CallTo(edges[i].callee))
  {
    if edges != [] { CallLinesAre(edges[..|edges| - 1]); }
  }

  lemma {:induction false} ImportLinesAre(edges: seq<ImportEdge>)
    ensures ImportLines(edges) ==
            seq(|edges|, i requires 0 <= i < |edges| =>
              ImportOf(edges[i].path, if edges[i].alias == Some("") then None else edges[i].alias))
  {
    if edges != [] { ImportLinesAre(edges[..|edges| - 1]); }
  }

  lemma ChunkLinesAre(n: nat, row: ChunkRow, t: EdgeTables)
    requires t.calls(row.symbol).Some? && t.imports(row.file).Some?
    ensures BlockIs(ChunkLines(n, row, t.calls(row.symbol).value, t.imports(row.file).value), n, row, t)
  {
    var calls, imports := t.calls(row.symbol).value, t.imports(row.file).value;
    CallLinesAre(calls);
    ImportLinesAre(imports);
    hide CallLines, ImportLines;
    assert |CallLines(calls)| == |calls| && |ImportLines(imports)| == |imports|;
  }

  /** Every lookup for the first n chunks succeeds. */
  ghost predicate AllAnswered(chunks: seq<Found>, t: EdgeTables, n: nat)
    requires n <= |chunks|
  {
    forall k :: 0 <= k < n ==> t.calls(chunks[k].row.symbol).Some? && t.imports(chunks[k].row.file).Some?
  }

  /** Chunk k is the first with a lookup that fails, and that is the one. */
  ghost predicate FailsAt(chunks: seq<Found>, t: EdgeTables, k: nat, at: Lookup) {
    && k < |chunks| && AllAnswered(chunks, t, k)
    && if t.calls(chunks[k].row.symbol).None? then at == CallsOf(chunks[k].row.symbol)
       else t.imports(chunks[k].row.file).None? && at == ImportsOf(chunks[k].row.file)
  }

  lemma FailsAtPrefix(chunks: seq<Found>, t: EdgeTables, n: nat, k: nat, at: Lookup)
    requires |chunks| == n + 1
    ensures k <= n ==> (AllAnswered(chunks[..n], t, k) <==> AllAnswered(chunks, t, k))
    ensures FailsAt(chunks[..n], t, k, at) <==> FailsAt(chunks, t, k, at) && k < n
  {
    assert forall j :: 0 <= j < n ==> chunks[..n][j] == chunks[j];
  }

  lemma {:induction false} FirstFailureIs(chunks: seq<Found>, t: EdgeTables, at: Lookup)
    ensures FirstFailure(chunks, t).None? <==> AllAnswered(chunks, t, |chunks|)
    ensures FirstFailure(chunks, t) == Some(at) <==> exists k: nat :: FailsAt(chunks, t, k, at)
  {
    if chunks != [] {
      var n := |chunks| - 1;
      FirstFailureIs(chunks[..n], t, at);
      FailsAtPrefix(chunks, t, n, n, at);
      assert |chunks[..n]| == n && (FailsAt(chunks, t, n, at) ==> FirstFailure(chunks, t) == Some(at));
      assert FirstFailure(chunks[..n], t).None? && FirstFailure(chunks, t) == Some(at) ==> FailsAt(chunks, t, n, at);
      if k: nat :| FailsAt(chunks, t, k, at) { FailsAtPrefix(chunks, t, n, k, at); }
      if k: nat :| FailsAt(chunks[..n], t, k, at) { FailsAtPrefix(chunks, t, n, k, at); }
    }
  }

  /** The context fails at the first lookup that does, chunk by chunk, calls before imports, and only then. */
  lemma FailsAtFirst(chunks: seq<Found>, t: EdgeTables, at: Lookup)
    ensures Direct(chunks, t).Ok? <==> AllAnswered(chunks, t, |chunks|)
    ensures Direct(chunks, t) == Failed(at) <==> exists k: nat :: FailsAt(chunks, t, k, at)
  {
    FirstFailureIs(chunks, t, at);
    hide FirstFailure, Text, FailsAt, AllAnswered;
  }

  function Joined(blocks: seq<seq<Line>>): seq<Line> {
    if blocks == [] then [] else Joined(blocks[..|blocks| - 1]) + blocks[|blocks| - 1]
  }

  lemma BlocksNext(chunks: seq<Found>, t: EdgeTables, n: nat, blocks: seq<seq<Line>>, block: seq<Line>)
    requires |chunks| == n + 1 && |blocks| == n && BlockIs(block, n + 1, chunks[n].row, t)
    requires forall k :: 0 <= k < n ==> BlockIs(blocks[k], k + 1, chunks[..n][k].row, t)
    ensures Joined(blocks + [block]) == Joined(blocks) + block
    ensures forall k :: 0 <= k < n + 1 ==> BlockIs((blocks + [block])[k], k + 1, chunks[k].row, t)
  {
    hide BlockIs;
    Snoc(blocks, block);
    assert forall k :: 0 <= k < n ==> chunks[..n][k] == chunks[k];
  }

  lemma {:induction false} TextReads(chunks: seq<Found>, t: EdgeTables) returns (blocks: seq<seq<Line>>)
    requires AllAnswered(chunks, t, |chunks|)
    ensures |blocks| == |chunks| && Text(chunks, t) == Joined(blocks)
    ensures forall k :: 0 <= k < |blocks| ==> BlockIs(blocks[k], k + 1, chunks[k].row, t)
  {
    blocks := [];
    if chunks != [] {
      var n := |chunks| - 1;
      hide ChunkLines, BlockIs;
      var before := TextReads(chunks[..n], t);
      var row := chunks[n].row;
      ChunkLinesAre(n + 1, row, t);
      var block := ChunkLines(n + 1, row, t.calls(row.symbol).value, t.imports(row.file).value);
      assert Text(chunks, t) == Text(chunks[..n], t) + block;
      hide Text, Joined;
      BlocksNext(chunks, t, n, before, block);
      blocks := before + [block];
    }
  }

  /** The text is a title and one block for each chunk, in order. */
  lemma ContextReads(chunks: seq<Found>, t: EdgeTables, text: seq<Line>) returns (blocks: seq<seq<Line>>)
    requires Direct(chunks, t) == Ok(text)
    ensures text == [Title] + Joined(blocks) && |blocks| == |chunks|
    ensures forall k :: 0 <= k < |blocks| ==> BlockIs(blocks[k], k + 1, chunks[k].row, t)
  {
    FailsAtFirst(chunks, t, CallsOf(0));
    hide Text, BlockIs;
    blocks := TextReads(chunks, t);
  }

  // ---------- Looking them up once ----------

  class EdgeReader {
    const tables: EdgeTables

    ghost var asked: seq<Lookup>

    constructor (tables: EdgeTables)
      ensures this.tables == tables && asked == []
    {
      this.tables, asked := tables, [];
    }

    method GetCallEdgesByCallerSymbolID(symbol: Id) returns (edges: Option<seq<CallEdge>>)
      modifies this
      ensures edges == tables.calls(symbol) && asked == old(asked) + [CallsOf(symbol)]
    {
      edges, asked := tables.calls(symbol), asked + [CallsOf(symbol)];
    }

    method GetImportEdgesByFromFileID(file: Id) returns (edges: Option<seq<ImportEdge>>)
      modifies this
      ensures edges == tables.imports(file) && asked == old(asked) + [ImportsOf(file)]
    {
      edges, asked := tables.imports(file), asked + [ImportsOf(file)];
    }
  }

  /** The memo holds what the tables answer, for everything asked and nothing else; nothing was asked twice. */
  ghost predicate Memo(t: EdgeTables, asked: seq<Lookup>, calls: map<Id, seq<CallEdge>>, imports: map<Id,
                       seq<ImportEdge>>) {
    && Distinct(asked)
    && (forall s :: s in calls ==> t.calls(s) == Some(calls[s]))
    && (forall f :: f in imports ==> t.imports(f) == Some(imports[f]))
    && (forall s :: CallsOf(s) in asked <==> s in calls)
    && (forall f :: ImportsOf(f) in asked <==> f in imports)
  }

  ghost predicate Covers(chunks: seq<Found>, calls: map<Id, seq<CallEdge>>, imports: map<Id, seq<ImportEdge>>) {
    forall k :: 0 <= k < |chunks| ==> chunks[k].row.symbol in calls && chunks[k].row.file in imports
  }

  /** The lookup is about one of the chunks. */
  ghost predicate Concerns(l: Lookup, chunks: seq<Found>) {
    exists k :: 0 <= k < |chunks| && (l == CallsOf(chunks[k].row.symbol) || l == ImportsOf(chunks[k].row.file))
  }

  ghost predicate AllConcern(asked: seq<Lookup>, chunks: seq<Found>) { forall l :: l in asked ==> Concerns(l, chunks) }

  lemma AskMore(asked: seq<Lookup>, l: Lookup, chunks: seq<Found>)
    requires Distinct(asked) && l !in asked && AllConcern(asked, chunks) && Concerns(l, chunks)
    ensures Distinct(asked + [l]) && AllConcern(asked + [l], chunks)
  {
  }

  lemma AskCalls(t: EdgeTables, asked: seq<Lookup>, calls: map<Id, seq<CallEdge>>, imports: map<Id, seq<ImportEdge>>,
                 s: Id, chunks: seq<Found>)
    requires Memo(t, asked, calls, imports) && s !in calls && AllConcern(asked, chunks) && Concerns(CallsOf(s), chunks)
    ensures Distinct(asked + [CallsOf(s)]) && AllConcern(asked + [CallsOf(s)], chunks)
    ensures t.calls(s).Some? ==> Memo(t, asked + [CallsOf(s)], calls[s := t.calls(s).value], imports)
  {
    AskMore(asked, CallsOf(s), chunks);
    hide AllConcern, Distinct;
  }

  lemma AskImports(t: EdgeTables, asked: seq<Lookup>, calls: map<Id, seq<CallEdge>>, imports: map<Id, seq<ImportEdge>>,
                   f: Id, chunks: seq<Found>)
    requires Memo(t, asked, calls, imports) && f !in imports && AllConcern(asked, chunks) &&
        Concerns(ImportsOf(f), chunks)
    ensures Distinct(asked + [ImportsOf(f)]) && AllConcern(asked + [ImportsOf(f)], chunks)
    ensures t.imports(f).Some? ==> Memo(t, asked + [ImportsOf(f)], calls, imports[f := t.imports(f).value])
  {
    AskMore(asked, ImportsOf(f), chunks);
    hide AllConcern, Distinct;
  }

  lemma MemoIsDistinct(t: EdgeTables, asked: seq<Lookup>, calls: map<Id, seq<CallEdge>>, imports: map<Id,
                       seq<ImportEdge>>)
    requires Memo(t, asked, calls, imports)
    ensures Distinct(asked)
    ensures forall s :: s in calls ==> t.calls(s).Some?
  {
  }

  lemma NothingAsked(t: EdgeTables, chunks: seq<Found>)
    ensures Memo(t, [], map[], map[]) && AllConcern([], chunks) && Covers(chunks[..0], map[], map[])
  {
  }

  lemma CoversNext(chunks: seq<Found>, k: nat, calls: map<Id, seq<CallEdge>>, imports: map<Id, seq<ImportEdge>>,
                   calls': map<Id, seq<CallEdge>>, imports': map<Id, seq<ImportEdge>>)
    requires k < |chunks| && Covers(chunks[..k], calls, imports) && calls.Keys <= calls'.Keys &&
        imports.Keys <= imports'.Keys
    requires chunks[k].row.symbol in calls' && chunks[k].row.file in imports'
    ensures Covers(chunks[..k + 1], calls', imports')
  {
    assert forall j :: 0 <= j < k ==> chunks[..k][j] == chunks[j];
  }

  lemma {:induction false} NoFailure(chunks: seq<Found>, t: EdgeTables, asked: seq<Lookup>, calls: map<Id,
                                     seq<CallEdge>>, imports: map<Id, seq<ImportEdge>>)
    requires Memo(t, asked, calls, imports) && Covers(chunks, calls, imports)
    ensures FirstFailure(chunks, t).None?
  {
    if chunks != [] {
      var n := |chunks| - 1;
      NoFailure(chunks[..n], t, asked, calls, imports);
      assert chunks[n].row.symbol in calls && chunks[n].row.file in imports;
    }
  }

  lemma {:induction false} FailureStays(chunks: seq<Found>, k: nat, t: EdgeTables)
    requires k <= |chunks| && FirstFailure(chunks[..k], t).Some?
    ensures FirstFailure(chunks, t) == FirstFailure(chunks[..k], t)
    decreases |chunks| - k
  {
    if k == |chunks| {
      assert chunks[..k] == chunks;
    } else {
      TakeNext(chunks, k);
      FailureStays(chunks, k + 1, t);
    }
  }

  lemma FailsHere(chunks: seq<Found>, k: nat, t: EdgeTables, asked: seq<Lookup>, calls: map<Id, seq<CallEdge>>,
                  imports: map<Id, seq<ImportEdge>>)
    requires k < |chunks| && Memo(t, asked, calls, imports) && Covers(chunks[..k], calls, imports)
    ensures t.calls(chunks[k].row.symbol).None? ==> Direct(chunks, t) == Failed(CallsOf(chunks[k].row.symbol))
    ensures t.calls(chunks[k].row.symbol).Some? && t.imports(chunks[k].row.file).None? ==>
              Direct(chunks, t) == Failed(ImportsOf(chunks[k].row.file))
  {
    NoFailure(chunks[..k], t, asked, calls, imports);
    TakeNext(chunks, k);
    if FirstFailure(chunks[..k + 1], t).Some? { FailureStays(chunks, k + 1, t); }
  }

  /** Assembles the context, asking for the edges of every symbol and of every file once. */
  method BuildContext(chunks: seq<Found>, reader: EdgeReader) returns (r: Result<seq<Line>>)
    requires reader.asked == []
    modifies reader
    ensures r == Direct(chunks, reader.tables)
    ensures Distinct(reader.asked) && AllConcern(reader.asked, chunks)
  {
    hide *;
    var calls: map<Id, seq<CallEdge>> := map[];
    var imports: map<Id, seq<ImportEdge>> := map[];
    NothingAsked(reader.tables, chunks);
    for k := 0 to |chunks|
      invariant Memo(reader.tables, reader.asked, calls, imports) && Covers(chunks[..k], calls, imports)
      invariant AllConcern(reader.asked, chunks)
    {
      var c := chunks[k].row;
      ghost var calls0, imports0 := calls, imports;
      ChunkConcerns(chunks, k);
      FailsHere(chunks, k, reader.tables, reader.asked, calls, imports);
      MemoIsDistinct(reader.tables, reader.asked, calls, imports);
      if c.symbol !in calls {
        AskCalls(reader.tables, reader.asked, calls, imports, c.symbol, chunks);
        var edges := reader.GetCallEdgesByCallerSymbolID(c.symbol);
        if edges.None? { return Failed(CallsOf(c.symbol)); }
        calls := calls[c.symbol := edges.value];
      }
      if c.file !in imports {
        AskImports(reader.tables, reader.asked, calls, imports, c.file, chunks);
        var edges := reader.GetImportEdgesByFromFileID(c.file);
        if edges.None? { return Failed(ImportsOf(c.file)); }
        imports := imports[c.file := edges.value];
      }
      CoversNext(chunks, k, calls0, imports0, calls, imports);
    }
    assert chunks[..|chunks|] == chunks;
    MemoIsDistinct(reader.tables, reader.asked, calls, imports);
    var text := Render(chunks, calls, imports, reader.tables, reader.asked);
    NoFailure(chunks, reader.tables, reader.asked, calls, imports);
    DirectIs(chunks, reader.tables);
    r := Ok([Title] + text);
  }

  lemma ChunkConcerns(chunks: seq<Found>, k: nat)
    requires k < |chunks|
    ensures Concerns(CallsOf(chunks[k].row.symbol), chunks) && Concerns(ImportsOf(chunks[k].row.file), chunks)
  {
  }

  lemma DirectIs(chunks: seq<Found>, t: EdgeTables)
    requires FirstFailure(chunks, t).None?
    ensures Direct(chunks, t) == Ok([Title] + Text(chunks, t))
  {
  }

  method Render(chunks: seq<Found>, calls: map<Id, seq<CallEdge>>, imports: map<Id, seq<ImportEdge>>,
                ghost t: EdgeTables, ghost asked: seq<Lookup>)
    returns (text: seq<Line>)
    requires Memo(t, asked, calls, imports) && Covers(chunks, calls, imports)
    ensures text == Text(chunks, t)
  {
    text := [];
    hide ChunkLines;
    for i := 0 to |chunks|
      invariant text == Text(chunks[..i], t)
    {
      TakeNext(chunks, i);
      var c := chunks[i].row;
      var lines := RenderChunk(i + 1, c, calls[c.symbol], imports[c.file]);
      text := text + lines;
    }
    assert chunks[..|chunks|] == chunks;
  }

  method RenderChunk(n: nat, c: ChunkRow, calls: seq<CallEdge>, imports: seq<ImportEdge>) returns (lines: seq<Line>)
    ensures lines == ChunkLines(n, c, calls, imports)
  {
    hide CallLines, ImportLines;
    lines := [Header(n, c.data.kind, c.data.startLine, c.data.endLine)];
    ghost var header := lines;
    if c.summary.Some? && c.summary.value != "" {
      lines := lines + [Summary(c.summary.value)];
    }
    assert lines == header + SummaryLines(c.summary);
    lines := lines + [ContentTitle, Content(c.data.content)];
    SectionsAre(calls, imports);
    ghost var body := lines;
    if |calls| > 0 {
      var more := RenderCalls(calls);
      lines := lines + [CallsTitle];
      lines := lines + more;
    }
    assert lines == body + Section(CallsTitle, CallLines(calls));
    ghost var withCalls := lines;
    if |imports| > 0 {
      var more := RenderImports(imports);
      lines := lines + [ImportsTitle];
      lines := lines + more;
    }
    assert lines == withCalls + Section(ImportsTitle, ImportLines(imports));
    lines := lines + [Blank];
  }

  lemma SectionsAre(calls: seq<CallEdge>, imports: seq<ImportEdge>)
    ensures |CallLines(calls)| > 0 <==> |calls| > 0
    ensures |ImportLines(imports)| > 0 <==> |imports| > 0
  {
  }

  method RenderCalls(edges: seq<CallEdge>) returns (lines: seq<Line>)
    ensures lines == CallLines(edges)
  {
    lines := [];
    for i := 0 to |edges|
      invariant lines == CallLines(edges[..i])
    {
      TakeNext(edges, i);
      lines := lines + [CallTo(edges[i].callee)];
    }
    assert edges[..|edges|] == edges;
  }

  lemma NextImport(edges: seq<ImportEdge>, i: nat)
    requires i < |edges|
    ensures ImportLines(edges[..i + 1]) == ImportLines(edges[..i]) + [ImportOf(edges[i].path, Shown(edges[i].alias))]
  {
    TakeNext(edges, i);
  }

  method RenderImports(edges: seq<ImportEdge>) returns (lines: seq<Line>)
    ensures lines == ImportLines(edges)
  {
    lines := [];
    assert ImportLines(edges[..0]) == [];
    hide ImportLines;
    for i := 0 to |edges|
      invariant lines == ImportLines(edges[..i])
    {
      NextImport(edges, i);
      var alias := if edges[i].alias.Some? && edges[i].alias.value != "" then edges[i].alias else None;
      assert alias == Shown(edges[i].alias);
      lines := lines + [ImportOf(edges[i].path, alias)];
    }
    assert edges[..|edges|] == edges;
  }

  // ---------- From vectors to chunks ----------

  function Nearest(ranking: seq<VecId>, k: nat): seq<VecId> { if k < |ranking| then ranking[..k] else ranking }

  lemma NearestAre(ranking: seq<VecId>, k: nat)
    ensures |Nearest(ranking, k)| == if k < |ranking| then k else |ranking|
    ensures forall v :: v in Nearest(ranking, k) <==> exists i :: 0 <= i < |ranking| && i < k && ranking[i] == v
  {
  }

  /** rows are exactly the chunks whose embedding id is among ids. */
  ghost predicate ChunksFor(rows: seq<Found>, db: DB, ids: seq<VecId>) {
    && (forall i, j :: 0 <= i < j < |rows| ==> rows[i].id != rows[j].id)
    && (forall k :: 0 <= k < |rows| ==> rows[k].id in db.chunks && rows[k].row == db.chunks[rows[k].id])
    && (forall c :: c in db.chunks ==>
          ((exists k :: 0 <= k < |rows| && rows[k].id == c) <==>
           (db.chunks[c].embedding.Some? && db.chunks[c].embedding.value in ids)))
  }

  method GetChunksByEmbeddingIDs(db: DB, ids: seq<VecId>) returns (rows: seq<Found>)
    ensures ChunksFor(rows, db, ids)
  {
    rows := [];
    if |ids| == 0 { return; }
    var found := B.Enumerate(set c | c in db.chunks && db.chunks[c].embedding.Some? &&
        db.chunks[c].embedding.value in ids);
    for i := 0 to |found|
      invariant |rows| == i && forall k :: 0 <= k < i ==>
          found[k] in db.chunks && rows[k] == Found(found[k], db.chunks[found[k]])
    {
      assert found[i] in found;
      rows := rows + [Found(found[i], db.chunks[found[i]])];
    }
    forall c | c in db.chunks
      ensures (exists k :: 0 <= k < |rows| && rows[k].id == c) <==>
              (db.chunks[c].embedding.Some? && db.chunks[c].embedding.value in ids)
    {
      if c in found {
        var k :| 0 <= k < |found| && found[k] == c;
        assert rows[k].id == c;
      }
      if k :| 0 <= k < |rows| && rows[k].id == c { assert found[k] in found; }
    }
  }

  lemma {:induction false} NoMoreThan(vs: seq<VecId>, ids: seq<VecId>)
    requires Distinct(vs) && forall v :: v in vs ==> v in ids
    ensures |vs| <= |ids|
  {
    if vs != [] {
      var n := |vs| - 1;
      assert vs[n] in ids by { assert vs[n] in vs; }
      var i :| 0 <= i < |ids| && ids[i] == vs[n];
      var rest := ids[..i] + ids[i + 1..];
      forall v | v in vs[..n] ensures v in rest {
        var k :| 0 <= k < n && vs[k] == v;
        assert vs[k] in ids by { assert vs[k] in vs; }
        var j :| 0 <= j < |ids| && ids[j] == v;
        assert if j < i then rest[j] == v else rest[j - 1] == v;
      }
      NoMoreThan(vs[..n], rest);
    }
  }

  /** With injective embedding ids, retrieval never yields more chunks than vectors asked for, each of them a current
      chunk of a current file: a leaked vector, or one of a discarded file, may use up a place but yields nothing. */
  lemma RetrievedAreCurrent(rows: seq<Found>, db: DB, ranking: seq<VecId>, k: nat)
    requires Sound(db) && Isolation.InjectiveEmbeddings(db) && ChunksFor(rows, db, Nearest(ranking, k))
    ensures |rows| <= k && |rows| <= |ranking|
    ensures forall i :: 0 <= i < |rows| ==> rows[i].row.file in db.files && rows[i].row.symbol in db.symbols
    ensures forall v :: v in Nearest(ranking, k) && (forall c :: c in db.chunks ==>
        db.chunks[c].embedding != Some(v)) ==>
              forall i :: 0 <= i < |rows| ==> rows[i].row.embedding != Some(v)
  {
    var ids := Nearest(ranking, k);
    forall i | 0 <= i < |rows| ensures rows[i].row.embedding.Some? && rows[i].row.embedding.value in ids {
      assert rows[i].id in db.chunks;
    }
    var vs := seq(|rows|, i requires 0 <= i < |rows| => rows[i].row.embedding.value);
    forall i, j | 0 <= i < j < |vs| ensures vs[i] != vs[j] {
      assert rows[i].id != rows[j].id;
    }
    NoMoreThan(vs, ids);
  }

  /** In every reachable state of the workers, with whatever vectors leaked on the way: of the nearest live vectors
      exactly those that are neither leaked nor just upserted yield a chunk, each of them one, of a current file. */
  lemma RetrievedWhileRunning(states: seq<W.World>, events: seq<W.Event>, rows: seq<Found>, db: DB,
                              ranking: seq<VecId>, k: nat, v: VecId)
    requires W.History(states, events) && View(db) == states[|events|].chunks
    requires Sound(db) && ChunksFor(rows, db, Nearest(ranking, k))
    ensures |rows| <= k && |rows| <= |ranking|
    ensures forall i :: 0 <= i < |rows| ==> rows[i].row.file in db.files && rows[i].row.symbol in db.symbols
    ensures v in Nearest(ranking, k) && v in states[|events|].live ==>
              ((exists i :: 0 <= i < |rows| && rows[i].row.embedding == Some(v)) <==>
               v !in states[|events|].leaked && v !in W.Held(states[|events|]))
    ensures forall i, j :: 0 <= i < j < |rows| ==> rows[i].row.embedding != rows[j].row.embedding
  {
    var s, ids := states[|events|], Nearest(ranking, k);
    W.VectorConservation(states, events, v);
    W.Always(states, events);
    assert W.Injective(View(db));
    InjectiveIs(db);
    hide W.History, W.VectorInv, W.EventInv, W.Injective, Sound, Nearest;
    RetrievedAreCurrent(rows, db, ranking, k);
    RowsAreDistinct(rows, db, ids);
    if v in ids && v in s.live {
      YieldsOne(rows, db, ids, v);
      ReferredIs(db, v);
    }
  }

  lemma RowsAreDistinct(rows: seq<Found>, db: DB, ids: seq<VecId>)
    requires Isolation.InjectiveEmbeddings(db) && ChunksFor(rows, db, ids)
    ensures forall i, j :: 0 <= i < j < |rows| ==> rows[i].row.embedding != rows[j].row.embedding
  {
    forall i | 0 <= i < |rows| ensures rows[i].row.embedding.Some? { assert rows[i].id in db.chunks; }
  }

  lemma YieldsOne(rows: seq<Found>, db: DB, ids: seq<VecId>, v: VecId)
    requires ChunksFor(rows, db, ids) && v in ids
    ensures (exists i :: 0 <= i < |rows| && rows[i].row.embedding == Some(v)) <==>
            (exists c :: c in db.chunks && db.chunks[c].embedding == Some(v))
  {
    if i :| 0 <= i < |rows| && rows[i].row.embedding == Some(v) {
      assert rows[i].id in db.chunks && db.chunks[rows[i].id].embedding == Some(v);
    }
    if c :| c in db.chunks && db.chunks[c].embedding == Some(v) {
      var i :| 0 <= i < |rows| && rows[i].id == c;
      assert rows[i].row.embedding == Some(v);
    }
  }

  lemma ReferredIs(db: DB, v: VecId)
    ensures W.Referenced(View(db), v) <==> exists c :: c in db.chunks && db.chunks[c].embedding == Some(v)
  {
    if c :| c in db.chunks && db.chunks[c].embedding == Some(v) { assert W.Refers(View(db), c, v); }
    if c :| W.Refers(View(db), c, v) { assert c in db.chunks && db.chunks[c].embedding == Some(v); }
  }

  datatype Answer = NoEmbedding | NoMatches | NoChunks | NoEdges(at: Lookup) | Context(chunks: seq<Found>,
      text: seq<Line>)

  /** Answers a query: ranking lists the live vectors, nearest first; the flags say which remote calls succeed. */
  method Retrieve(db: DB, ranking: seq<VecId>, topK: int, embedded: bool, queried: bool, rowsRead: bool,
                  reader: EdgeReader)
    returns (a: Answer, ghost found: seq<Found>)
    requires reader.asked == []
    modifies reader
    ensures a == NoEmbedding <==> !embedded
    ensures a == NoMatches <==> embedded && !queried
    ensures a == NoChunks <==> embedded && queried && !rowsRead
    ensures a.Context? || a.NoEdges? ==>
        ChunksFor(found, db, Nearest(ranking, if topK <= 0 then DEFAULT_TOP_K else topK))
    // of the chunks those, each once, whose embedding id is among the first seven or topK of the ranking
    ensures a.Context? || a.NoEdges? ==>
              && (forall i, j :: 0 <= i < j < |found| ==> found[i].id != found[j].id)
              && (forall i :: 0 <= i < |found| ==> found[i].id in db.chunks && found[i].row == db.chunks[found[i].id])
              && forall c :: c in db.chunks ==>
                   ((exists i :: 0 <= i < |found| && found[i].id == c) <==>
                    exists j :: 0 <= j < |ranking| && j < (if topK <= 0 then 7 else topK) &&
                                db.chunks[c].embedding == Some(ranking[j]))
    ensures a.Context? ==> a.chunks == found && Direct(found, reader.tables) == Ok(a.text)
    ensures a.NoEdges? ==> Direct(found, reader.tables) == Failed(a.at)
    ensures Distinct(reader.asked) && AllConcern(reader.asked, found)
  {
    assert Distinct<Lookup>([]) && AllConcern([], []);
    hide Direct;
    found := [];
    var k: nat := if topK <= 0 then DEFAULT_TOP_K else topK;
    if !embedded { return NoEmbedding, found; }
    if !queried { return NoMatches, found; }
    var ids := Nearest(ranking, k);
    if !rowsRead { return NoChunks, found; }
    var chunks := GetChunksByEmbeddingIDs(db, ids);
    found := chunks;
    NearestAre(ranking, k);
    hide Nearest;
    var r := BuildContext(chunks, reader);
    match r {
      case Ok(text) => a := Context(chunks, text);
      case Failed(at) => a := NoEdges(at);
    }
  }
}
