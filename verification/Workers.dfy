/** Two workers, the pipeline's discards and its inserts, step by step over the chunk table, the vector index and
    the two event queues. */
module Workers {
  import opened Base
  import opened Tables

  datatype Row = Row(file: Id, embedding: Option<VecId>, summary: Option<string>)

  /** One worker on its message: delivered, row read, vector upserted (the embedding worker only), column written. */
  datatype Phase = Idle | Delivered(chunk: Id) | Got(chunk: Id) | Holds(chunk: Id, vec: VecId) | Written(chunk: Id)

  /** Cleaning: the vectors of files were listed, and those in remaining are not deleted yet. */
  datatype Discard = NoDiscard | Cleaning(files: set<Id>, remaining: set<VecId>)

  /** A queue with its dead-letter queue, and the messages acknowledged so far. */
  datatype Channel = Channel(queue: seq<Id>, dead: multiset<Id>, acked: multiset<Id>)

  /** cleaned holds the files listed by a discard whose rows are still there; leaked the live vectors nothing will
      ever delete. */
  datatype World = World(
    chunks: map<Id, Row>, nextChunk: Id, live: set<VecId>, nextVec: VecId,
    published: multiset<Id>, embs: Channel, emb: Phase, sums: Channel, sum: Phase,
    discard: Discard, cleaned: set<Id>, leaked: set<VecId>)

  datatype Event =
    | Insert(rows: map<Id, Id>, next: Id)
    | Publish(chunk: Id)
    | List(files: set<Id>)
    | DeleteBatch(batch: set<VecId>)
    | DeleteRows
    | Abort
    | EmbDeliver
    | EmbGet
    | EmbFail(nacked: bool)
    | EmbUpsert
    | EmbWrite
    | EmbWriteFail(rolledBack: bool, nacked: bool)
    | EmbAck
    | EmbCrash
    | SumDeliver
    | SumGet
    | SumFail(nacked: bool)
    | SumWrite(text: string)
    | SumAck
    | SumCrash

  // ---------- What a step does ----------

  function Of(ph: Phase): multiset<Id> { if ph.Idle? then multiset{} else multiset{ph.chunk} }

  function Held(s: World): set<VecId> { if s.emb.Holds? then {s.emb.vec} else {} }

  /** A message not acknowledged comes back to the front; one rejected goes to the dead-letter queue. */
  function GiveUp(ch: Channel, chunk: Id, nacked: bool): Channel {
    if nacked then ch.(dead := ch.dead + multiset{chunk}) else ch.(queue := [chunk] + ch.queue)
  }

  function Vectors(chunks: map<Id, Row>, files: set<Id>): set<VecId> {
    set c | c in chunks && chunks[c].file in files && chunks[c].embedding.Some? :: chunks[c].embedding.value
  }

  function SetEmbedding(chunks: map<Id, Row>, c: Id, v: VecId): map<Id, Row> {
    if c in chunks then chunks[c := chunks[c].(embedding := Some(v))] else chunks
  }

  function SetSummary(chunks: map<Id, Row>, c: Id, text: string): map<Id, Row> {
    if c in chunks then chunks[c := chunks[c].(summary := Some(text))] else chunks
  }

  function RowsLeft(chunks: map<Id, Row>, files: set<Id>): map<Id, Row> {
    map c | c in chunks && chunks[c].file !in files :: chunks[c]
  }

  predicate Enabled(s: World, e: Event) {
    match e
    case Insert(rows, next) =>
      next >= s.nextChunk && forall c :: c in rows ==> s.nextChunk <= c < next && rows[c] !in s.cleaned
    case Publish(c) => c in s.chunks
    case List(files) => s.discard.NoDiscard?
    case DeleteBatch(batch) => s.discard.Cleaning? && batch <= s.discard.remaining
    case DeleteRows => s.discard.Cleaning? && s.discard.remaining == {}
    case Abort => s.discard.Cleaning?
    case EmbDeliver => s.emb.Idle? && s.embs.queue != []
    case EmbGet => s.emb.Delivered? && s.emb.chunk in s.chunks
    case EmbFail(_) => s.emb.Delivered? || s.emb.Got?
    case EmbUpsert => s.emb.Got?
    case EmbWrite => s.emb.Holds?
    case EmbWriteFail(_, _) => s.emb.Holds?
    case EmbAck => s.emb.Written?
    case EmbCrash => !s.emb.Idle?
    case SumDeliver => s.sum.Idle? && s.sums.queue != []
    case SumGet => s.sum.Delivered? && s.sum.chunk in s.chunks
    case SumFail(_) => s.sum.Delivered? || s.sum.Got?
    case SumWrite(_) => s.sum.Got?
    case SumAck => s.sum.Written?
    case SumCrash => !s.sum.Idle?
  }

  /** The vectors nothing refers to any more after the step, or nothing ever will. */
  function Leaks(s: World, e: Event): set<VecId>
    requires Enabled(s, e)
  {
    match e
    case DeleteRows => Vectors(s.chunks, s.discard.files)
    case EmbWrite =>
      if s.emb.chunk !in s.chunks then {s.emb.vec}
      else if s.chunks[s.emb.chunk].embedding.Some? then {s.chunks[s.emb.chunk].embedding.value}
      else {}
    case EmbWriteFail(rolledBack, _) => if rolledBack then {} else {s.emb.vec}
    case EmbCrash => Held(s)
    case _ => {}
  }

  function Moved(s: World, e: Event): World
    requires Enabled(s, e)
  {
    match e
    case Insert(rows, next) =>
      s.(chunks := s.chunks + (map c | c in rows :: Row(rows[c], None, None)), nextChunk := next)
    case Publish(c) =>
      s.(published := s.published + multiset{c},
         embs := s.embs.(queue := s.embs.queue + [c]), sums := s.sums.(queue := s.sums.queue + [c]))
    case List(files) => s.(discard := Cleaning(files, Vectors(s.chunks, files)), cleaned := s.cleaned + files)
    case DeleteBatch(batch) => s.(live := s.live - batch,
        discard := s.discard.(remaining := s.discard.remaining - batch))
    case DeleteRows => s.(chunks := RowsLeft(s.chunks, s.discard.files), discard := NoDiscard,
        cleaned := s.cleaned - s.discard.files)
    case Abort => s.(discard := NoDiscard)
    case EmbDeliver => s.(emb := Delivered(s.embs.queue[0]), embs := s.embs.(queue := s.embs.queue[1..]))
    case EmbGet => s.(emb := Got(s.emb.chunk))
    case EmbFail(nacked) => s.(emb := Idle, embs := GiveUp(s.embs, s.emb.chunk, nacked))
    case EmbUpsert => s.(emb := Holds(s.emb.chunk, s.nextVec), live := s.live + {s.nextVec}, nextVec := s.nextVec + 1)
    case EmbWrite => s.(emb := Written(s.emb.chunk), chunks := SetEmbedding(s.chunks, s.emb.chunk, s.emb.vec))
    case EmbWriteFail(rolledBack, nacked) =>
      s.(emb := Idle, embs := GiveUp(s.embs, s.emb.chunk, nacked),
          live := if rolledBack then s.live - {s.emb.vec} else s.live)
    case EmbAck => s.(emb := Idle, embs := s.embs.(acked := s.embs.acked + multiset{s.emb.chunk}))
    case EmbCrash => s.(emb := Idle, embs := GiveUp(s.embs, s.emb.chunk, false))
    case SumDeliver => s.(sum := Delivered(s.sums.queue[0]), sums := s.sums.(queue := s.sums.queue[1..]))
    case SumGet => s.(sum := Got(s.sum.chunk))
    case SumFail(nacked) => s.(sum := Idle, sums := GiveUp(s.sums, s.sum.chunk, nacked))
    case SumWrite(text) => s.(sum := Written(s.sum.chunk), chunks := SetSummary(s.chunks, s.sum.chunk, text))
    case SumAck => s.(sum := Idle, sums := s.sums.(acked := s.sums.acked + multiset{s.sum.chunk}))
    case SumCrash => s.(sum := Idle, sums := GiveUp(s.sums, s.sum.chunk, false))
  }

  function Apply(s: World, e: Event): World
    requires Enabled(s, e)
  {
    var s' := Moved(s, e);
    s'.(leaked := (s.leaked + Leaks(s, e)) * s'.live)
  }

  /** Where each step of the embedding worker leaves the message in hand: a rejected one is dead-lettered and does not
      come back, one neither rejected nor acknowledged is first in the queue again. */
  lemma EmbPlaces(s: World, e: Event)
    requires Enabled(s, e)
    ensures var q, d, k, after := s.embs.queue, s.embs.dead, s.embs.acked, Apply(s, e);
            match e
            case EmbDeliver => after.emb == Delivered(q[0]) && after.embs == Channel(q[1..], d, k)
            case EmbFail(nacked) =>
              after.emb.Idle? && after.embs == if nacked then Channel(q, d + multiset{s.emb.chunk}, k)
                                               else Channel([s.emb.chunk] + q, d, k)
            case EmbWriteFail(_, nacked) =>
              after.emb.Idle? && after.embs == if nacked then Channel(q, d + multiset{s.emb.chunk}, k)
                                               else Channel([s.emb.chunk] + q, d, k)
            case EmbCrash => after.emb.Idle? && after.embs == Channel([s.emb.chunk] + q, d, k)
            case EmbAck => after.emb.Idle? && after.embs == Channel(q, d, k + multiset{s.emb.chunk})
            case Publish(c) => after.emb == s.emb && after.embs == Channel(q + [c], d, k)
            case _ => after.embs == s.embs
  {
    hide Leaks;
  }

  /** The same for the summary worker. */
  lemma SumPlaces(s: World, e: Event)
    requires Enabled(s, e)
    ensures var q, d, k, after := s.sums.queue, s.sums.dead, s.sums.acked, Apply(s, e);
            match e
            case SumDeliver => after.sum == Delivered(q[0]) && after.sums == Channel(q[1..], d, k)
            case SumFail(nacked) =>
              after.sum.Idle? && after.sums == if nacked then Channel(q, d + multiset{s.sum.chunk}, k)
                                               else Channel([s.sum.chunk] + q, d, k)
            case SumCrash => after.sum.Idle? && after.sums == Channel([s.sum.chunk] + q, d, k)
            case SumAck => after.sum.Idle? && after.sums == Channel(q, d, k + multiset{s.sum.chunk})
            case Publish(c) => after.sum == s.sum && after.sums == Channel(q + [c], d, k)
            case _ => after.sums == s.sums
  {
    hide Leaks;
  }

  /** What the steps write: a fresh vector, its id or the summary into the row of the chunk if that is still there, and
      nothing into any other row. */
  lemma WhatStepsWrite(s: World, e: Event)
    requires Enabled(s, e)
    ensures var after := Apply(s, e);
            match e
            case EmbUpsert =>
              after.live == s.live + {s.nextVec} && after.nextVec == s.nextVec + 1 && after.chunks == s.chunks &&
              after.emb == Holds(s.emb.chunk, s.nextVec)
            case EmbWrite =>
              && after.live == s.live && after.chunks.Keys == s.chunks.Keys
              && forall c :: c in s.chunks ==>
                   after.chunks[c] == if c == s.emb.chunk then s.chunks[c].(embedding := Some(s.emb.vec))
                                      else s.chunks[c]
            case EmbWriteFail(rolledBack, _) =>
              after.chunks == s.chunks && after.live == if rolledBack then s.live - {s.emb.vec} else s.live
            case SumWrite(text) =>
              && after.live == s.live && after.chunks.Keys == s.chunks.Keys
              && forall c :: c in s.chunks ==>
                   after.chunks[c] == if c == s.sum.chunk then s.chunks[c].(summary := Some(text)) else s.chunks[c]
            case _ => !e.Insert? && !e.DeleteRows? ==> after.chunks == s.chunks
  {
    hide Leaks;
  }

  // ---------- Vectors ----------

  ghost predicate Refers(chunks: map<Id, Row>, c: Id, v: VecId) { c in chunks && chunks[c].embedding == Some(v) }

  ghost predicate Referenced(chunks: map<Id, Row>, v: VecId) { exists c :: Refers(chunks, c, v) }

  ghost predicate Injective(chunks: map<Id, Row>) {
    forall c, d, v :: Refers(chunks, c, v) && Refers(chunks, d, v) ==> c == d
  }

  ghost predicate Drawn(s: World) {
    && (forall c: Id, v: VecId :: Refers(s.chunks, c, v) ==> v < s.nextVec)
    && (forall v :: v in s.live ==> v < s.nextVec)
    && (forall c :: c in s.chunks ==> c < s.nextChunk)
    && s.leaked <= s.live && Held(s) <= s.live
  }

  /** Every live vector is accounted for exactly once: referred to by a chunk, held by the worker, or leaked. */
  ghost predicate Conserved(s: World) {
    && (forall v :: v in s.live ==> Referenced(s.chunks, v) || v in Held(s) || v in s.leaked)
    && (forall v :: v in Held(s) ==> !Referenced(s.chunks, v))
    && (forall v :: v in s.leaked ==> !Referenced(s.chunks, v) && v !in Held(s))
  }

  /** A chunk whose embedding id names no live vector is of a file whose vectors a discard has listed. */
  ghost predicate DanglesOnlyInCleaned(s: World) {
    forall c, v :: Refers(s.chunks, c, v) && v !in s.live ==> s.chunks[c].file in s.cleaned
  }

  ghost predicate CleaningOwn(s: World) {
    s.discard.Cleaning? ==>
      && s.discard.files <= s.cleaned
      && (forall v :: v in s.discard.remaining ==> v !in Held(s) && v < s.nextVec)
      && (forall c, v :: v in s.discard.remaining && Refers(s.chunks, c, v) ==> s.chunks[c].file in s.discard.files)
  }

  ghost predicate VectorInv(s: World) {
    Injective(s.chunks) && Drawn(s) && Conserved(s) && DanglesOnlyInCleaned(s) && CleaningOwn(s)
  }

  predicate MovesChunks(e: Event) {
    e.Insert? || e.DeleteRows? || e.EmbWrite? || e.SumWrite?
  }

  lemma VectorStep(s: World, e: Event)
    requires VectorInv(s) && Enabled(s, e)
    ensures VectorInv(Apply(s, e))
  {
    match e {
      case EmbWrite => WriteKeeps(s);
      case DeleteRows => RowsKeep(s);
      case Insert(rows, next) => InsertKeeps(s, rows, next);
      case SumWrite(text) => SummaryKeeps(s, text);
      case List(files) => ListKeeps(s, files);
      case DeleteBatch(batch) => BatchKeeps(s, batch);
      case EmbUpsert => UpsertKeeps(s);
      case EmbWriteFail(rolledBack, nacked) => WriteFailKeeps(s, rolledBack, nacked);
      case EmbCrash => CrashKeeps(s);
      case _ => OtherKeeps(s, e);
    }
  }

  lemma WriteKeeps(s: World)
    requires VectorInv(s) && s.emb.Holds?
    ensures VectorInv(Apply(s, EmbWrite))
  {
    var s', c, v := Apply(s, EmbWrite), s.emb.chunk, s.emb.vec;
    assert v in Held(s);
    if c in s.chunks {
      assert forall d, u :: Refers(s'.chunks, d, u) <==> if d == c then u == v else Refers(s.chunks, d, u);
      assert Refers(s'.chunks, c, v);
      assert s.chunks[c].embedding.Some? ==> Refers(s.chunks, c, s.chunks[c].embedding.value);
      forall u | u in s'.live ensures Referenced(s'.chunks, u) || u in s'.leaked {
        if Referenced(s.chunks, u) {
          var d :| Refers(s.chunks, d, u);
          assert d == c || Refers(s'.chunks, d, u);
        }
      }
    }
  }

  lemma RowsKeep(s: World)
    requires VectorInv(s) && Enabled(s, DeleteRows)
    ensures VectorInv(Apply(s, DeleteRows))
  {
    var s', files := Apply(s, DeleteRows), s.discard.files;
    assert forall d, u :: Refers(s'.chunks, d, u) <==> Refers(s.chunks, d, u) && s.chunks[d].file !in files;
    forall u | u in s'.live ensures Referenced(s'.chunks, u) || u in Held(s') || u in s'.leaked {
      if Referenced(s.chunks, u) {
        var d :| Refers(s.chunks, d, u);
        assert s.chunks[d].file in files || Refers(s'.chunks, d, u);
      }
    }
    forall u | u in Vectors(s.chunks, files) ensures !Referenced(s'.chunks, u) && u !in Held(s) {
      var d :| d in s.chunks && s.chunks[d].file in files && s.chunks[d].embedding == Some(u);
      assert Refers(s.chunks, d, u);
    }
  }

  lemma InsertKeeps(s: World, rows: map<Id, Id>, next: Id)
    requires VectorInv(s) && Enabled(s, Insert(rows, next))
    ensures VectorInv(Apply(s, Insert(rows, next)))
  {
    var s' := Apply(s, Insert(rows, next));
    SameReferences(s.chunks, s'.chunks);
  }

  lemma SummaryKeeps(s: World, text: string)
    requires VectorInv(s) && Enabled(s, SumWrite(text))
    ensures VectorInv(Apply(s, SumWrite(text)))
  {
    var s' := Apply(s, SumWrite(text));
    SameReferences(s.chunks, s'.chunks);
  }

  lemma SameReferences(a: map<Id, Row>, b: map<Id, Row>)
    requires forall c, v :: Refers(b, c, v) <==> Refers(a, c, v)
    ensures forall v :: Referenced(b, v) <==> Referenced(a, v)
    ensures Injective(a) ==> Injective(b)
  {
    forall v ensures Referenced(b, v) <==> Referenced(a, v) {
      if c :| Refers(a, c, v) { assert Refers(b, c, v); }
      if c :| Refers(b, c, v) { assert Refers(a, c, v); }
    }
  }

  lemma ListKeeps(s: World, files: set<Id>)
    requires VectorInv(s) && Enabled(s, List(files))
    ensures VectorInv(Apply(s, List(files)))
  {
    var s' := Apply(s, List(files));
    forall v | v in s'.discard.remaining
      ensures v !in Held(s') && v < s'.nextVec
      ensures forall c :: Refers(s.chunks, c, v) ==> s.chunks[c].file in files
    {
      var d :| d in s.chunks && s.chunks[d].file in files && s.chunks[d].embedding == Some(v);
      assert Refers(s.chunks, d, v);
    }
  }

  lemma BatchKeeps(s: World, batch: set<VecId>)
    requires VectorInv(s) && Enabled(s, DeleteBatch(batch))
    ensures VectorInv(Apply(s, DeleteBatch(batch)))
  {
  }

  lemma UpsertKeeps(s: World)
    requires VectorInv(s) && Enabled(s, EmbUpsert)
    ensures VectorInv(Apply(s, EmbUpsert))
  {
  }

  lemma WriteFailKeeps(s: World, rolledBack: bool, nacked: bool)
    requires VectorInv(s) && Enabled(s, EmbWriteFail(rolledBack, nacked))
    ensures VectorInv(Apply(s, EmbWriteFail(rolledBack, nacked)))
  {
  }

  lemma CrashKeeps(s: World)
    requires VectorInv(s) && Enabled(s, EmbCrash)
    ensures VectorInv(Apply(s, EmbCrash))
  {
  }

  /** The events that move neither chunks nor vectors. */
  predicate MovesVectors(e: Event) { e.List? || e.DeleteBatch? || e.EmbUpsert? || e.EmbWriteFail? || e.EmbCrash? }

  lemma OtherKeeps(s: World, e: Event)
    requires VectorInv(s) && Enabled(s, e) && !MovesChunks(e) && !MovesVectors(e)
    ensures VectorInv(Apply(s, e))
  {
    hide VectorInv;
    OtherMoves(s, e);
    hide *;
    SameVectors(s, Apply(s, e));
  }

  /** Chunks, vectors and the files listed for cleaning are the same; a discard may have been given up. */
  ghost predicate VectorsStay(s: World, s': World) {
    && s'.chunks == s.chunks && s'.nextChunk == s.nextChunk && s'.live == s.live && s'.nextVec == s.nextVec
    && Held(s') == Held(s) && s'.leaked == s.leaked * s.live && s'.cleaned == s.cleaned
    && (s'.discard == s.discard || s'.discard.NoDiscard?)
  }

  lemma OtherMoves(s: World, e: Event)
    requires Enabled(s, e) && !MovesChunks(e) && !MovesVectors(e)
    ensures VectorsStay(s, Apply(s, e))
  {
  }

  lemma SameVectors(s: World, s': World)
    requires VectorInv(s) && VectorsStay(s, s')
    ensures VectorInv(s')
  {
    hide Held;
  }

  // ---------- Events ----------

  /** Every published event is queued, in progress, rejected or acknowledged: none lost, none duplicated. */
  ghost predicate Accounted(published: multiset<Id>, ch: Channel, ph: Phase) {
    published == multiset(ch.queue) + Of(ph) + ch.dead + ch.acked
  }

  ghost predicate IdsDrawn(s: World) { forall c :: c in s.chunks || c in s.published ==> c < s.nextChunk }

  /** What an acknowledged or written event means for its chunk, if that is still there. */
  ghost predicate EmbMarked(s: World) {
    forall c :: (c in s.embs.acked || (s.emb.Written? && c == s.emb.chunk)) && c in s.chunks ==>
        s.chunks[c].embedding.Some?
  }

  ghost predicate SumMarked(s: World) {
    forall c :: (c in s.sums.acked || (s.sum.Written? && c == s.sum.chunk)) && c in s.chunks ==>
        s.chunks[c].summary.Some?
  }

  ghost predicate EventInv(s: World) {
    Accounted(s.published, s.embs, s.emb) && Accounted(s.published, s.sums, s.sum) && IdsDrawn(s) && EmbMarked(s) &&
        SumMarked(s)
  }

  lemma QueueFirst(queue: seq<Id>)
    requires queue != []
    ensures multiset(queue) == multiset{queue[0]} + multiset(queue[1..])
  {
    assert queue == [queue[0]] + queue[1..];
  }

  lemma GiveUpAccounted(published: multiset<Id>, ch: Channel, ph: Phase, nacked: bool)
    requires Accounted(published, ch, ph) && !ph.Idle?
    ensures Accounted(published, GiveUp(ch, ph.chunk, nacked), Idle)
  {
    QueueFirst([ph.chunk] + ch.queue);
  }

  lemma AckAccounted(published: multiset<Id>, ch: Channel, ph: Phase)
    requires Accounted(published, ch, ph) && !ph.Idle?
    ensures Accounted(published, ch.(acked := ch.acked + multiset{ph.chunk}), Idle)
  {
  }

  lemma DeliverAccounted(published: multiset<Id>, ch: Channel)
    requires Accounted(published, ch, Idle) && ch.queue != []
    ensures Accounted(published, ch.(queue := ch.queue[1..]), Delivered(ch.queue[0]))
  {
    QueueFirst(ch.queue);
  }

  lemma PublishAccounted(published: multiset<Id>, ch: Channel, ph: Phase, c: Id)
    requires Accounted(published, ch, ph)
    ensures Accounted(published + multiset{c}, ch.(queue := ch.queue + [c]), ph)
  {
  }

  lemma SamePlace(published: multiset<Id>, ch: Channel, ph: Phase, ph': Phase)
    requires Accounted(published, ch, ph) && Of(ph) == Of(ph')
    ensures Accounted(published, ch, ph')
  {
  }

  lemma EmbAccounted(s: World, e: Event)
    requires Accounted(s.published, s.embs, s.emb) && Enabled(s, e)
    ensures var s' := Apply(s, e); Accounted(s'.published, s'.embs, s'.emb)
  {
    hide Accounted, GiveUp, Leaks, SetEmbedding, SetSummary, RowsLeft, Vectors;
    match e {
      case Publish(c) => PublishAccounted(s.published, s.embs, s.emb, c);
      case EmbDeliver => DeliverAccounted(s.published, s.embs);
      case EmbGet => SamePlace(s.published, s.embs, s.emb, Got(s.emb.chunk));
      case EmbUpsert => SamePlace(s.published, s.embs, s.emb, Holds(s.emb.chunk, s.nextVec));
      case EmbWrite => SamePlace(s.published, s.embs, s.emb, Written(s.emb.chunk));
      case EmbFail(nacked) => GiveUpAccounted(s.published, s.embs, s.emb, nacked);
      case EmbWriteFail(_, nacked) => GiveUpAccounted(s.published, s.embs, s.emb, nacked);
      case EmbCrash => GiveUpAccounted(s.published, s.embs, s.emb, false);
      case EmbAck => AckAccounted(s.published, s.embs, s.emb);
      case _ =>
    }
  }

  lemma SumAccounted(s: World, e: Event)
    requires Accounted(s.published, s.sums, s.sum) && Enabled(s, e)
    ensures var s' := Apply(s, e); Accounted(s'.published, s'.sums, s'.sum)
  {
    hide Accounted, GiveUp, Leaks, SetEmbedding, SetSummary, RowsLeft, Vectors;
    match e {
      case Publish(c) => PublishAccounted(s.published, s.sums, s.sum, c);
      case SumDeliver => DeliverAccounted(s.published, s.sums);
      case SumGet => SamePlace(s.published, s.sums, s.sum, Got(s.sum.chunk));
      case SumWrite(_) => SamePlace(s.published, s.sums, s.sum, Written(s.sum.chunk));
      case SumFail(nacked) => GiveUpAccounted(s.published, s.sums, s.sum, nacked);
      case SumCrash => GiveUpAccounted(s.published, s.sums, s.sum, false);
      case SumAck => AckAccounted(s.published, s.sums, s.sum);
      case _ =>
    }
  }

  lemma WasPublished(published: multiset<Id>, ch: Channel, ph: Phase)
    requires Accounted(published, ch, ph)
    ensures forall c :: c in ch.acked || (!ph.Idle? && c == ph.chunk) ==> c in published
  {
    assert forall c :: c in multiset(ch.queue) + Of(ph) + ch.dead + ch.acked ==> c in published;
  }

  lemma MarkedStep(s: World, e: Event)
    requires EventInv(s) && Enabled(s, e)
    ensures IdsDrawn(Apply(s, e))
    ensures EmbMarked(Apply(s, e))
    ensures SumMarked(Apply(s, e))
  {
    hide *;
    MarkParts(s);
    WasPublished(s.published, s.embs, s.emb);
    WasPublished(s.published, s.sums, s.sum);
    IdsStep(s, e);
    EmbMarkStep(s, e);
    SumMarkStep(s, e);
  }

  lemma MarkParts(s: World)
    requires EventInv(s)
    ensures Accounted(s.published, s.embs, s.emb) && Accounted(s.published, s.sums, s.sum) && IdsDrawn(s) &&
        EmbMarked(s) && SumMarked(s)
  {
  }

  lemma IdsStep(s: World, e: Event)
    requires IdsDrawn(s) && Enabled(s, e)
    ensures IdsDrawn(Apply(s, e))
  {
    hide Leaks, Vectors;
  }

  lemma EmbMarkStep(s: World, e: Event)
    requires IdsDrawn(s) && EmbMarked(s) && Enabled(s, e)
    requires forall c :: c in s.embs.acked || (!s.emb.Idle? && c == s.emb.chunk) ==> c in s.published
    ensures EmbMarked(Apply(s, e))
  {
    hide Leaks, Vectors;
  }

  lemma SumMarkStep(s: World, e: Event)
    requires IdsDrawn(s) && SumMarked(s) && Enabled(s, e)
    requires forall c :: c in s.sums.acked || (!s.sum.Idle? && c == s.sum.chunk) ==> c in s.published
    ensures SumMarked(Apply(s, e))
  {
    hide Leaks, Vectors;
  }

  lemma EventStep(s: World, e: Event)
    requires EventInv(s) && Enabled(s, e)
    ensures EventInv(Apply(s, e))
  {
    hide Apply, Enabled, Accounted, IdsDrawn, EmbMarked, SumMarked;
    EmbAccounted(s, e);
    SumAccounted(s, e);
    MarkedStep(s, e);
  }

  lemma NotLost(s: World, c: Id)
    requires EventInv(s) && c in s.published && c in s.chunks
    ensures s.chunks[c].embedding.Some? || c in s.embs.queue || (!s.emb.Idle? && s.emb.chunk == c) || c in s.embs.dead
    ensures s.chunks[c].summary.Some? || c in s.sums.queue || (!s.sum.Idle? && s.sum.chunk == c) || c in s.sums.dead
  {
    assert c in multiset(s.embs.queue) + Of(s.emb) + s.embs.dead + s.embs.acked;
    assert c in multiset(s.sums.queue) + Of(s.sum) + s.sums.dead + s.sums.acked;
  }

  // ---------- Histories ----------

  ghost predicate Init(s: World) {
    && s.published == multiset{} && s.embs == Channel([], multiset{}, multiset{}) && s.sums == s.embs
    && s.emb.Idle? && s.sum.Idle? && s.discard.NoDiscard? && s.leaked == {} && s.cleaned == {}
    && s.chunks == map[] && s.live == {}
  }

  ghost predicate History(states: seq<World>, events: seq<Event>) {
    && |states| == |events| + 1 && Init(states[0])
    && forall k :: 0 <= k < |events| ==> Enabled(states[k], events[k]) && states[k + 1] == Apply(states[k], events[k])
  }

  lemma {:induction false} Always(states: seq<World>, events: seq<Event>)
    requires History(states, events)
    ensures VectorInv(states[|events|]) && EventInv(states[|events|])
  {
    hide Apply, Enabled;
    if events != [] {
      var n := |events| - 1;
      assert History(states[..n + 1], events[..n]);
      Always(states[..n + 1], events[..n]);
      hide VectorInv, EventInv;
      VectorStep(states[n], events[n]);
      EventStep(states[n], events[n]);
    }
  }

  /** The transitions that can leave a vector without a referrer. */
  predicate MayLeak(s: World, e: Event) {
    match e
    case DeleteRows =>
      s.discard.Cleaning? &&
      exists c :: c in s.chunks && s.chunks[c].file in s.discard.files &&
                  s.chunks[c].embedding.Some? && s.chunks[c].embedding.value in s.live
    case EmbWrite =>
      s.emb.Holds? &&
      (s.emb.chunk !in s.chunks || (s.chunks[s.emb.chunk].embedding.Some? &&
          s.chunks[s.emb.chunk].embedding.value in s.live))
    case EmbWriteFail(rolledBack, _) => s.emb.Holds? && !rolledBack
    case EmbCrash => s.emb.Holds?
    case _ => false
  }

  /** The leak set grows exactly at a write-back to a deleted chunk, a re-embedding that overwrites a live vector's
      id, a row delete that finds a vector written back after the listing, a crash between upsert and write-back, or a
      failed rollback. */
  lemma LeaksExactlyThere(s: World, e: Event)
    requires VectorInv(s) && Enabled(s, e)
    ensures MayLeak(s, e) <==> exists v :: v in Apply(s, e).leaked && v !in s.leaked
  {
    var s' := Apply(s, e);
    assert forall v :: v in s'.leaked ==> v in s.leaked || v in Leaks(s, e);
    match e {
      case DeleteRows =>
        if MayLeak(s, e) {
          var c :| c in s.chunks && s.chunks[c].file in s.discard.files && s.chunks[c].embedding.Some? &&
              s.chunks[c].embedding.value in s.live;
          LeakedNow(s, e, c, s.chunks[c].embedding.value);
        }
      case EmbWrite =>
        if MayLeak(s, e) {
          if s.emb.chunk in s.chunks {
            LeakedNow(s, e, s.emb.chunk, s.chunks[s.emb.chunk].embedding.value);
          } else {
            HeldLeaks(s, e);
          }
        }
      case EmbWriteFail(_, _) => if MayLeak(s, e) { HeldLeaks(s, e); }
      case EmbCrash => if MayLeak(s, e) { HeldLeaks(s, e); }
      case _ =>
    }
  }

  lemma LeakedNow(s: World, e: Event, c: Id, v: VecId)
    requires VectorInv(s) && Enabled(s, e) && Refers(s.chunks, c, v) && v in s.live && v in Leaks(s, e) &&
        (e.DeleteRows? || e.EmbWrite?)
    ensures v in Apply(s, e).leaked && v !in s.leaked
  {
    assert Referenced(s.chunks, v);
  }

  lemma HeldLeaks(s: World, e: Event)
    requires VectorInv(s) && Enabled(s, e) && s.emb.Holds? && Leaks(s, e) == {s.emb.vec} && Moved(s, e).live == s.live
    ensures s.emb.vec in Apply(s, e).leaked && s.emb.vec !in s.leaked
  {
    assert s.emb.vec in Held(s);
  }

  lemma NoNewLeak(s: World, e: Event)
    requires VectorInv(s) && Enabled(s, e) && !MayLeak(s, e)
    ensures Apply(s, e).leaked <= s.leaked
  {
    LeaksExactlyThere(s, e);
  }

  /** Without those transitions every live vector is referred to by exactly one chunk, or held by the worker. */
  lemma {:induction false} NothingLeaks(states: seq<World>, events: seq<Event>)
    requires History(states, events)
    requires forall k :: 0 <= k < |events| ==> !MayLeak(states[k], events[k])
    ensures states[|events|].leaked == {}
  {
    hide Apply, Enabled, VectorInv, EventInv, MayLeak;
    if events != [] {
      var n := |events| - 1;
      assert History(states[..n + 1], events[..n]);
      NothingLeaks(states[..n + 1], events[..n]);
      Always(states[..n + 1], events[..n]);
      NoNewLeak(states[n], events[n]);
    }
  }

  /** In every reachable state: each live vector has exactly one of one referring chunk, the worker, or the leak set;
      and a chunk pointing at no live vector belongs to a file listed by a discard whose rows are still there. */
  lemma VectorConservation(states: seq<World>, events: seq<Event>, v: VecId)
    requires History(states, events)
    ensures var s := states[|events|];
            && (v in s.live ==> Referenced(s.chunks, v) || v in Held(s) || v in s.leaked)
            && !(Referenced(s.chunks, v) && v in Held(s)) && !(Referenced(s.chunks, v) && v in s.leaked) &&
                !(v in Held(s) && v in s.leaked)
            && (forall c, d :: Refers(s.chunks, c, v) && Refers(s.chunks, d, v) ==> c == d)
            && (forall c :: Refers(s.chunks, c, v) && v !in s.live ==> s.chunks[c].file in s.cleaned)
  {
    Always(states, events);
    hide History, EventInv;
  }

  /** In every reachable state, an event published for a chunk that is still there has left its mark, or is queued, in
      progress or rejected, on each of the two queues. */
  lemma NoEventLost(states: seq<World>, events: seq<Event>, c: Id)
    requires History(states, events)
    requires c in states[|events|].published && c in states[|events|].chunks
    ensures var s := states[|events|];
            s.chunks[c].embedding.Some? || c in s.embs.queue || (!s.emb.Idle? && s.emb.chunk == c) || c in s.embs.dead
    ensures var s := states[|events|];
            s.chunks[c].summary.Some? || c in s.sums.queue || (!s.sum.Idle? && s.sum.chunk == c) || c in s.sums.dead
  {
    Always(states, events);
    hide History, VectorInv, EventInv;
    NotLost(states[|events|], c);
  }

  /** A delivered event whose chunk is gone can only be rejected or crash the worker. */
  lemma MissingRowCrashes(s: World, e: Event)
    requires s.emb.Delivered? && s.emb.chunk !in s.chunks && Enabled(s, e)
    ensures Apply(s, e).emb != s.emb ==> e.EmbFail? || e.EmbCrash?
    ensures Apply(s, e).emb != s.emb ==> Apply(s, e).emb.Idle? && Apply(s, e).embs.acked == s.embs.acked
  {
  }

  /** The row of the chunk is gone, and no worker has read it. */
  ghost predicate Gone(s: World, c: Id) {
    && c !in s.chunks && c < s.nextChunk
    && (s.emb.Idle? || s.emb.Delivered? || s.emb.chunk != c) && (s.sum.Idle? || s.sum.Delivered? || s.sum.chunk != c)
  }

  lemma GoneStep(s: World, e: Event, c: Id)
    requires Gone(s, c) && Enabled(s, e)
    ensures Gone(Apply(s, e), c)
    ensures Apply(s, e).embs.acked[c] == s.embs.acked[c] && Apply(s, e).sums.acked[c] == s.sums.acked[c]
  {
    hide Leaks, Vectors;
  }

  /** Once that is so, it stays so whatever happens, and neither worker ever acknowledges an event of the chunk: each
      stays queued, in progress or rejected, for ever. */
  lemma {:induction false} MissingRowNeverAcked(states: seq<World>, events: seq<Event>, c: Id)
    requires |states| == |events| + 1 && Gone(states[0], c) && EventInv(states[0])
    requires forall k :: 0 <= k < |events| ==>
               Enabled(states[k], events[k]) && states[k + 1] == Apply(states[k], events[k])
    ensures var s, s' := states[0], states[|events|];
            && Gone(s', c) && s'.embs.acked[c] == s.embs.acked[c] && s'.sums.acked[c] == s.sums.acked[c]
            && EventInv(s')
            && s'.published[c] - s.embs.acked[c] == multiset(s'.embs.queue)[c] + Of(s'.emb)[c] + s'.embs.dead[c]
            && s'.published[c] - s.sums.acked[c] == multiset(s'.sums.queue)[c] + Of(s'.sum)[c] + s'.sums.dead[c]
  {
    hide Apply, Enabled, Gone, IdsDrawn, EmbMarked, SumMarked;
    if events != [] {
      var n := |events| - 1;
      MissingRowNeverAcked(states[..n + 1], events[..n], c);
      GoneStep(states[n], events[n], c);
      EventStep(states[n], events[n]);
    }
  }
}
