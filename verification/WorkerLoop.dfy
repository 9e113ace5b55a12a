/** The two message handlers, as sequences of steps between which anything else may happen. */
module WorkerLoop {
  import opened Base
  import opened Tables
  import opened Workers

  function Replay(s: World, events: seq<Event>): Option<World> {
    if events == [] then Some(s)
    else
      var before := Replay(s, events[..|events| - 1]);
      var e := events[|events| - 1];
      if before.Some? && Enabled(before.value, e) then Some(Apply(before.value, e)) else None
  }

  lemma {:induction false} ReplayKeeps(s: World, events: seq<Event>)
    requires VectorInv(s) && EventInv(s) && Replay(s, events).Some?
    ensures VectorInv(Replay(s, events).value) && EventInv(Replay(s, events).value)
  {
    hide Apply, Enabled, VectorInv, EventInv;
    if events != [] {
      var n := |events| - 1;
      ReplayKeeps(s, events[..n]);
      VectorStep(Replay(s, events[..n]).value, events[n]);
      EventStep(Replay(s, events[..n]).value, events[n]);
    }
  }

  predicate OfEmb(e: Event) {
    e.EmbDeliver? || e.EmbGet? || e.EmbFail? || e.EmbUpsert? || e.EmbWrite? || e.EmbWriteFail? || e.EmbAck? ||
        e.EmbCrash?
  }

  predicate OfSum(e: Event) { e.SumDeliver? || e.SumGet? || e.SumFail? || e.SumWrite? || e.SumAck? || e.SumCrash? }

  /** What the calls of one handling answer: the row could be read, the text processed, the vector upserted, the
      column written, the vector rolled back, the message rejected, the message acknowledged. */
  datatype Answers = Answers(read: bool, generate: bool, upsert: bool, write: bool, rollback: bool, nack: bool,
      ack: bool)

  datatype Ending = Acked | Rejected | ComesBack | Panicked

  /** The steps of the embedding worker among the steps, or of the summary worker. */
  function EmbSteps(log: seq<Event>): seq<Event> {
    if log == [] then []
    else EmbSteps(log[..|log| - 1]) + (if OfEmb(log[|log| - 1]) then [log[|log| - 1]] else [])
  }

  function SumSteps(log: seq<Event>): seq<Event> {
    if log == [] then []
    else SumSteps(log[..|log| - 1]) + (if OfSum(log[|log| - 1]) then [log[|log| - 1]] else [])
  }

  class Cluster {
    var s: World

    /** What everybody else does before each coming step of the handler. */
    var env: seq<seq<Event>>

    /** The steps so far, and where they began. */
    ghost var start: World
    ghost var log: seq<Event>

    ghost predicate Valid() reads this { Replay(start, log) == Some(s) }

    constructor (s: World, env: seq<seq<Event>>)
      ensures Valid() && this.s == s && this.env == env
    {
      this.s, this.env, this.start, this.log := s, env, s, [];
    }

    method Do(e: Event)
      requires Valid() && Enabled(s, e)
      modifies this
      ensures Valid() && start == old(start) && old(log) <= log
      ensures s == Apply(old(s), e) && env == old(env)
      ensures EmbSteps(log) == EmbSteps(old(log)) + (if OfEmb(e) then [e] else [])
      ensures SumSteps(log) == SumSteps(old(log)) + (if OfSum(e) then [e] else [])
    {
      hide Apply, Enabled, OfEmb, OfSum;
      Snoc(log, e);
      s, log := Apply(s, e), log + [e];
    }

    /** Whatever the others do that can happen, happens. */
    method Others(emb: bool)
      requires Valid()
      modifies this
      ensures Valid() && start == old(start) && old(log) <= log
      ensures if emb then Untouched(old(s).embs, old(s).emb, s.embs, s.emb) else Untouched(old(s).sums, old(s).sum,
          s.sums, s.sum)
      ensures if emb then EmbSteps(log) == EmbSteps(old(log)) else SumSteps(log) == SumSteps(old(log))
      ensures KeepsGone(old(s), s)
    {
      if |env| == 0 { return; }
      var events := env[0];
      env := env[1..];
      for i := 0 to |events|
        invariant Valid() && start == old(start) && old(log) <= log
        invariant if emb then Untouched(old(s).embs, old(s).emb, s.embs, s.emb) else Untouched(old(s).sums, old(s).sum,
            s.sums, s.sum)
        invariant if emb then EmbSteps(log) == EmbSteps(old(log)) else SumSteps(log) == SumSteps(old(log))
        invariant KeepsGone(old(s), s)
      {
        hide Valid, Replay, EmbSteps, SumSteps, KeepsGone;
        if Enabled(s, events[i]) && (if emb then !OfEmb(events[i]) else !OfSum(events[i])) {
          OthersStep(s, events[i], emb);
          GoneStays(old(s), s, events[i]);
          Do(events[i]);
        }
      }
    }

    /** Handles the first embedding event: reads the row, embeds it, upserts the vector, writes its id back, rolls the
        vector back when that fails, and acknowledges. A row that is gone panics the worker. */
    method HandleEmbedding(a: Answers) returns (end: Ending)
      requires Valid() && s.emb.Idle? && s.embs.queue != []
      modifies this
      ensures Valid() && start == old(start) && old(log) <= log
      ensures Ended(end, old(s).embs, old(s).embs.queue[0], s.embs, s.emb)
      ensures end != Panicked ==> (end == Acked <==> a.read && a.generate && a.upsert && a.write && a.ack)
      ensures end != Panicked ==> (end == Rejected <==> !(a.read && a.generate && a.upsert && a.write) && a.nack)
      ensures end == Panicked ==> a.read && old(s).embs.queue[0] !in s.chunks
      ensures a.read && NeverAgain(old(s), old(s).embs.queue[0]) ==> end == Panicked
      ensures EmbSteps(log) == EmbSteps(old(log)) +
              if !a.read then [EmbDeliver, EmbFail(a.nack)]
              else if end == Panicked then [EmbDeliver, EmbCrash]
              else if !a.generate || !a.upsert then [EmbDeliver, EmbGet, EmbFail(a.nack)]
              else if !a.write then [EmbDeliver, EmbGet, EmbUpsert, EmbWriteFail(a.rollback, a.nack)]
              else [EmbDeliver, EmbGet, EmbUpsert, EmbWrite, if a.ack then EmbAck else EmbCrash]
    {
      hide *;
      ghost var s0, steps := s, EmbSteps(log);
      var chunk := s.embs.queue[0];
      EmbDelivers(s);
      Do(EmbDeliver);
      ghost var s1 := s;
      Others(true);
      KeepsOn(s1.embs, s1.emb, s.embs, s.emb);
      StillGone(s0, s1, s, chunk);
      if !a.read {
        EmbFails(s0, s, a);
        Do(EmbFail(a.nack));
        return if a.nack then Rejected else ComesBack;
      }
      if chunk !in s.chunks {
        EmbCrashes(s0, s, Panicked);
        Do(EmbCrash);
        return Panicked;
      }
      EmbGets(s0, s);
      Do(EmbGet);
      ghost var s2 := s;
      Others(true);
      KeepsOn(s2.embs, s2.emb, s.embs, s.emb);
      end := Embed(a, s0);
    }

    /** Embeds the text of the row and upserts the vector. */
    method Embed(a: Answers, ghost s0: World) returns (end: Ending)
      requires Valid() && s.emb.Got? && InHand(s0.embs, s.embs)
      modifies this
      ensures Valid() && start == old(start) && old(log) <= log
      ensures Ended(end, s0.embs, old(s).emb.chunk, s.embs, s.emb)
      ensures end == if a.generate && a.upsert && a.write then (if a.ack then Acked else ComesBack)
                     else if a.nack then Rejected else ComesBack
      ensures EmbSteps(log) == EmbSteps(old(log)) +
              if !a.generate || !a.upsert then [EmbFail(a.nack)]
              else if !a.write then [EmbUpsert, EmbWriteFail(a.rollback, a.nack)]
              else [EmbUpsert, EmbWrite, if a.ack then EmbAck else EmbCrash]
    {
      hide *;
      if !a.generate || !a.upsert {
        EmbFails(s0, s, a);
        Do(EmbFail(a.nack));
        return if a.nack then Rejected else ComesBack;
      }
      EmbUpserts(s0, s);
      Do(EmbUpsert);
      ghost var s3 := s;
      Others(true);
      KeepsOn(s3.embs, s3.emb, s.embs, s.emb);
      end := WriteBack(a, s0);
    }

    /** Points the chunk at its new vector, or takes the vector back. */
    method WriteBack(a: Answers, ghost s0: World) returns (end: Ending)
      requires Valid() && s.emb.Holds? && InHand(s0.embs, s.embs)
      modifies this
      ensures Valid() && start == old(start) && old(log) <= log
      ensures Ended(end, s0.embs, old(s).emb.chunk, s.embs, s.emb)
      ensures end == if a.write then (if a.ack then Acked else ComesBack) else if a.nack then Rejected else ComesBack
      ensures EmbSteps(log) == EmbSteps(old(log)) +
              if !a.write then [EmbWriteFail(a.rollback, a.nack)]
              else [EmbWrite, if a.ack then EmbAck else EmbCrash]
    {
      hide *;
      if !a.write {
        EmbWriteFails(s0, s, a);
        Do(EmbWriteFail(a.rollback, a.nack));
        return if a.nack then Rejected else ComesBack;
      }
      EmbWrites(s0, s);
      Do(EmbWrite);
      ghost var s4 := s;
      Others(true);
      KeepsOn(s4.embs, s4.emb, s.embs, s.emb);
      if !a.ack {
        EmbCrashes(s0, s, ComesBack);
        Do(EmbCrash);
        return ComesBack;
      }
      EmbAcks(s0, s);
      Do(EmbAck);
      end := Acked;
    }

    /** Handles the first summary event. */
    method HandleSummary(a: Answers, text: string) returns (end: Ending)
      requires Valid() && s.sum.Idle? && s.sums.queue != []
      modifies this
      ensures Valid() && start == old(start) && old(log) <= log
      ensures Ended(end, old(s).sums, old(s).sums.queue[0], s.sums, s.sum)
      ensures end != Panicked ==> (end == Acked <==> a.read && a.generate && a.write && a.ack)
      ensures end != Panicked ==> (end == Rejected <==> !(a.read && a.generate && a.write) && a.nack)
      ensures end == Panicked ==> a.read && old(s).sums.queue[0] !in s.chunks
      ensures a.read && NeverAgain(old(s), old(s).sums.queue[0]) ==> end == Panicked
      ensures SumSteps(log) == SumSteps(old(log)) +
              if !a.read then [SumDeliver, SumFail(a.nack)]
              else if end == Panicked then [SumDeliver, SumCrash]
              else if !a.generate || !a.write then [SumDeliver, SumGet, SumFail(a.nack)]
              else [SumDeliver, SumGet, SumWrite(text), if a.ack then SumAck else SumCrash]
    {
      hide *;
      ghost var s0 := s;
      var chunk := s.sums.queue[0];
      SumDelivers(s);
      Do(SumDeliver);
      ghost var s1 := s;
      Others(false);
      KeepsOn(s1.sums, s1.sum, s.sums, s.sum);
      StillGone(s0, s1, s, chunk);
      if !a.read {
        SumFails(s0, s, a);
        Do(SumFail(a.nack));
        return if a.nack then Rejected else ComesBack;
      }
      if chunk !in s.chunks {
        SumCrashes(s0, s, Panicked);
        Do(SumCrash);
        return Panicked;
      }
      SumGets(s0, s);
      Do(SumGet);
      ghost var s2 := s;
      Others(false);
      KeepsOn(s2.sums, s2.sum, s.sums, s.sum);
      end := Summarize(a, text, s0);
    }

    method Summarize(a: Answers, text: string, ghost s0: World) returns (end: Ending)
      requires Valid() && s.sum.Got? && InHand(s0.sums, s.sums)
      modifies this
      ensures Valid() && start == old(start) && old(log) <= log
      ensures Ended(end, s0.sums, old(s).sum.chunk, s.sums, s.sum)
      ensures end == if a.generate && a.write then (if a.ack then Acked else ComesBack)
                     else if a.nack then Rejected else ComesBack
      ensures SumSteps(log) == SumSteps(old(log)) +
              if !a.generate || !a.write then [SumFail(a.nack)]
              else [SumWrite(text), if a.ack then SumAck else SumCrash]
    {
      hide *;
      if !a.generate || !a.write {
        SumFails(s0, s, a);
        Do(SumFail(a.nack));
        return if a.nack then Rejected else ComesBack;
      }
      SumWrites(s0, s, text);
      Do(SumWrite(text));
      ghost var s3 := s;
      Others(false);
      KeepsOn(s3.sums, s3.sum, s.sums, s.sum);
      if !a.ack {
        SumCrashes(s0, s, ComesBack);
        Do(SumCrash);
        return ComesBack;
      }
      SumAcks(s0, s);
      Do(SumAck);
      end := Acked;
    }
  }

  /** The others may add events to the queue, and nothing else. */
  ghost predicate Untouched(a: Channel, ph: Phase, b: Channel, ph': Phase) {
    ph == ph' && a.dead == b.dead && a.acked == b.acked && a.queue <= b.queue
  }

  /** The message before.queue begins with is in hand; behind it the queue may have grown. */
  ghost predicate InHand(before: Channel, now: Channel) {
    before.queue != [] && before.queue[1..] <= now.queue && now.dead == before.dead && now.acked == before.acked
  }

  lemma KeepsOn(a: Channel, ph: Phase, b: Channel, ph': Phase)
    requires Untouched(a, ph, b, ph')
    ensures ph == ph' && forall ch :: InHand(ch, a) ==> InHand(ch, b)
  {
  }

  /** The chunk is gone, and no insert will bring its id back. */
  ghost predicate NeverAgain(s: World, c: Id) { c !in s.chunks && c < s.nextChunk }

  ghost predicate KeepsGone(s: World, s': World) { forall c :: NeverAgain(s, c) ==> NeverAgain(s', c) }

  lemma GoneStays(s0: World, s: World, e: Event)
    requires KeepsGone(s0, s) && Enabled(s, e)
    ensures KeepsGone(s0, Apply(s, e))
  {
    hide Leaks, Vectors;
  }

  lemma StillGone(s0: World, s1: World, s: World, c: Id)
    requires s1.chunks == s0.chunks && s1.nextChunk == s0.nextChunk && KeepsGone(s1, s)
    ensures NeverAgain(s0, c) ==> c !in s.chunks
  {
    assert NeverAgain(s0, c) ==> NeverAgain(s1, c) && NeverAgain(s, c);
  }

  // What each step leaves of the message in hand.

  lemma EmbDelivers(s: World)
    requires s.emb.Idle? && s.embs.queue != []
    ensures Enabled(s, EmbDeliver) && OfEmb(EmbDeliver)
    ensures var s' := Apply(s, EmbDeliver);
            && s'.emb == Delivered(s.embs.queue[0]) && InHand(s.embs, s'.embs)
            && s'.chunks == s.chunks && s'.nextChunk == s.nextChunk
  {
    EmbPlaces(s, EmbDeliver);
    hide Leaks, Vectors, RowsLeft, SetEmbedding, SetSummary, GiveUp;
  }

  lemma EmbGets(s0: World, s: World)
    requires InHand(s0.embs, s.embs) && s.emb.Delivered? && s.emb.chunk in s.chunks
    ensures Enabled(s, EmbGet) && OfEmb(EmbGet)
    ensures var s' := Apply(s, EmbGet); s'.emb == Got(s.emb.chunk) && InHand(s0.embs, s'.embs)
  {
    EmbPlaces(s, EmbGet);
    hide Leaks, Vectors, RowsLeft, SetEmbedding, SetSummary, GiveUp;
  }

  lemma EmbUpserts(s0: World, s: World)
    requires InHand(s0.embs, s.embs) && s.emb.Got?
    ensures Enabled(s, EmbUpsert) && OfEmb(EmbUpsert)
    ensures var s' := Apply(s, EmbUpsert); s'.emb == Holds(s.emb.chunk, s.nextVec) && InHand(s0.embs, s'.embs)
  {
    EmbPlaces(s, EmbUpsert);
    hide Leaks, Vectors, RowsLeft, SetEmbedding, SetSummary, GiveUp;
  }

  lemma EmbWrites(s0: World, s: World)
    requires InHand(s0.embs, s.embs) && s.emb.Holds?
    ensures Enabled(s, EmbWrite) && OfEmb(EmbWrite)
    ensures var s' := Apply(s, EmbWrite); s'.emb == Written(s.emb.chunk) && InHand(s0.embs, s'.embs)
  {
    EmbPlaces(s, EmbWrite);
    hide Leaks, Vectors, RowsLeft, SetEmbedding, SetSummary, GiveUp;
  }

  lemma EmbWriteFails(s0: World, s: World, a: Answers)
    requires InHand(s0.embs, s.embs) && s.emb.Holds?
    ensures Enabled(s, EmbWriteFail(a.rollback, a.nack)) && OfEmb(EmbWriteFail(a.rollback, a.nack))
    ensures var s' := Apply(s, EmbWriteFail(a.rollback, a.nack)); Ended(if a.nack then Rejected else ComesBack,
        s0.embs, s.emb.chunk, s'.embs, s'.emb)
  {
    EmbPlaces(s, EmbWriteFail(a.rollback, a.nack));
    hide Leaks, Vectors, RowsLeft, SetEmbedding, SetSummary, GiveUp;
  }

  lemma EmbFails(s0: World, s: World, a: Answers)
    requires InHand(s0.embs, s.embs) && (s.emb.Delivered? || s.emb.Got?)
    ensures Enabled(s, EmbFail(a.nack)) && OfEmb(EmbFail(a.nack))
    ensures var s' := Apply(s, EmbFail(a.nack)); Ended(if a.nack then Rejected else ComesBack, s0.embs,
        s.emb.chunk, s'.embs, s'.emb)
  {
    EmbPlaces(s, EmbFail(a.nack));
    hide Leaks, Vectors, RowsLeft, SetEmbedding, SetSummary, GiveUp;
  }

  lemma EmbCrashes(s0: World, s: World, end: Ending)
    requires InHand(s0.embs, s.embs) && !s.emb.Idle? && (end == ComesBack || end == Panicked)
    ensures Enabled(s, EmbCrash) && OfEmb(EmbCrash)
    ensures var s' := Apply(s, EmbCrash);
            Ended(end, s0.embs, s.emb.chunk, s'.embs, s'.emb) && s'.chunks == s.chunks
  {
    EmbPlaces(s, EmbCrash);
    hide Leaks, Vectors, RowsLeft, SetEmbedding, SetSummary, GiveUp;
  }

  lemma EmbAcks(s0: World, s: World)
    requires InHand(s0.embs, s.embs) && s.emb.Written?
    ensures Enabled(s, EmbAck) && OfEmb(EmbAck)
    ensures var s' := Apply(s, EmbAck); Ended(Acked, s0.embs, s.emb.chunk, s'.embs, s'.emb)
  {
    EmbPlaces(s, EmbAck);
    hide Leaks, Vectors, RowsLeft, SetEmbedding, SetSummary, GiveUp;
  }

  lemma SumDelivers(s: World)
    requires s.sum.Idle? && s.sums.queue != []
    ensures Enabled(s, SumDeliver) && OfSum(SumDeliver)
    ensures var s' := Apply(s, SumDeliver);
            && s'.sum == Delivered(s.sums.queue[0]) && InHand(s.sums, s'.sums)
            && s'.chunks == s.chunks && s'.nextChunk == s.nextChunk
  {
    SumPlaces(s, SumDeliver);
    hide Leaks, Vectors, RowsLeft, SetEmbedding, SetSummary, GiveUp;
  }

  lemma SumGets(s0: World, s: World)
    requires InHand(s0.sums, s.sums) && s.sum.Delivered? && s.sum.chunk in s.chunks
    ensures Enabled(s, SumGet) && OfSum(SumGet)
    ensures var s' := Apply(s, SumGet); s'.sum == Got(s.sum.chunk) && InHand(s0.sums, s'.sums)
  {
    SumPlaces(s, SumGet);
    hide Leaks, Vectors, RowsLeft, SetEmbedding, SetSummary, GiveUp;
  }

  lemma SumWrites(s0: World, s: World, text: string)
    requires InHand(s0.sums, s.sums) && s.sum.Got?
    ensures Enabled(s, SumWrite(text)) && OfSum(SumWrite(text))
    ensures var s' := Apply(s, SumWrite(text)); s'.sum == Written(s.sum.chunk) && InHand(s0.sums, s'.sums)
  {
    SumPlaces(s, SumWrite(text));
    hide Leaks, Vectors, RowsLeft, SetEmbedding, SetSummary, GiveUp;
  }

  lemma SumFails(s0: World, s: World, a: Answers)
    requires InHand(s0.sums, s.sums) && (s.sum.Delivered? || s.sum.Got?)
    ensures Enabled(s, SumFail(a.nack)) && OfSum(SumFail(a.nack))
    ensures var s' := Apply(s, SumFail(a.nack)); Ended(if a.nack then Rejected else ComesBack, s0.sums,
        s.sum.chunk, s'.sums, s'.sum)
  {
    SumPlaces(s, SumFail(a.nack));
    hide Leaks, Vectors, RowsLeft, SetEmbedding, SetSummary, GiveUp;
  }

  lemma SumCrashes(s0: World, s: World, end: Ending)
    requires InHand(s0.sums, s.sums) && !s.sum.Idle? && (end == ComesBack || end == Panicked)
    ensures Enabled(s, SumCrash) && OfSum(SumCrash)
    ensures var s' := Apply(s, SumCrash);
            Ended(end, s0.sums, s.sum.chunk, s'.sums, s'.sum) && s'.chunks == s.chunks
  {
    SumPlaces(s, SumCrash);
    hide Leaks, Vectors, RowsLeft, SetEmbedding, SetSummary, GiveUp;
  }

  lemma SumAcks(s0: World, s: World)
    requires InHand(s0.sums, s.sums) && s.sum.Written?
    ensures Enabled(s, SumAck) && OfSum(SumAck)
    ensures var s' := Apply(s, SumAck); Ended(Acked, s0.sums, s.sum.chunk, s'.sums, s'.sum)
  {
    SumPlaces(s, SumAck);
    hide Leaks, Vectors, RowsLeft, SetEmbedding, SetSummary, GiveUp;
  }

  lemma OthersStep(s: World, e: Event, emb: bool)
    requires Enabled(s, e) && (if emb then !OfEmb(e) else !OfSum(e))
    ensures var s' := Apply(s, e);
            if emb then Untouched(s.embs, s.emb, s'.embs, s'.emb) else Untouched(s.sums, s.sum, s'.sums, s'.sum)
  {
    hide Leaks;
  }

  /** The message is acknowledged, or dead-lettered, or first in the queue again, and in one of these places only;
      behind it the queue may have grown. */
  ghost predicate Ended(end: Ending, before: Channel, chunk: Id, after: Channel, ph: Phase) {
    && ph.Idle? && before.queue != []
    && after.acked == before.acked + (if end == Acked then multiset{chunk} else multiset{})
    && after.dead == before.dead + (if end == Rejected then multiset{chunk} else multiset{})
    && (if end == Acked || end == Rejected then [] else [chunk]) + before.queue[1..] <= after.queue
  }

  // ---------- Confluence ----------

  predicate EmbeddingOnly(w: ColumnWrite) { w.summary.None? }
  predicate SummaryOnly(w: ColumnWrite) { w.embedding.None? }

  function WriteAll(db: DB, ws: seq<ColumnWrite>): DB {
    if ws == [] then db else UpdateChunk(WriteAll(db, ws[..|ws| - 1]), ws[|ws| - 1])
  }

  /** ws interleaves a and b, each kept in order. */
  ghost predicate Interleaves(ws: seq<ColumnWrite>, a: seq<ColumnWrite>, b: seq<ColumnWrite>)
    decreases |ws|
  {
    if ws == [] then a == [] && b == []
    else
      var w, rest := ws[|ws| - 1], ws[..|ws| - 1];
      || (a != [] && a[|a| - 1] == w && Interleaves(rest, a[..|a| - 1], b))
      || (b != [] && b[|b| - 1] == w && Interleaves(rest, a, b[..|b| - 1]))
  }

  /** Writes to different columns commute, also on the same chunk and on chunks that are gone. */
  lemma WritesCommute(db: DB, e: ColumnWrite, t: ColumnWrite)
    requires EmbeddingOnly(e) && SummaryOnly(t)
    ensures UpdateChunk(UpdateChunk(db, e), t) == UpdateChunk(UpdateChunk(db, t), e)
  {
    var x, y := UpdateChunk(UpdateChunk(db, e), t), UpdateChunk(UpdateChunk(db, t), e);
    UpdatedRows(db, e);
    UpdatedRows(db, t);
    UpdatedRows(UpdateChunk(db, e), t);
    UpdatedRows(UpdateChunk(db, t), e);
    hide UpdateChunk;
    assert x.chunks == y.chunks;
  }

  lemma UpdatedRows(db: DB, w: ColumnWrite)
    ensures UpdateChunk(db, w) == db.(chunks := UpdateChunk(db, w).chunks)
    ensures UpdateChunk(db, w).chunks.Keys == db.chunks.Keys
    ensures forall c :: c in db.chunks ==>
        UpdateChunk(db, w).chunks[c] == if c == w.chunk then Overwrite(db.chunks[c], w) else db.chunks[c]
  {
  }

  lemma {:induction false} PastSummaries(db: DB, e: ColumnWrite, ts: seq<ColumnWrite>)
    requires EmbeddingOnly(e) && forall t :: t in ts ==> SummaryOnly(t)
    ensures WriteAll(UpdateChunk(db, e), ts) == UpdateChunk(WriteAll(db, ts), e)
  {
    if ts != [] {
      var n := |ts| - 1;
      PastSummaries(db, e, ts[..n]);
      WritesCommute(WriteAll(db, ts[..n]), e, ts[n]);
    }
  }

  /** However the writes of the two workers interleave, the chunk table ends as if one had run after the other. */
  lemma {:induction false} Confluence(db: DB, ws: seq<ColumnWrite>, es: seq<ColumnWrite>, ts: seq<ColumnWrite>)
    requires Interleaves(ws, es, ts)
    requires (forall e :: e in es ==> EmbeddingOnly(e)) && (forall t :: t in ts ==> SummaryOnly(t))
    ensures WriteAll(db, ws) == WriteAll(WriteAll(db, es), ts)
    decreases |ws|
  {
    hide UpdateChunk;
    if ws != [] {
      var w, rest := ws[|ws| - 1], ws[..|ws| - 1];
      if ts != [] && ts[|ts| - 1] == w && Interleaves(rest, es, ts[..|ts| - 1]) {
        Confluence(db, rest, es, ts[..|ts| - 1]);
      } else {
        var before := es[..|es| - 1];
        Confluence(db, rest, before, ts);
        PastSummaries(WriteAll(db, before), w, ts);
      }
    }
  }
}
