/** Cleaning up vectors before the rows that point at them are deleted. */
module Vectors {
  import opened Base
  import opened Tables
  import opened Backends

  /** The vector index deletes at most this many ids per call. */
  const DELETE_BATCH := 1000

  function Min(a: nat, b: nat): nat { if a < b then a else b }

  function BatchCount(n: nat): nat { (n + DELETE_BATCH - 1) / DELETE_BATCH }

  function BatchAt(ids: seq<VecId>, k: nat): (r: seq<VecId>)
    requires k < BatchCount(|ids|)
    ensures 1 <= |r| <= DELETE_BATCH
  {
    ids[k * DELETE_BATCH..Min((k + 1) * DELETE_BATCH, |ids|)]
  }

  function Concat(batches: seq<seq<VecId>>): seq<VecId> {
    if batches == [] then [] else Concat(batches[..|batches| - 1]) + batches[|batches| - 1]
  }

  /** done holds exactly the first batches of ids. */
  ghost predicate FirstBatches(done: seq<seq<VecId>>, ids: seq<VecId>) {
    |done| <= BatchCount(|ids|) && forall k :: 0 <= k < |done| ==> done[k] == BatchAt(ids, k)
  }

  /** Batches partition the id list: k of them are the first min(1000k, n) ids, in order, and all of them are the
      whole list. */
  lemma {:induction false} BatchesPartition(done: seq<seq<VecId>>, ids: seq<VecId>)
    requires FirstBatches(done, ids)
    ensures Concat(done) == ids[..Min(|done| * DELETE_BATCH, |ids|)]
    ensures Concat(done) == ids[..if |done| * 1000 < |ids| then |done| * 1000 else |ids|]
    ensures forall k :: 0 <= k < |done| ==> 1 <= |done[k]| <= 1000
    ensures |done| == BatchCount(|ids|) <==> |done| * 1000 >= |ids|
    ensures |done| == BatchCount(|ids|) ==> Concat(done) == ids
  {
    if done != [] {
      var k := |done| - 1;
      BatchesPartition(done[..k], ids);
      assert k * DELETE_BATCH <= |ids|;
      assert BatchAt(ids, k) == done[k];
    }
  }

  /** Deletes the vectors the chunks in scope point at. */
  method DeleteVectorsForChunks(b: Backend, scope: ChunkScope)
    returns (r: CallResult, ghost ids: seq<VecId>, ghost done: seq<seq<VecId>>, ghost listed: DB)
    modifies b
    ensures Drift(old(b.db), b.db, b.written) && old(b.written) <= b.written && !r.Violation?
    ensures b.published == old(b.published) && (r.Unavailable? ==> b.budget == 0)
    // the ids are those found in one reading of the table, and the batches are sent in order
    ensures Drift(old(b.db), listed, b.written)
    ensures r.Done? || ids != [] ==> ListsVectors(ids, listed, ChunksIn(listed, scope))
    ensures FirstBatches(done, ids) && b.deletes == old(b.deletes) + done
    ensures b.vectors == old(b.vectors) - Elems(ids[..Min(|done| * DELETE_BATCH, |ids|)])
    ensures r.Done? ==> |done| == BatchCount(|ids|) && b.vectors == old(b.vectors) - Elems(ids)
    ensures forall k :: 0 <= k < |done| ==> 1 <= |done[k]| <= 1000
    ensures b.vectors == old(b.vectors) - Elems(ids[..if |done| * 1000 < |ids| then |done| * 1000 else |ids|])
  {
    done := [];
    var list;
    r, list := b.GetEmbeddingIDs(scope);
    ids, listed := list, b.db;
    ghost var seen := b.written;
    if !r.Done? {
      ids := [];
      assert ids[..0] == [];
      return;
    }
    var start := 0;
    while start < |list|
      invariant start == |done| * DELETE_BATCH || (start >= |list| && |done| == BatchCount(|list|))
      invariant |done| <= BatchCount(|list|) && (start < |list| ==> |done| < BatchCount(|list|))
      invariant Min(|done| * DELETE_BATCH, |list|) == Min(start, |list|)
      invariant r.Done? && FirstBatches(done, list) && b.deletes == old(b.deletes) + done
      invariant b.vectors == old(b.vectors) - Elems(list[..Min(start, |list|)])
      invariant Drift(old(b.db), b.db, b.written) && seen <= b.written && b.published == old(b.published)
      decreases |list| - start
    {
      var end := Min(start + DELETE_BATCH, |list|);
      ghost var before, t := b.db, b.written;
      r := b.DeleteVectors(list[start..end]);
      DriftTrans(old(b.db), before, b.db, t, b.written);
      if !r.Done? {
        DriftWider(old(b.db), listed, seen, b.written);
        return;
      }
      assert list[..end] == list[..start] + list[start..end];
      done := done + [list[start..end]];
      start := start + DELETE_BATCH;
    }
    assert list[..|list|] == list;
    DriftWider(old(b.db), listed, seen, b.written);
  }

  lemma DriftWider(a: DB, b: DB, t: Writes, t': Writes)
    requires Drift(a, b, t) && t <= t'
    ensures Drift(a, b, t')
  {
  }
}
