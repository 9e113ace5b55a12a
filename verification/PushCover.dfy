/** From the commits of a push to the message it sends: the folded lists cover the difference between the trees. */
module PushCover {
  import opened Base
  import opened Paths
  import opened SourceTree
  import opened PushFold
  import opened Index
  import R = Refinement

  /** The commits describe the push: a path none of them lists keeps its file, whose calls may lead elsewhere as
      other files changed, and replaying them gives the paths of the new tree. */
  ghost predicate Describes(p: Push, before: Tree, after: Tree) {
    var commits := if p.commits == [] && p.head.Some? then [p.head] else p.commits;
    && after.Keys == Replay(commits, before.Keys)
    && forall q :: (forall i :: 0 <= i < |commits| ==> !Lists(commits[i], q)) ==> SameYield(before, after, q)
  }

  /** A path that is no Go path holds nothing to index in either tree. */
  lemma NoGoFile(before: Tree, after: Tree, q: Rel)
    requires R.GoTree(before) && R.GoTree(after) && !IsGo(q)
    ensures SameYield(before, after, q)
  {
    hide IsGo;
  }

  lemma {:induction false} LastOne(commits: seq<Option<Commit>>, q: Rel)
    requires forall i: nat :: !LastLists(commits, i, q)
    ensures forall i :: 0 <= i < |commits| ==> !Lists(commits[i], q)
  {
    if commits != [] {
      var k := |commits| - 1;
      hide Lists;
      if !Lists(commits[k], q) {
        assert forall i: nat :: LastLists(commits[..k], i, q) ==> LastLists(commits, i, q);
        LastOne(commits[..k], q);
      } else {
        assert LastLists(commits, k, q);
      }
    }
  }

  /** For commits that describe the push, the message built from them covers the move of the branch. */
  lemma NetCoversPush(p: Push, before: Tree, after: Tree, changed: seq<Rel>, removed: seq<Rel>)
    requires Describes(p, before, after) && Net(p, changed, removed)
    requires R.GoTree(before) && R.GoTree(after)
    ensures R.CoversDiff(before, after, changed, removed)
  {
    var commits := if p.commits == [] && p.head.Some? then [p.head] else p.commits;
    NetEqualsReplay(p, changed, removed, before.Keys);
    hide Replay, IsGo, SameYield;
    forall q | !R.Mentioned(changed, removed, q) ensures SameYield(before, after, q) {
      if IsGo(q) {
        LastCommitDecides(p, changed, removed, q);
        LastOne(commits, q);
      } else {
        NoGoFile(before, after, q);
      }
    }
    forall q | IsGo(q) && q in removed && q !in changed ensures Expected(after, q).None? {
      assert q !in after.Keys;
    }
  }
}
