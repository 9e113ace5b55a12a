/** Collapsing the commits of a push into one changed list and one removed list. */
module PushFold {
  import opened Base
  import opened Paths

  datatype Commit = Commit(added: seq<Rel>, modified: seq<Rel>, removed: seq<Rel>)

  /** The commit part of a push event; a nil commit in the list is skipped. */
  datatype Push = Push(commits: seq<Option<Commit>>, head: Option<Commit>)

  datatype Mark = Changed | Removed
  datatype Mention = Mention(path: Rel, mark: Mark)

  // ---------- Specification: the mentions of a push, in order ----------

  function MentionsOf(paths: seq<Rel>, mark: Mark): (r: seq<Mention>)
    ensures |r| == |paths| && forall i :: 0 <= i < |paths| ==> r[i] == Mention(paths[i], mark)
  {
    seq(|paths|, i requires 0 <= i < |paths| => Mention(paths[i], mark))
  }

  function CommitMentions(c: Option<Commit>): seq<Mention> {
    match c
    case None => []
    case Some(c) =>
      MentionsOf(c.added, Changed) + MentionsOf(c.modified, Changed) + MentionsOf(c.removed, Removed)
  }

  function AllMentions(commits: seq<Option<Commit>>): seq<Mention> {
    if commits == [] then []
    else AllMentions(commits[..|commits| - 1]) + CommitMentions(commits[|commits| - 1])
  }

  /** An event without commits falls back to its head commit. */
  function EffectiveCommits(p: Push): seq<Option<Commit>> {
    if p.commits == [] && p.head.Some? then [p.head] else p.commits
  }

  /** The state each mentioned path ends in: its last mention. */
  function NetMap(ms: seq<Mention>): map<Rel, Mark> {
    if ms == [] then map[]
    else NetMap(ms[..|ms| - 1])[ms[|ms| - 1].path := ms[|ms| - 1].mark]
  }

  /** The mentioned paths, each once, in the order of their first mention. */
  function FirstMentions(ms: seq<Mention>): seq<Rel> {
    if ms == [] then []
    else
      var before := ms[..|ms| - 1];
      var p := ms[|ms| - 1].path;
      FirstMentions(before) + (if p in NetMap(before) then [] else [p])
  }

  function Select(order: seq<Rel>, state: map<Rel, Mark>, mark: Mark): (r: seq<Rel>)
    requires forall p :: p in order ==> p in state
    ensures forall p :: p in r <==> p in order && state[p] == mark
  {
    if order == [] then []
    else
      var k := |order| - 1;
      assert order == order[..k] + [order[k]];
      Select(order[..k], state, mark) + (if state[order[k]] == mark then [order[k]] else [])
  }

  lemma NextMention(ms: seq<Mention>, m: Mention)
    ensures NetMap(ms + [m]) == NetMap(ms)[m.path := m.mark]
    ensures FirstMentions(ms + [m]) == FirstMentions(ms) + (if m.path in NetMap(ms) then [] else [m.path])
  {
    Snoc(ms, m);
  }

  lemma NextCommit(commits: seq<Option<Commit>>, k: nat)
    requires k < |commits|
    ensures AllMentions(commits[..k + 1]) == AllMentions(commits[..k]) + CommitMentions(commits[k])
  {
    TakeNext(commits, k);
  }

  // ---------- The fold ----------

  method MarkAll(ghost before: seq<Mention>, state: map<Rel, Mark>, order: seq<Rel>, paths: seq<Rel>, mark: Mark)
    returns (state': map<Rel, Mark>, order': seq<Rel>)
    requires state == NetMap(before) && order == FirstMentions(before)
    ensures state' == NetMap(before + MentionsOf(paths, mark))
    ensures order' == FirstMentions(before + MentionsOf(paths, mark))
  {
    hide NetMap, FirstMentions;
    state', order' := state, order;
    ghost var ms, done := MentionsOf(paths, mark), before;
    assert before == before + ms[..0];
    for i := 0 to |paths|
      invariant done == before + ms[..i]
      invariant state' == NetMap(done)
      invariant order' == FirstMentions(done)
    {
      var p := paths[i];
      ghost var m := Mention(p, mark);
      NextMention(done, m);
      assert before + ms[..i + 1] == done + [m] by {
        assert ms[..i + 1] == ms[..i] + [m];
      }
      done := done + [m];
      if p !in state' {
        order' := order' + [p];
      }
      state' := state'[p := mark];
    }
    assert done == before + ms by {
      assert ms[..|paths|] == ms;
    }
  }

  method MarkCommit(ghost before: seq<Mention>, state: map<Rel, Mark>, order: seq<Rel>, c: Commit)
    returns (state': map<Rel, Mark>, order': seq<Rel>)
    requires state == NetMap(before) && order == FirstMentions(before)
    ensures state' == NetMap(before + CommitMentions(Some(c)))
    ensures order' == FirstMentions(before + CommitMentions(Some(c)))
  {
    ghost var a, m, r := MentionsOf(c.added, Changed), MentionsOf(c.modified, Changed), MentionsOf(c.removed, Removed);
    assert before + a + m + r == before + CommitMentions(Some(c)) by {
      assert CommitMentions(Some(c)) == a + m + r;
    }
    hide NetMap, FirstMentions, MentionsOf, CommitMentions;
    state', order' := MarkAll(before, state, order, c.added, Changed);
    state', order' := MarkAll(before + a, state', order', c.modified, Changed);
    state', order' := MarkAll(before + a + m, state', order', c.removed, Removed);
  }

  method Partition(state: map<Rel, Mark>, order: seq<Rel>) returns (changed: seq<Rel>, removed: seq<Rel>)
    requires forall p :: p in order ==> p in state
    ensures changed == Select(order, state, Changed) && removed == Select(order, state, Removed)
  {
    changed, removed := [], [];
    for i := 0 to |order|
      invariant changed == Select(order[..i], state, Changed) && removed == Select(order[..i], state, Removed)
    {
      TakeNext(order, i);
      if state[order[i]] == Removed {
        removed := removed + [order[i]];
      } else {
        changed := changed + [order[i]];
      }
    }
    assert order[..|order|] == order;
  }

  method NetFileChanges(p: Push) returns (changed: seq<Rel>, removed: seq<Rel>)
    ensures Net(p, changed, removed)
    ensures var all := if p.commits == [] && p.head.Some? then [p.head] else p.commits;
            && (forall q :: q in changed <==> exists i: nat :: LastLists(all, i, q) && q !in all[i].value.removed)
            && (forall q :: q in removed <==> exists i: nat :: LastLists(all, i, q) && q in all[i].value.removed)
  {
    var commits := p.commits;
    if |commits| == 0 && p.head.Some? {
      commits := [p.head];
    }
    assert commits == EffectiveCommits(p);
    var state: map<Rel, Mark> := map[];
    var order: seq<Rel> := [];
    ghost var done: seq<Mention> := [];
    assert AllMentions(commits[..0]) == done && NetMap(done) == state && FirstMentions(done) == order;
    hide NetMap, FirstMentions, AllMentions, Select, EffectiveCommits;
    for i := 0 to |commits|
      invariant done == AllMentions(commits[..i])
      invariant state == NetMap(done) && order == FirstMentions(done)
    {
      NextCommit(commits, i);
      if commits[i].Some? {
        state, order := MarkCommit(done, state, order, commits[i].value);
      } else {
        assert done + CommitMentions(commits[i]) == done;
      }
      done := done + CommitMentions(commits[i]);
    }
    assert commits[..|commits|] == commits;
    OrderCoversState(done);
    changed, removed := Partition(state, order);
    forall q { LastCommitDecides(p, changed, removed, q); }
  }

  /** The mentioned paths, in the order of their first mention, split by their last. */
  ghost predicate Split(ms: seq<Mention>, changed: seq<Rel>, removed: seq<Rel>) {
    OrderCoversState(ms);
    && changed == Select(FirstMentions(ms), NetMap(ms), Changed)
    && removed == Select(FirstMentions(ms), NetMap(ms), Removed)
  }

  /** What the two lists are, stated over the mentions of the push. */
  ghost predicate Net(p: Push, changed: seq<Rel>, removed: seq<Rel>) {
    Split(AllMentions(EffectiveCommits(p)), changed, removed)
  }

  // ---------- What the fold means ----------

  lemma {:induction false} OrderCoversState(ms: seq<Mention>)
    ensures forall p :: p in FirstMentions(ms) <==> p in NetMap(ms)
    ensures Distinct(FirstMentions(ms))
  {
    if ms != [] {
      OrderCoversState(ms[..|ms| - 1]);
    }
  }

  lemma {:induction false} NetMapAppend(a: seq<Mention>, b: seq<Mention>)
    ensures NetMap(a + b) == NetMap(a) + NetMap(b)
  {
    if b == [] {
      assert a + b == a;
    } else {
      var k := |b| - 1;
      NetMapAppend(a, b[..k]);
      assert (a + b)[..|a + b| - 1] == a + b[..k];
    }
  }

  lemma Regroup<T>(x: seq<T>, y: seq<T>, z: seq<T>)
    ensures x + y + z == x + (y + z)
  {
  }

  lemma LastMentions(commits: seq<Option<Commit>>, front: seq<Option<Commit>>, c: Option<Commit>)
    requires commits == front + [c]
    ensures AllMentions(commits) == AllMentions(front) + CommitMentions(c)
  {
    Snoc(front, c);
  }

  lemma {:induction false} AllMentionsAppend(a: seq<Option<Commit>>, b: seq<Option<Commit>>)
    ensures AllMentions(a + b) == AllMentions(a) + AllMentions(b)
  {
    if b == [] {
      assert a + b == a;
    } else {
      var front, c := b[..|b| - 1], b[|b| - 1];
      hide AllMentions, CommitMentions;
      AllMentionsAppend(a, front);
      LastMentions(b, front, c);
      LastMentions(a + b, a + front, c) by { Regroup(a, front, [c]); }
      Regroup(AllMentions(a), AllMentions(front), CommitMentions(c));
    }
  }

  ghost function NetOf(p: Push): map<Rel, Mark> { NetMap(AllMentions(EffectiveCommits(p))) }

  /** Two pushes joined into one: the later push overrides the earlier one, path by path. The lists
      must be non-empty, because an empty one makes the event fall back to its head commit. */
  lemma PushComposition(a: Push, b: Push, joined: Push)
    requires a.commits != [] && b.commits != [] && joined.commits == a.commits + b.commits
    ensures NetOf(joined) == NetOf(a) + NetOf(b)
  {
    AllMentionsAppend(a.commits, b.commits);
    NetMapAppend(AllMentions(a.commits), AllMentions(b.commits));
  }

  function Joined(a: Push, b: Push): Push { Push(a.commits + b.commits, b.head) }

  lemma WhollyOverridden(x: map<Rel, Mark>, y: map<Rel, Mark>)
    ensures y == x + y <==> x.Keys <= y.Keys
  {
    assert (x + y).Keys == x.Keys + y.Keys;
    if x.Keys <= y.Keys { assert x.Keys + y.Keys == y.Keys; }
    assert y == x + y ==> x.Keys <= (x + y).Keys;
  }

  lemma NotOverridden(x: map<Rel, Mark>, y: map<Rel, Mark>)
    ensures x == x + y <==> forall p :: p in y ==> p in x && x[p] == y[p]
  {
    assert (x + y).Keys == x.Keys + y.Keys;
    if forall p :: p in y ==> p in x && x[p] == y[p] { assert x.Keys + y.Keys == x.Keys; }
    assert forall p :: p in y ==> p in x + y && (x + y)[p] == y[p];
  }

  lemma JoinedIs(a: Push, b: Push)
    ensures a.commits == [] ==> NetOf(Joined(a, b)) == NetOf(b)
    ensures a.commits != [] && b.commits == [] ==> NetOf(Joined(a, b)) == NetOf(a)
  {
    assert a.commits == [] ==> a.commits + b.commits == b.commits;
    assert b.commits == [] ==> a.commits + b.commits == a.commits;
    hide NetMap, AllMentions;
  }

  /** Exactly when joining composes, for all pushes. A push without commits counts for its head commit, and the join
      forgets that of the first push, and that of the second if the first has commits. */
  lemma CompositionIff(a: Push, b: Push)
    ensures NetOf(Joined(a, b)) == NetOf(a) + NetOf(b) <==>
            if a.commits == [] then NetOf(a).Keys <= NetOf(b).Keys
            else b.commits == [] ==> forall p :: p in NetOf(b) ==> p in NetOf(a) && NetOf(a)[p] == NetOf(b)[p]
  {
    if a.commits != [] && b.commits != [] { PushComposition(a, b, Joined(a, b)); }
    JoinedIs(a, b);
    hide NetOf;
    WhollyOverridden(NetOf(a), NetOf(b));
    NotOverridden(NetOf(a), NetOf(b));
  }

  function Adding(p: Rel): Option<Commit> { Some(Commit([p], [], [])) }

  lemma HeadOnly(p: Rel)
    ensures NetOf(Push([], Adding(p))) == map[p := Changed]
  {
    var m := Mention(p, Changed);
    assert CommitMentions(Adding(p)) == [m];
    assert EffectiveCommits(Push([], Adding(p))) == [Adding(p)] && NetMap([]) == map[] && AllMentions([]) == [];
    hide NetMap, AllMentions, CommitMentions, EffectiveCommits, Adding;
    LastMentions([Adding(p)], [], Adding(p));
    NextMention([], m);
    assert [] + [m] == [m];
  }

  /** The failing case, at its smallest: two pushes without commits whose head commits add different files. */
  lemma CompositionNeedsCommits(x: Rel, y: Rel)
    requires x != y
    ensures
      var a, b := Push([], Adding(x)), Push([], Adding(y));
      NetOf(Joined(a, b)) != NetOf(a) + NetOf(b)
  {
    HeadOnly(x);
    HeadOnly(y);
    hide NetOf, Adding;
    CompositionIff(Push([], Adding(x)), Push([], Adding(y)));
    assert x in map[x := Changed].Keys && x !in map[y := Changed].Keys;
  }

  // ---------- The lists against the commits ----------

  /** A commit that is there lists the path, in whichever way. */
  ghost predicate Lists(c: Option<Commit>, p: Rel) {
    c.Some? && (p in c.value.added || p in c.value.modified || p in c.value.removed)
  }

  lemma {:induction false} NetOfUniform(paths: seq<Rel>, mark: Mark, p: Rel)
    ensures p in NetMap(MentionsOf(paths, mark)) <==> p in paths
    ensures p in paths ==> NetMap(MentionsOf(paths, mark))[p] == mark
  {
    if paths != [] {
      var k := |paths| - 1;
      NetOfUniform(paths[..k], mark, p);
      assert MentionsOf(paths, mark)[..k] == MentionsOf(paths[..k], mark);
      assert paths == paths[..k] + [paths[k]];
    }
  }

  /** Within a commit removal wins. */
  lemma NetOfCommit(c: Option<Commit>, p: Rel)
    ensures p in NetMap(CommitMentions(c)) <==> Lists(c, p)
    ensures Lists(c, p) ==> (NetMap(CommitMentions(c))[p] == Removed <==> p in c.value.removed)
  {
    if c.Some? {
      var a, m, r := MentionsOf(c.value.added, Changed), MentionsOf(c.value.modified, Changed),
        MentionsOf(c.value.removed, Removed);
      assert CommitMentions(c) == a + m + r;
      NetOfUniform(c.value.added, Changed, p);
      NetOfUniform(c.value.modified, Changed, p);
      NetOfUniform(c.value.removed, Removed, p);
      hide NetMap, MentionsOf, CommitMentions;
      NetMapAppend(a + m, r);
      NetMapAppend(a, m);
    } else {
      assert CommitMentions(c) == [];
    }
  }

  lemma NetOfNext(front: seq<Option<Commit>>, c: Option<Commit>, p: Rel)
    ensures var before, after := NetMap(AllMentions(front)), NetMap(AllMentions(front + [c]));
            && (p in after <==> p in before || Lists(c, p))
            && (Lists(c, p) ==> (after[p] == Removed <==> p in c.value.removed))
            && (!Lists(c, p) && p in before ==> after[p] == before[p])
  {
    LastMentions(front + [c], front, c);
    NetMapAppend(AllMentions(front), CommitMentions(c));
    NetOfCommit(c, p);
    hide NetMap, AllMentions, CommitMentions;
  }

  /** Commit i is the last that lists the path. */
  ghost predicate LastLists(commits: seq<Option<Commit>>, i: nat, p: Rel) {
    && i < |commits| && Lists(commits[i], p)
    && forall j :: i < j < |commits| ==> !Lists(commits[j], p)
  }

  lemma {:induction false} NetOfCommits(commits: seq<Option<Commit>>, p: Rel)
    ensures p in NetMap(AllMentions(commits)) <==> exists i: nat :: LastLists(commits, i, p)
    ensures forall i: nat :: LastLists(commits, i, p) && p in NetMap(AllMentions(commits)) ==>
              (NetMap(AllMentions(commits))[p] == Removed <==> p in commits[i].value.removed)
  {
    if commits != [] {
      var k := |commits| - 1;
      var front, c := commits[..k], commits[k];
      assert commits == front + [c];
      NetOfCommits(front, p);
      NetOfNext(front, c, p);
      hide NetMap, AllMentions, Lists;
      if Lists(c, p) {
        assert LastLists(commits, k, p);
      } else {
        assert forall i: nat :: LastLists(commits, i, p) <==> LastLists(front, i, p);
      }
    }
  }

  /** Which list a path ends up in, read off the commits: the last commit that lists the path decides, whether or not
      earlier ones added, changed or removed it. */
  lemma LastCommitDecides(p: Push, changed: seq<Rel>, removed: seq<Rel>, q: Rel)
    requires Net(p, changed, removed)
    ensures var commits := if p.commits == [] && p.head.Some? then [p.head] else p.commits;
            && (q in changed <==> exists i: nat :: LastLists(commits, i, q) && q !in commits[i].value.removed)
            && (q in removed <==> exists i: nat :: LastLists(commits, i, q) && q in commits[i].value.removed)
  {
    var commits := EffectiveCommits(p);
    var ms := AllMentions(commits);
    OrderCoversState(ms);
    NetOfCommits(commits, q);
    hide NetMap, AllMentions, FirstMentions;
    assert forall i: nat, j: nat :: LastLists(commits, i, q) && LastLists(commits, j, q) ==> i == j;
  }

  /** The paths the commits list, in order: added, then modified, then removed ones of each. */
  function Listed(commits: seq<Option<Commit>>): seq<Rel> {
    if commits == [] then []
    else
      var c := commits[|commits| - 1];
      Listed(commits[..|commits| - 1]) +
      (if c.Some? then c.value.added + c.value.modified + c.value.removed else [])
  }

  function PathsOf(ms: seq<Mention>): (r: seq<Rel>)
    ensures |r| == |ms| && forall i :: 0 <= i < |ms| ==> r[i] == ms[i].path
  {
    seq(|ms|, i requires 0 <= i < |ms| => ms[i].path)
  }

  lemma {:induction false} MentionsAreListed(commits: seq<Option<Commit>>)
    ensures PathsOf(AllMentions(commits)) == Listed(commits)
  {
    if commits != [] {
      var k := |commits| - 1;
      MentionsAreListed(commits[..k]);
      var front, last := AllMentions(commits[..k]), CommitMentions(commits[k]);
      assert PathsOf(front + last) == PathsOf(front) + PathsOf(last);
      if commits[k].Some? {
        var c := commits[k].value;
        assert PathsOf(last) == c.added + c.modified + c.removed;
      }
    }
  }

  function FirstIndex(paths: seq<Rel>, p: Rel): (i: nat)
    ensures i <= |paths|
    ensures i < |paths| ==> paths[i] == p
    ensures forall k :: 0 <= k < i ==> paths[k] != p
  {
    if paths == [] || paths[0] == p then 0 else 1 + FirstIndex(paths[1..], p)
  }

  /** The paths of s come in the order in which paths first names them. */
  ghost predicate InOrderOf(paths: seq<Rel>, s: seq<Rel>) {
    forall i, j :: 0 <= i < j < |s| ==> FirstIndex(paths, s[i]) < FirstIndex(paths, s[j])
  }

  lemma FirstIndexPrefix(paths: seq<Rel>, q: Rel, p: Rel)
    ensures FirstIndex(paths + [q], p) == if FirstIndex(paths, p) < |paths| then FirstIndex(paths, p)
                                          else if q == p then |paths| else |paths| + 1
  {
    var i, j := FirstIndex(paths + [q], p), FirstIndex(paths, p);
    assert forall k :: 0 <= k < |paths| ==> (paths + [q])[k] == paths[k];
    assert (paths + [q])[|paths|] == q;
  }

  lemma {:induction false} NetMapDomain(ms: seq<Mention>, p: Rel)
    ensures p in NetMap(ms) <==> FirstIndex(PathsOf(ms), p) < |ms|
  {
    if ms != [] {
      var k := |ms| - 1;
      assert PathsOf(ms) == PathsOf(ms[..k]) + [ms[k].path];
      NetMapDomain(ms[..k], p);
      FirstIndexPrefix(PathsOf(ms[..k]), ms[k].path, p);
    }
  }

  lemma {:induction false} FirstMentionsInOrder(ms: seq<Mention>)
    ensures InOrderOf(PathsOf(ms), FirstMentions(ms))
  {
    if ms != [] {
      var k := |ms| - 1;
      var before, s := ms[..k], FirstMentions(ms);
      assert PathsOf(ms) == PathsOf(before) + [ms[k].path];
      FirstMentionsInOrder(before);
      OrderCoversState(before);
      forall i, j | 0 <= i < j < |s| ensures FirstIndex(PathsOf(ms), s[i]) < FirstIndex(PathsOf(ms), s[j]) {
        FirstIndexPrefix(PathsOf(before), ms[k].path, s[i]);
        FirstIndexPrefix(PathsOf(before), ms[k].path, s[j]);
        NetMapDomain(before, s[i]);
        NetMapDomain(before, s[j]);
        assert s[i] in FirstMentions(before);
      }
    }
  }

  lemma InOrderSnoc(paths: seq<Rel>, s: seq<Rel>, p: Rel)
    requires InOrderOf(paths, s) && forall q :: q in s ==> FirstIndex(paths, q) < FirstIndex(paths, p)
    ensures InOrderOf(paths, s + [p])
  {
    hide FirstIndex;
  }

  lemma {:induction false} SelectKeepsOrder(paths: seq<Rel>, order: seq<Rel>, state: map<Rel, Mark>, mark: Mark)
    requires forall p :: p in order ==> p in state
    requires InOrderOf(paths, order)
    ensures InOrderOf(paths, Select(order, state, mark))
  {
    if order != [] {
      var k := |order| - 1;
      hide FirstIndex;
      SelectKeepsOrder(paths, order[..k], state, mark);
      var s := Select(order[..k], state, mark);
      assert forall q :: q in s ==> q in order[..k];
      assert Select(order, state, mark) == if state[order[k]] == mark then s + [order[k]] else s;
      hide Select;
      forall q | q in s ensures FirstIndex(paths, q) < FirstIndex(paths, order[k]) {
        var i :| 0 <= i < k && order[i] == q;
      }
      InOrderSnoc(paths, s, order[k]);
    }
  }

  /** Both lists are duplicate-free and in the order in which the commits first list their paths, they are disjoint,
      and together they hold exactly the paths the commits list. */
  lemma NetLists(p: Push, changed: seq<Rel>, removed: seq<Rel>)
    requires Net(p, changed, removed)
    ensures Distinct(changed) && Distinct(removed)
    ensures Elems(changed) !! Elems(removed)
    ensures var listed := Listed(if p.commits == [] && p.head.Some? then [p.head] else p.commits);
            && Elems(changed) + Elems(removed) == Elems(listed)
            && InOrderOf(listed, changed) && InOrderOf(listed, removed)
  {
    var ms := AllMentions(EffectiveCommits(p));
    MentionsAreListed(EffectiveCommits(p));
    assert Split(ms, changed, removed);
    hide Split, AllMentions, PathsOf, Listed;
    ListsOfMentions(ms, changed, removed);
  }

  lemma ListsOfMentions(ms: seq<Mention>, changed: seq<Rel>, removed: seq<Rel>)
    requires Split(ms, changed, removed)
    ensures Distinct(changed) && Distinct(removed)
    ensures Elems(changed) !! Elems(removed) && Elems(changed) + Elems(removed) == Elems(PathsOf(ms))
    ensures InOrderOf(PathsOf(ms), changed) && InOrderOf(PathsOf(ms), removed)
  {
    FirstMentionsInOrder(ms);
    SplitInOrder(ms, changed, removed);
    hide *;
    DistinctInOrder(PathsOf(ms), changed);
    DistinctInOrder(PathsOf(ms), removed);
    forall q ensures q in Elems(changed) + Elems(removed) <==> q in Elems(PathsOf(ms)) {
      SplitMember(ms, changed, removed, q);
    }
    forall q | q in Elems(changed) ensures q !in Elems(removed) { SplitMember(ms, changed, removed, q); }
  }

  lemma SplitInOrder(ms: seq<Mention>, changed: seq<Rel>, removed: seq<Rel>)
    requires Split(ms, changed, removed) && InOrderOf(PathsOf(ms), FirstMentions(ms))
    ensures InOrderOf(PathsOf(ms), changed) && InOrderOf(PathsOf(ms), removed)
  {
    OrderCoversState(ms);
    hide NetMap, FirstMentions, PathsOf, InOrderOf;
    SelectKeepsOrder(PathsOf(ms), FirstMentions(ms), NetMap(ms), Changed);
    SelectKeepsOrder(PathsOf(ms), FirstMentions(ms), NetMap(ms), Removed);
  }

  lemma SplitMember(ms: seq<Mention>, changed: seq<Rel>, removed: seq<Rel>, q: Rel)
    requires Split(ms, changed, removed)
    ensures q in changed || q in removed <==> q in PathsOf(ms)
    ensures !(q in changed && q in removed)
  {
    OrderCoversState(ms);
    NetMapDomain(ms, q);
    hide NetMap, FirstMentions;
    if q in NetMap(ms) { assert PathsOf(ms)[FirstIndex(PathsOf(ms), q)] in PathsOf(ms); }
  }

  lemma DistinctInOrder(paths: seq<Rel>, s: seq<Rel>)
    requires InOrderOf(paths, s)
    ensures Distinct(s)
  {
    hide FirstIndex;
  }

  // ---------- Replaying the commits ----------

  /** The files present after the commits are applied one by one. */
  function Replay(commits: seq<Option<Commit>>, present: set<Rel>): set<Rel> {
    if commits == [] then present
    else
      var s := Replay(commits[..|commits| - 1], present);
      match commits[|commits| - 1]
      case None => s
      case Some(c) => s + (set q | q in c.added) + (set q | q in c.modified) - (set q | q in c.removed)
  }

  lemma {:induction false} ReplayIsNet(commits: seq<Option<Commit>>, present: set<Rel>, p: Rel)
    ensures p in Replay(commits, present) <==>
            if p in NetMap(AllMentions(commits)) then NetMap(AllMentions(commits))[p] == Changed else p in present
  {
    if commits != [] {
      var k := |commits| - 1;
      assert commits == commits[..k] + [commits[k]];
      ReplayIsNet(commits[..k], present, p);
      NetOfNext(commits[..k], commits[k], p);
      hide NetMap, AllMentions;
    }
  }

  /** Applying the two lists at once gives the same files as applying every commit in order. */
  lemma NetEqualsReplay(p: Push, changed: seq<Rel>, removed: seq<Rel>, present: set<Rel>)
    requires Net(p, changed, removed)
    ensures Replay(if p.commits == [] && p.head.Some? then [p.head] else p.commits, present) ==
            present - Elems(removed) + Elems(changed)
  {
    var commits := EffectiveCommits(p);
    var ms := AllMentions(commits);
    OrderCoversState(ms);
    hide NetMap, AllMentions, FirstMentions;
    forall q ensures q in Replay(commits, present) <==> q in present - Elems(removed) + Elems(changed) {
      ReplayIsNet(commits, present, q);
    }
  }
}
