/** Clean slash-separated paths, taken as sequences of segments. */
module Paths {
  import opened Base

  type Rel = seq<string>
  type Abs = seq<string>

  /** What the path column of a file row holds: repo-relative, or (in an index written by an
      older version) absolute. */
  datatype StoredPath = RelPath(rel: Rel) | AbsPath(abs: Abs)

  function Join(root: Abs, rel: Rel): Abs { root + rel }

  function CommonPrefix(a: seq<string>, b: seq<string>): (n: nat)
    ensures n <= |a| && n <= |b|
    ensures a[..n] == b[..n]
    ensures n < |a| && n < |b| ==> a[n] != b[n]
  {
    if a == [] || b == [] || a[0] != b[0] then 0
    else
      var n := CommonPrefix(a[1..], b[1..]);
      assert a[..n + 1] == [a[0]] + a[1..][..n];
      assert b[..n + 1] == [b[0]] + b[1..][..n];
      n + 1
  }

  /** The path that leads from root to target: up to the common ancestor, then down. */
  function RelTo(root: Abs, target: Abs): Rel {
    var n := CommonPrefix(root, target);
    var rel := seq(|root| - n, _ => "..") + target[n..];
    if rel == [] then ["."] else rel
  }

  /** A file inside the clone is stored under exactly the path a webhook reports for it. */
  lemma RelToUndoesJoin(root: Abs, rel: Rel)
    requires rel != []
    ensures RelTo(root, Join(root, rel)) == rel
  {
    var n := CommonPrefix(root, root + rel);
    assert forall k :: 0 <= k < |root| ==> (root + rel)[k] == root[k];
    assert (root + rel)[|root|..] == rel;
  }

  function LastDot(name: string): (i: int)
    ensures -1 <= i < |name|
    ensures i >= 0 ==> name[i] == '.'
    ensures forall k :: i < k < |name| ==> name[k] != '.'
  {
    if name == [] then -1
    else if name[|name| - 1] == '.' then |name| - 1
    else LastDot(name[..|name| - 1])
  }

  /** The extension of a path: from the last dot of its last segment. */
  function Ext(p: Rel): string {
    if p == [] then ""
    else
      var name := p[|p| - 1];
      var i := LastDot(name);
      if i < 0 then "" else name[i..]
  }

  predicate IsGo(p: Rel) { Ext(p) == ".go" }

  lemma IsGoMeansSuffix(p: Rel)
    requires p != []
    ensures IsGo(p) <==> |p[|p| - 1]| >= 3 && p[|p| - 1][|p[|p| - 1]| - 3..] == ".go"
  {
    var name := p[|p| - 1];
    var i := LastDot(name);
    if |name| >= 3 && name[|name| - 3..] == ".go" {
      assert name[|name| - 3] == name[|name| - 3..][0];
      assert name[|name| - 2] == name[|name| - 3..][1];
      assert name[|name| - 1] == name[|name| - 3..][2];
      assert i == |name| - 3;
    }
    if i >= 0 && name[i..] == ".go" {
      assert |name[i..]| == 3;
    }
  }

  function GoOnly(paths: seq<Rel>): (r: seq<Rel>)
    ensures forall p :: p in r <==> p in paths && IsGo(p)
  {
    if paths == [] then []
    else
      var k := |paths| - 1;
      assert paths == paths[..k] + [paths[k]];
      GoOnly(paths[..k]) + (if IsGo(paths[k]) then [paths[k]] else [])
  }

  /** at holds the positions of the Go paths. */
  ghost predicate GoPositions(paths: seq<Rel>, at: seq<nat>) {
    forall k: nat :: k in at <==> k < |paths| && IsGo(paths[k])
  }

  lemma GoPositionsNext(paths: seq<Rel>, n: nat, at: seq<nat>)
    requires |paths| == n + 1 && GoPositions(paths[..n], at)
    ensures GoPositions(paths, if IsGo(paths[n]) then at + [n] else at)
  {
    hide IsGo;
  }

  lemma {:induction false} GoOnlyInOrder(paths: seq<Rel>) returns (at: seq<nat>)
    ensures Picks(paths, GoOnly(paths), at) && GoPositions(paths, at)
  {
    at := [];
    if paths != [] {
      var n := |paths| - 1;
      at := GoOnlyInOrder(paths[..n]);
      var front := GoOnly(paths[..n]);
      assert GoOnly(paths) == if IsGo(paths[n]) then front + [paths[n]] else front;
      hide *;
      PicksNext(paths, front, at, n);
      GoPositionsNext(paths, n, at);
      assert paths[..n + 1] == paths;
      if IsGo(paths[n]) { at := at + [n]; }
    }
  }

  /** Keeps only the paths the pipeline can analyse. */
  method GoFiles(paths: seq<Rel>) returns (result: seq<Rel>)
    ensures result == GoOnly(paths)
    ensures exists at: seq<nat> :: Picks(paths, result, at) && GoPositions(paths, at)
  {
    result := [];
    for i := 0 to |paths|
      invariant result == GoOnly(paths[..i])
    {
      TakeNext(paths, i);
      if IsGo(paths[i]) {
        result := result + [paths[i]];
      }
    }
    assert paths[..|paths|] == paths;
    ghost var at := GoOnlyInOrder(paths);
  }
}
