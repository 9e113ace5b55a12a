/** Vocabulary shared by every module of the model. */
module Base {

  datatype Option<+T> = None | Some(value: T)

  /** A row id. The program draws 16 random bytes; here an id is drawn from a counter,
      which is the assumption that fresh ids never collide. */
  type Id = nat

  ghost predicate Distinct<T>(s: seq<T>) {
    forall i, j :: 0 <= i < j < |s| ==> s[i] != s[j]
  }

  ghost function Elems<T(!new)>(s: seq<T>): (r: set<T>)
    ensures forall x :: x in r <==> x in s
  {
    set x | x in s
  }

  lemma NoMember<T(!new)>(s: seq<T>)
    ensures s == [] <==> forall x :: x !in s
  {
    if s != [] { assert s[0] in s; }
  }

  lemma TakeNext<T>(s: seq<T>, k: nat)
    requires k < |s|
    ensures s[..k + 1] == s[..k] + [s[k]]
    ensures s[..k + 1][..k] == s[..k]
  {
  }

  lemma Snoc<T>(s: seq<T>, x: T)
    ensures (s + [x])[..|s|] == s
    ensures |s + [x]| == |s| + 1
    ensures (s + [x])[|s|] == x
  {
  }

  /** part holds the elements of whole at the given positions, in their order. */
  ghost predicate Picks<T>(whole: seq<T>, part: seq<T>, at: seq<nat>) {
    && |at| == |part|
    && (forall i, j :: 0 <= i < j < |at| ==> at[i] < at[j])
    && (forall i :: 0 <= i < |at| ==> at[i] < |whole| && part[i] == whole[at[i]])
  }

  lemma PicksNext<T>(whole: seq<T>, part: seq<T>, at: seq<nat>, k: nat)
    requires k < |whole| && Picks(whole[..k], part, at)
    ensures Picks(whole[..k + 1], part, at) && Picks(whole[..k + 1], part + [whole[k]], at + [k]) && k !in at
  {
  }

  lemma CountLast<T>(s: seq<T>, x: T)
    requires s != []
    ensures multiset(s)[x] == multiset(s[..|s| - 1])[x] + (if s[|s| - 1] == x then 1 else 0)
  {
    assert s == s[..|s| - 1] + [s[|s| - 1]];
  }

  /** The generator behind every generateID. */
  class IdSource {
    var next: Id

    constructor ()
      ensures next == 0
    {
      next := 0;
    }

    method Generate() returns (id: Id)
      modifies this
      ensures id == old(next) && next == old(next) + 1
    {
      id := next;
      next := next + 1;
    }
  }
}
