/** The symbols of a source, read off its tree: which identifiers yield one, of what kind, and in what order. */
module Definitions {
  import opened Base
  import opened SourceTree
  import opened Symbols

  /** The identifier at a place defines the object; blank names define none. */
  ghost predicate Defines(ns: seq<Node>, at: Place, obj: nat) {
    && at.0 < |ns|
    && match ns[at.0].kind
       case FuncDecl(Some(d), _) => at.1 == 0 && d.obj == obj
       case TypeSpec(Some(d), _, _) => at.1 == 0 && d.obj == obj
       case ValueSpec(names) =>
         at.1 < |names| && !names[at.1].blank && names[at.1].def.Some? && names[at.1].def.value.obj == obj
       case _ => false
  }

  /** It is the first in the walk that does. */
  ghost predicate FirstDefines(ns: seq<Node>, at: Place, obj: nat) {
    Defines(ns, at, obj) && forall x: Place :: Earlier(x, at) ==> !Defines(ns, x, obj)
  }

  /** The last general declaration before node k is one of constants. */
  ghost predicate AfterConst(ns: seq<Node>, k: nat) { exists g: nat :: ConstAt(ns, k, g) }

  ghost predicate ConstAt(ns: seq<Node>, k: nat, g: nat) {
    g < k <= |ns| && ns[g].kind == GenDecl(Const) && forall h :: g < h < k ==> !ns[h].kind.GenDecl?
  }

  /** The symbol an identifier yields: a function under its full name; a type or an interface; a constant or a variable
      according to the declaration around it. An object named twice yields one, where it is named first. */
  ghost predicate SymbolAt(ns: seq<Node>, at: Place, s: SymbolData) {
    && at.0 < |ns|
    && var n := ns[at.0];
       match n.kind
       case FuncDecl(Some(d), detail) =>
         FirstDefines(ns, at, d.obj) && d.isFunc &&
         s == SymbolData(d.fqName, FunctionSym, n.info.startLine, n.info.endLine, detail)
       case TypeSpec(Some(d), shape, detail) =>
         FirstDefines(ns, at, d.obj) && d.hasPkg &&
         s == SymbolData(d.fqName, if shape == InterfaceType then InterfaceSym else TypeSym, n.info.startLine,
                         n.info.endLine, detail)
       case ValueSpec(names) =>
         at.1 < |names| && names[at.1].def.Some? &&
         FirstDefines(ns, at, names[at.1].def.value.obj) && names[at.1].def.value.hasPkg &&
         s == SymbolData(names[at.1].def.value.fqName, if AfterConst(ns, at.0) then ConstantSym else VariableSym,
                         n.info.startLine, n.info.endLine, names[at.1].detail)
       case _ => false
  }

  /** The symbols are those yielded at the given places of the walk, which are in order and leave none out. */
  ghost predicate SymbolsInOrder(ns: seq<Node>, symbols: seq<SymbolData>, places: seq<Place>) {
    && |places| == |symbols|
    && (forall k :: 0 <= k < |places| ==> SymbolAt(ns, places[k], symbols[k]))
    && (forall i, j :: 0 <= i < j < |places| ==> Earlier(places[i], places[j]))
    && (forall at: Place, s :: SymbolAt(ns, at, s) ==> at in places)
  }

  // ---------- What the walk has seen ----------

  function Begin(): Scan { Scan({}, NoTok) }

  /** Name j defines the object. */
  ghost predicate Names(names: seq<Name>, j: nat, obj: nat) {
    j < |names| && !names[j].blank && names[j].def.Some? && names[j].def.value.obj == obj
  }

  lemma {:induction false} SeenNames(st: Scan, names: seq<Name>)
    ensures forall o :: o in NamesAfter(st, names).seen <==> o in st.seen || exists j: nat :: Names(names, j, o)
    ensures NamesAfter(st, names).tok == st.tok
  {
    if names != [] {
      var k := |names| - 1;
      SeenNames(st, names[..k]);
      assert forall j: nat, o :: j < k ==> (Names(names[..k], j, o) <==> Names(names, j, o));
      forall o ensures o in NamesAfter(st, names).seen <==> o in st.seen || exists j: nat :: Names(names, j, o) {
        if j: nat :| Names(names, j, o) { assert j == k || Names(names[..k], j, o); }
        if j: nat :| Names(names[..k], j, o) { assert Names(names, j, o); }
        assert Names(names, k, o) ==> o in NamesAfter(st, names).seen;
      }
    }
  }

  lemma SeenNode(st: Scan, ns: seq<Node>, k: nat)
    requires |ns| == k + 1
    ensures forall o :: o in After(st, ns[k]).seen <==> o in st.seen || exists j: nat :: Defines(ns, (k, j), o)
    ensures After(st, ns[k]).tok == if ns[k].kind.GenDecl? then ns[k].kind.tok else st.tok
  {
    match ns[k].kind {
      case ValueSpec(names) =>
        SeenNames(st, names);
        assert forall j: nat, o :: Names(names, j, o) <==> Defines(ns, (k, j), o);
      case FuncDecl(Some(d), _) => assert Defines(ns, (k, 0), d.obj);
      case TypeSpec(Some(d), _, _) => assert Defines(ns, (k, 0), d.obj);
      case _ =>
    }
  }

  lemma EarlierDefines(ns: seq<Node>, k: nat, at: Place, o: nat)
    requires |ns| == k + 1
    ensures Defines(ns[..k], at, o) <==> Defines(ns, at, o) && at.0 < k
    ensures Defines(ns, at, o) ==> at.0 <= k
  {
  }

  lemma {:induction false} Seen(ns: seq<Node>, o: nat)
    ensures o in State(Begin(), ns).seen <==> exists at: Place :: Defines(ns, at, o)
  {
    if ns != [] {
      var k := |ns| - 1;
      Seen(ns[..k], o);
      SeenNode(State(Begin(), ns[..k]), ns, k);
      hide Defines, State, After;
      assert State(Begin(), ns) == After(State(Begin(), ns[..k]), ns[k]) by { StateNext(ns, k); }
      if at: Place :| Defines(ns, at, o) {
        EarlierDefines(ns, k, at, o);
        assert at == (at.0, at.1);
      }
      if at: Place :| Defines(ns[..k], at, o) { EarlierDefines(ns, k, at, o); }
    }
  }

  lemma StateNext(ns: seq<Node>, k: nat)
    requires |ns| == k + 1
    ensures State(Begin(), ns) == After(State(Begin(), ns[..k]), ns[k])
    ensures Out(Begin(), ns) == Out(Begin(), ns[..k]) + New(State(Begin(), ns[..k]), ns[k])
  {
  }

  lemma ConstNext(ns: seq<Node>, k: nat)
    requires |ns| == k + 1
    ensures AfterConst(ns, |ns|) <==>
            if ns[k].kind.GenDecl? then ns[k].kind.tok == Const else AfterConst(ns[..k], |ns[..k]|)
  {
    if ns[k].kind.GenDecl? {
      if ns[k].kind.tok == Const { assert ConstAt(ns, |ns|, k); }
      if g: nat :| ConstAt(ns, |ns|, g) { assert g == k; }
    } else {
      forall g: nat ensures ConstAt(ns[..k], k, g) <==> ConstAt(ns, |ns|, g) {}
      assert |ns[..k]| == k;
    }
  }

  lemma {:induction false} TokIs(ns: seq<Node>)
    ensures State(Begin(), ns).tok == Const <==> AfterConst(ns, |ns|)
  {
    if ns != [] {
      var k := |ns| - 1;
      TokIs(ns[..k]);
      SeenNode(State(Begin(), ns[..k]), ns, k);
      StateNext(ns, k);
      ConstNext(ns, k);
      hide State, After, AfterConst;
    }
  }

  // ---------- The symbols of one node ----------

  /** Name j yields a symbol in a walk that has seen the given objects. */
  ghost predicate NameYields(seen: set<nat>, names: seq<Name>, j: nat) {
    && j < |names| && !names[j].blank && names[j].def.Some? && names[j].def.value.hasPkg
    && names[j].def.value.obj !in seen
    && forall i: nat :: i < j ==> !Names(names, i, names[j].def.value.obj)
  }

  lemma {:induction false} NamesInOrder(st: Scan, names: seq<Name>, info: Info) returns (at: seq<nat>)
    ensures |at| == |NamesNew(st, names, info)|
    ensures forall k :: 0 <= k < |at| ==>
              && NameYields(st.seen, names, at[k])
              && NamesNew(st, names, info)[k] ==
                   SymbolData(names[at[k]].def.value.fqName, if st.tok == Const then ConstantSym else VariableSym,
                              info.startLine, info.endLine, names[at[k]].detail)
    ensures forall i, j :: 0 <= i < j < |at| ==> at[i] < at[j]
    ensures forall j :: NameYields(st.seen, names, j) ==> j in at
  {
    at := [];
    if names != [] {
      var k := |names| - 1;
      at := NamesInOrder(st, names[..k], info);
      SeenNames(st, names[..k]);
      forall j: nat, o | j < k ensures Names(names[..k], j, o) <==> Names(names, j, o) {}
      forall j: nat | j < k ensures NameYields(st.seen, names[..k], j) <==> NameYields(st.seen, names, j) {}
      var n := names[k];
      assert NameYields(st.seen, names, k) <==>
             !n.blank && Fresh(NamesAfter(st, names[..k]), n.def) && n.def.value.hasPkg;
      if NameYields(st.seen, names, k) { at := at + [k]; }
    }
  }

  /** Nothing before node k and nothing before name j of it defines the object. */
  lemma FirstIs(ns: seq<Node>, k: nat, j: nat, o: nat)
    requires |ns| == k + 1
    ensures FirstDefines(ns, (k, j), o) <==>
            && Defines(ns, (k, j), o) && o !in State(Begin(), ns[..k]).seen
            && forall i: nat :: i < j ==> !Defines(ns, (k, i), o)
  {
    Seen(ns[..k], o);
    hide Defines, State;
    if FirstDefines(ns, (k, j), o) {
      forall at: Place ensures !Defines(ns[..k], at, o) { EarlierDefines(ns, k, at, o); }
      forall i: nat | i < j ensures !Defines(ns, (k, i), o) { assert Earlier((k, i), (k, j)); }
    }
    if && Defines(ns, (k, j), o) && o !in State(Begin(), ns[..k]).seen
       && forall i: nat :: i < j ==> !Defines(ns, (k, i), o)
    {
      forall x: Place | Earlier(x, (k, j)) ensures !Defines(ns, x, o) {
        EarlierDefines(ns, k, x, o);
        assert x == (x.0, x.1);
      }
    }
  }

  /** The symbols of the last node, at its place in the walk. */
  lemma NodeSymbols(ns: seq<Node>, k: nat) returns (places: seq<Place>)
    requires |ns| == k + 1
    ensures |places| == |New(State(Begin(), ns[..k]), ns[k])|
    ensures forall i :: 0 <= i < |places| ==>
              places[i].0 == k && SymbolAt(ns, places[i], New(State(Begin(), ns[..k]), ns[k])[i])
    ensures forall i, j :: 0 <= i < j < |places| ==> Earlier(places[i], places[j])
    ensures forall at: Place, s :: SymbolAt(ns, at, s) && at.0 == k ==> at in places
  {
    var st := State(Begin(), ns[..k]);
    TokIs(ns[..k]);
    assert AfterConst(ns[..k], k) <==> AfterConst(ns, k) by { SameConst(ns, k); }
    hide State, AfterConst, FirstDefines;
    match ns[k].kind {
      case ValueSpec(names) => places := NamedSymbols(ns, k, st);
      case FuncDecl(Some(d), _) =>
        FirstIs(ns, k, 0, d.obj);
        forall j: nat ensures FirstDefines(ns, (k, j), d.obj) ==> j == 0 { FirstIs(ns, k, j, d.obj); }
        places := if d.obj !in st.seen && d.isFunc then [(k, 0)] else [];
        forall at: Place, s | SymbolAt(ns, at, s) && at.0 == k ensures at in places { assert at == (k, at.1); }
      case TypeSpec(Some(d), _, _) =>
        FirstIs(ns, k, 0, d.obj);
        forall j: nat ensures FirstDefines(ns, (k, j), d.obj) ==> j == 0 { FirstIs(ns, k, j, d.obj); }
        places := if d.obj !in st.seen && d.hasPkg then [(k, 0)] else [];
        forall at: Place, s | SymbolAt(ns, at, s) && at.0 == k ensures at in places { assert at == (k, at.1); }
      case _ => places := [];
    }
  }

  lemma SameConst(ns: seq<Node>, k: nat)
    requires |ns| == k + 1
    ensures AfterConst(ns[..k], k) <==> AfterConst(ns, k)
  {
    forall g: nat ensures ConstAt(ns[..k], k, g) <==> ConstAt(ns, k, g) {}
  }

  lemma NamedSymbols(ns: seq<Node>, k: nat, st: Scan) returns (places: seq<Place>)
    requires |ns| == k + 1 && ns[k].kind.ValueSpec? && st == State(Begin(), ns[..k])
    requires st.tok == Const <==> AfterConst(ns, k)
    ensures |places| == |NamesNew(st, ns[k].kind.names, ns[k].info)|
    ensures forall i :: 0 <= i < |places| ==>
              places[i].0 == k && SymbolAt(ns, places[i], NamesNew(st, ns[k].kind.names, ns[k].info)[i])
    ensures forall i, j :: 0 <= i < j < |places| ==> Earlier(places[i], places[j])
    ensures forall at: Place, s :: SymbolAt(ns, at, s) && at.0 == k ==> at in places
  {
    var names := ns[k].kind.names;
    var at := NamesInOrder(st, names, ns[k].info);
    places := seq(|at|, i requires 0 <= i < |at| => (k, at[i]));
    hide State, AfterConst, NamesNew, FirstDefines;
    forall j: nat | j < |names| && names[j].def.Some?
      ensures NameYields(st.seen, names, j) <==>
              FirstDefines(ns, (k, j), names[j].def.value.obj) && names[j].def.value.hasPkg
    {
      FirstIs(ns, k, j, names[j].def.value.obj);
      assert forall i: nat, o :: Names(names, i, o) <==> Defines(ns, (k, i), o);
    }
    forall p: Place, s | SymbolAt(ns, p, s) && p.0 == k ensures p in places {
      assert NameYields(st.seen, names, p.1) && p == (k, p.1);
      var i :| 0 <= i < |at| && at[i] == p.1;
      assert places[i] == p;
    }
  }

  // ---------- All of them ----------

  lemma EarlierSymbol(ns: seq<Node>, k: nat, at: Place, s: SymbolData)
    requires |ns| == k + 1
    ensures SymbolAt(ns[..k], at, s) <==> SymbolAt(ns, at, s) && at.0 < k
    ensures SymbolAt(ns, at, s) ==> at.0 <= k
  {
    if at.0 < k {
      assert ns[..k][at.0] == ns[at.0];
      forall o ensures FirstDefines(ns[..k], at, o) <==> FirstDefines(ns, at, o) {
        forall x: Place ensures Defines(ns[..k], x, o) <==> Defines(ns, x, o) && x.0 < k {
          EarlierDefines(ns, k, x, o);
        }
      }
      forall g: nat ensures ConstAt(ns[..k], at.0, g) <==> ConstAt(ns, at.0, g) {}
    }
  }

  lemma SymbolsAppend(ns: seq<Node>, k: nat, symbols: seq<SymbolData>, places: seq<Place>, more: seq<SymbolData>,
                      morePlaces: seq<Place>)
    requires |ns| == k + 1 && SymbolsInOrder(ns[..k], symbols, places) && |more| == |morePlaces|
    requires forall i :: 0 <= i < |more| ==> morePlaces[i].0 == k && SymbolAt(ns, morePlaces[i], more[i])
    requires forall i, j :: 0 <= i < j < |more| ==> Earlier(morePlaces[i], morePlaces[j])
    requires forall at: Place, s :: SymbolAt(ns, at, s) && at.0 == k ==> at in morePlaces
    ensures SymbolsInOrder(ns, symbols + more, places + morePlaces)
  {
    hide SymbolAt;
    var all := places + morePlaces;
    forall i | 0 <= i < |all| ensures SymbolAt(ns, all[i], (symbols + more)[i]) {
      if i < |places| { EarlierSymbol(ns, k, places[i], symbols[i]); }
    }
    forall i | 0 <= i < |places| ensures places[i].0 < k { EarlierSymbol(ns, k, places[i], symbols[i]); }
    forall at: Place, s | SymbolAt(ns, at, s) ensures at in all { EarlierSymbol(ns, k, at, s); }
  }

  lemma {:induction false} WalkInOrder(ns: seq<Node>) returns (places: seq<Place>)
    ensures SymbolsInOrder(ns, Out(Begin(), ns), places)
  {
    places := [];
    if ns != [] {
      var k := |ns| - 1;
      places := WalkInOrder(ns[..k]);
      var more := NodeSymbols(ns, k);
      StateNext(ns, k);
      hide SymbolAt, SymbolsInOrder, Out, State, New;
      SymbolsAppend(ns, k, Out(Begin(), ns[..k]), places, New(State(Begin(), ns[..k]), ns[k]), more);
      places := places + more;
    }
  }

  /** The symbols of a source are those of its functions, types, constants and variables, in walk order, each object
      once, and no others. */
  lemma SymbolsOfTree(src: SourceFile) returns (places: seq<Place>)
    ensures SymbolsInOrder(PreOrder(src.ast), SymbolsOf(src), places)
  {
    hide PreOrder;
    places := WalkInOrder(PreOrder(src.ast));
  }
}
