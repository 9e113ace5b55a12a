/** The repositories a run is not about, and the identity of repositories over any number of runs. */
module Isolation {
  import opened Base
  import opened Paths
  import opened SourceTree
  import opened Tables
  import opened Backends
  import opened Discards
  import opened Runs
  import opened Refinement
  import opened Messages
  import opened Calls
  import opened Imports

  ghost predicate InjectiveEmbeddings(a: DB) {
    forall c, d :: c in a.chunks && d in a.chunks && a.chunks[c].embedding.Some? ==>
      a.chunks[c].embedding == a.chunks[d].embedding ==> c == d
  }

  lemma CallsKept(a: DB, b: DB, repo: Id, lo: Id, t: Writes, gone: set<Id>, q: Id, e: CallEdge)
    requires Sound(a) && q != repo && e.repo == q
    requires forall f :: f in gone ==> f in a.files && a.files[f].repo == repo
    requires Grows(DeleteFiles(a, gone), b, repo, lo, t)
    ensures multiset(b.calls)[e] == multiset(a.calls)[e]
  {
    var d := DeleteFiles(a, gone);
    KeepCallsCount(a.calls, d.files.Keys, d.symbols.Keys, e);
    assert d.calls == KeepCalls(a.calls, d.files.Keys, d.symbols.Keys);
    hide KeepCalls, KeepImports;
    assert multiset(d.calls)[e] == multiset(a.calls)[e] by {
      if e in a.calls { assert CallSound(a, e); }
    }
    AppendedElsewhere(d.calls, b.calls, e);
  }

  lemma AppendedElsewhere<T>(d: seq<T>, b: seq<T>, e: T)
    requires d <= b && forall k :: |d| <= k < |b| ==> b[k] != e
    ensures multiset(b)[e] == multiset(d)[e]
  {
    assert b == d + b[|d|..];
    assert e !in b[|d|..];
  }

  lemma ImportsKept(a: DB, b: DB, repo: Id, lo: Id, t: Writes, gone: set<Id>, q: Id, e: ImportEdge)
    requires Sound(a) && q != repo && e.repo == q
    requires forall f :: f in gone ==> f in a.files && a.files[f].repo == repo
    requires Grows(DeleteFiles(a, gone), b, repo, lo, t)
    ensures multiset(b.imports)[e] == multiset(a.imports)[e]
  {
    var d := DeleteFiles(a, gone);
    KeepImportsCount(a.imports, d.files.Keys, e);
    assert d.imports == KeepImports(a.imports, d.files.Keys);
    hide KeepCalls, KeepImports;
    assert multiset(d.imports)[e] == multiset(a.imports)[e] by {
      if e in a.imports { assert ImportSound(a, e); }
    }
    AppendedElsewhere(d.imports, b.imports, e);
  }

  lemma FilesKept(a: DB, b: DB, repo: Id, lo: Id, t: Writes, gone: set<Id>, q: Id)
    requires Below(a, lo) && q != repo
    requires forall f :: f in gone ==> f in a.files && a.files[f].repo == repo
    requires Grows(DeleteFiles(a, gone), b, repo, lo, t)
    ensures FilesOf(b, q) == FilesOf(a, q)
  {
    hide KeepCalls, KeepImports, SymbolsGrow, ChunksGrow, EdgesGrow;
    var d := DeleteFiles(a, gone);
    forall f | f in FilesOf(a, q) ensures f in FilesOf(b, q) { assert f in d.files; }
    forall f | f in FilesOf(b, q) ensures f in FilesOf(a, q) { assert f in d.files; }
  }

  lemma GoneOfRepo(r: Run, repo: Id, paths: iset<Rel>)
    requires Confined(r, repo, paths)
    ensures forall f :: f in r.gone ==> f in r.start.files && r.start.files[f].repo == repo
    ensures Grows(DeleteFiles(r.start, r.gone), r.stop, repo, r.lo, r.t)
  {
  }

  /** A run for one repository, wherever it stops, leaves every row of every other repository as it was. */
  lemma OtherRepositories(r: Run, repo: Id, paths: iset<Rel>, q: Id)
    requires Sound(r.start) && Below(r.start, r.lo) && Confined(r, repo, paths) && q != repo
    ensures FilesOf(r.stop, q) == FilesOf(r.start, q)
    ensures forall f :: f in FilesOf(r.start, q) ==> SameRowsOf(r.start, r.stop, r.t, f)
    ensures forall e: CallEdge :: e.repo == q ==> multiset(r.stop.calls)[e] == multiset(r.start.calls)[e]
    ensures forall e: ImportEdge :: e.repo == q ==> multiset(r.stop.imports)[e] == multiset(r.start.imports)[e]
  {
    GoneOfRepo(r, repo, paths);
    hide Confined, Sound, Below, Grows, DeleteFiles, SameRowsOf;
    FilesKept(r.start, r.stop, repo, r.lo, r.t, r.gone, q);
    forall f | f in FilesOf(r.start, q) ensures SameRowsOf(r.start, r.stop, r.t, f) {
      UntouchedRows(r, repo, paths, f);
    }
    forall e: CallEdge ensures e.repo == q ==> multiset(r.stop.calls)[e] == multiset(r.start.calls)[e] {
      if e.repo == q { CallsKept(r.start, r.stop, repo, r.lo, r.t, r.gone, q, e); }
    }
    forall e: ImportEdge ensures e.repo == q ==> multiset(r.stop.imports)[e] == multiset(r.start.imports)[e] {
      if e.repo == q { ImportsKept(r.start, r.stop, repo, r.lo, r.t, r.gone, q, e); }
    }
  }

  /** A vector of a chunk of another repository survives: with embedding ids injective, the only way to lose it
      is a worker writing that same id to a chunk under discard. */
  lemma OtherVectors(r: Run, repo: Id, paths: iset<Rel>, c: Id, v: VecId)
    requires Sound(r.start) && Effect(r, repo, paths)
    requires InjectiveEmbeddings(r.start) && forall w :: w in r.t ==> w.embedding != Some(v)
    requires c in r.start.chunks && r.start.chunks[c].repo != repo && r.start.chunks[c].embedding == Some(v) &&
        v in r.v0
    ensures v in r.v1
  {
    var a := r.start;
    EffectParts(r, repo, paths);
    hide Effect, Confined;
    if v !in r.v1 {
      assert PointedFrom(a, v, r.cleaned, r.t);
      var d :| d in a.chunks && a.chunks[d].file in r.cleaned &&
               (WroteEmbedding(r.t, d, Some(v)) || a.chunks[d].embedding == Some(v));
    }
  }

  // ---------- Identity over any number of runs ----------

  /** What may happen to the tables between two states: a run for any message, wherever it stops, or column writes. */
  datatype Link = RunLink(from: Id, repo: Id, clone: Clone, input: RepositoryInput, run: Run) | WriteLink(t: Writes)

  ghost predicate Linked(a: DB, l: Link, b: DB) {
    match l
    case RunLink(from, repo, c, input, run) => Ran(a, from, repo, c, input, run) && b == run.stop
    case WriteLink(t) => Drift(a, b, t)
  }

  lemma LinkKeepsIdentity(a: DB, l: Link, b: DB)
    requires Sound(a) && Linked(a, l, b)
    ensures Sound(b) && KeepsIdentity(a, b)
  {
    match l {
      case RunLink(from, repo, c, input, run) => hide Sound, Below;
      case WriteLink(t) => DriftKeepsSound(a, b, t);
    }
  }

  ghost predicate Chain(states: seq<DB>, links: seq<Link>) {
    && |states| == |links| + 1 && Sound(states[0])
    && forall k :: 0 <= k < |links| ==> Linked(states[k], links[k], states[k + 1])
  }

  lemma {:induction false} ChainSound(states: seq<DB>, links: seq<Link>, k: nat)
    requires Chain(states, links) && k < |states|
    ensures Sound(states[k])
  {
    hide Sound, Linked;
    if k > 0 {
      ChainSound(states, links, k - 1);
      LinkKeepsIdentity(states[k - 1], links[k - 1], states[k]);
    }
  }

  /** Over any sequence of runs an external id keeps the one record it first got, and that record its organization. */
  lemma {:induction false} IdentityOverRuns(states: seq<DB>, links: seq<Link>, i: nat, j: nat, r: Id, s: Id)
    requires Chain(states, links) && i <= j < |states|
    requires r in states[i].repos && s in states[j].repos && states[j].repos[s].ext == states[i].repos[r].ext
    ensures s == r && states[j].repos[s].org == states[i].repos[r].org
    decreases j - i
  {
    ChainSound(states, links, i);
    hide Linked, SymbolsSound, ChunksSound, CallsSound, ImportsSound, UniquePaths;
    if i < j {
      assert Linked(states[i], links[i], states[i + 1]);
      LinkKeepsIdentity(states[i], links[i], states[i + 1]);
      IdentityOverRuns(states, links, i + 1, j, r, s);
    }
  }
}
