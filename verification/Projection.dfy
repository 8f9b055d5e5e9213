/** Folding ids to their canonical entity: analytics-service `projection.py`. The relationship maps are
    arbitrary: they may hold cycles, self-references, chains of any length and empty ids. */
module Projection {
  import opened Options

  type Id = string

  const MAX_FOLD_HOPS: int := 16

  /** One loaded snapshot of the relationships. */
  datatype Graph = Graph(
    supersession: map<Id, Id>, alias: map<Id, Id>, identityStates: map<Id, string>, knownIds: Option<set<Id>>)

  datatype Warning =
    | SelfReference(at: Id)
    | Cycle(path: seq<Id>, next: Id, at: Id)
    | TooLong(hops: int, at: Id)
    | UnknownTarget(at: Id)
  {
    /** A warning that the walk was stopped rather than finished. */
    predicate IsStop() {
      !UnknownTarget?
    }
  }

  datatype Canonicalization = Canonicalization(
    input: Id, canonical: Id, path: seq<Id>, identityState: string, warnings: seq<Warning>)

  /** The fold leaving `x`: supersession wins over alias. */
  function Edge(g: Graph, x: Id): Option<Id> {
    if x in g.supersession then Some(g.supersession[x])
    else if x in g.alias then Some(g.alias[x])
    else None
  }

  function Last(path: seq<Id>): Id
    requires path != []
  {
    path[|path| - 1]
  }

  function Extend(g: Graph, path: seq<Id>, hops: nat): (r: seq<Id>)
    requires path != []
    ensures r != []
    decreases hops
  {
    var next := Edge(g, Last(path));
    if hops == 0 || next.None? || next.value in path then path
    else Extend(g, path + [next.value], hops - 1)
  }

  function Hops(maxHops: int): nat {
    if maxHops > 0 then maxHops else 0
  }

  function FoldPath(g: Graph, x: Id, maxHops: int): (path: seq<Id>)
    ensures path != []
  {
    Extend(g, [x], Hops(maxHops))
  }

  function CanonicalId(g: Graph, x: Id, maxHops: int): Id {
    Last(FoldPath(g, x, maxHops))
  }

  /** Present and not the empty string: what the over-length test of the source looks for. */
  predicate Truthy(m: map<Id, Id>, x: Id) {
    x in m && m[x] != ""
  }

  function StopWarnings(g: Graph, path: seq<Id>, maxHops: int): seq<Warning>
    requires path != []
  {
    var at := Last(path);
    var next := Edge(g, at);
    if |path| > Hops(maxHops) then
      if Truthy(g.supersession, at) || Truthy(g.alias, at) then [TooLong(maxHops, at)] else []
    else if next.None? then []
    else if next.value == at then [SelfReference(at)]
    else [Cycle(path, next.value, at)]
  }

  function Fold(g: Graph, x: Id, maxHops: int): Canonicalization {
    var path := FoldPath(g, x, maxHops);
    var at := Last(path);
    Canonicalization(x, at, path, if at in g.identityStates then g.identityStates[at] else "UNKNOWN",
                     StopWarnings(g, path, maxHops) +
                     if g.knownIds.Some? && at !in g.knownIds.value then [UnknownTarget(at)] else [])
  }

  // ---- what the walk is ---------------------------------------------------------------------------

  ghost predicate IsChain(g: Graph, path: seq<Id>) {
    path != [] && forall i :: 0 <= i < |path| - 1 ==> Edge(g, path[i]) == Some(path[i + 1])
  }

  ghost predicate NoRepeats(path: seq<Id>) {
    forall i, j :: 0 <= i < j < |path| ==> path[i] != path[j]
  }

  /** The walk from `x`, said without an algorithm: a repeat-free chain of at most the allowed hops that
      cannot be continued. */
  ghost predicate IsWalk(g: Graph, x: Id, maxHops: int, path: seq<Id>) {
    IsChain(g, path) && path[0] == x && NoRepeats(path) && |path| <= Hops(maxHops) + 1 &&
    (|path| == Hops(maxHops) + 1 || Edge(g, Last(path)).None? || Edge(g, Last(path)).value in path)
  }

  lemma {:induction false} ExtendIsWalk(g: Graph, path: seq<Id>, hops: nat, maxHops: int)
    requires IsChain(g, path) && NoRepeats(path) && |path| + hops == Hops(maxHops) + 1
    ensures IsWalk(g, path[0], maxHops, Extend(g, path, hops))
    ensures path <= Extend(g, path, hops)
    decreases hops
  {
    var next := Edge(g, Last(path));
    if hops > 0 && next.Some? && next.value !in path {
      ExtendIsWalk(g, path + [next.value], hops - 1, maxHops);
    }
  }

  lemma {:induction false} ChainsAgree(g: Graph, p: seq<Id>, q: seq<Id>, i: nat)
    requires IsChain(g, p) && IsChain(g, q) && p[0] == q[0] && i < |p| && i < |q|
    ensures p[i] == q[i]
  {
    if i > 0 {
      ChainsAgree(g, p, q, i - 1);
    }
  }

  lemma LongerChainContinues(g: Graph, p: seq<Id>, q: seq<Id>)
    requires IsChain(g, p) && IsChain(g, q) && p[0] == q[0]
    ensures |p| < |q| ==> p == q[..|p|] && Edge(g, Last(p)) == Some(q[|p|])
  {
    forall i | 0 <= i < |p| && i < |q| ensures p[i] == q[i] {
      ChainsAgree(g, p, q, i);
    }
  }

  lemma WalksDoNotOutrun(g: Graph, x: Id, maxHops: int, p: seq<Id>, q: seq<Id>)
    requires IsWalk(g, x, maxHops, p) && IsWalk(g, x, maxHops, q)
    ensures |q| <= |p|
  {
    LongerChainContinues(g, p, q);
  }

  /** On every graph and every hop bound, the computed path is the walk, and the only one. */
  lemma FoldPathIsTheWalk(g: Graph, x: Id, maxHops: int, path: seq<Id>)
    ensures IsWalk(g, x, maxHops, path) <==> path == FoldPath(g, x, maxHops)
  {
    ExtendIsWalk(g, [x], Hops(maxHops), maxHops);
    var p := FoldPath(g, x, maxHops);
    if IsWalk(g, x, maxHops, path) {
      WalksDoNotOutrun(g, x, maxHops, p, path);
      WalksDoNotOutrun(g, x, maxHops, path, p);
      forall i | 0 <= i < |p| ensures p[i] == path[i] {
        ChainsAgree(g, p, path, i);
      }
    }
  }

  // ---- warnings -----------------------------------------------------------------------------------

  ghost predicate StopWarned(g: Graph, x: Id, maxHops: int) {
    exists w :: w in Fold(g, x, maxHops).warnings && w.IsStop()
  }

  /** Every fold has a target the over-length test can see. */
  ghost predicate VisibleTargets(g: Graph) {
    forall x :: Edge(g, x).Some? ==> Truthy(g.supersession, x) || Truthy(g.alias, x)
  }

  lemma WarnedWhenStopped(g: Graph, x: Id, maxHops: int)
    ensures StopWarned(g, x, maxHops) <==> StopWarnings(g, FoldPath(g, x, maxHops), maxHops) != []
  {
    var stops := StopWarnings(g, FoldPath(g, x, maxHops), maxHops);
    var all := Fold(g, x, maxHops).warnings;
    if stops != [] {
      assert all[0] == stops[0] && all[0] in all && all[0].IsStop();
    }
  }

  /** A stop warning is meant to say that the result still folds further. It says exactly that, for all
      ids and hop bounds, if and only if the maps hold no fold onto the empty id alone: there the
      over-length test, which asks for a non-empty target, is blind. */
  lemma StopWarningsAreExactWhen(g: Graph)
    ensures (forall x, maxHops :: StopWarned(g, x, maxHops) <==> Edge(g, CanonicalId(g, x, maxHops)).Some?)
            <==> VisibleTargets(g)
  {
    if VisibleTargets(g) {
      forall x, maxHops ensures StopWarned(g, x, maxHops) <==> Edge(g, CanonicalId(g, x, maxHops)).Some? {
        WarnedWhenStopped(g, x, maxHops);
        FoldPathIsTheWalk(g, x, maxHops, FoldPath(g, x, maxHops));
      }
    } else {
      var x :| Edge(g, x).Some? && !Truthy(g.supersession, x) && !Truthy(g.alias, x);
      WarnedWhenStopped(g, x, 0);
      assert !StopWarned(g, x, 0) && CanonicalId(g, x, 0) == x;
    }
  }

  // ---- chains that end ------------------------------------------------------------------------------

  /** Following folds from `x` reaches an id without a fold within `n` hops: acyclic and in bounds. */
  predicate Ends(g: Graph, x: Id, n: nat)
    decreases n
  {
    Edge(g, x).None? || (n > 0 && Ends(g, Edge(g, x).value, n - 1))
  }

  /** Where it ends. */
  function Root(g: Graph, x: Id, n: nat): (r: Id)
    requires Ends(g, x, n)
    ensures Edge(g, r).None?
    decreases n
  {
    if Edge(g, x).None? then x else Root(g, Edge(g, x).value, n - 1)
  }

  lemma {:induction false} RootIsStable(g: Graph, x: Id, n: nat, m: nat)
    requires Ends(g, x, n) && n <= m
    ensures Ends(g, x, m) && Root(g, x, m) == Root(g, x, n)
    decreases n
  {
    if Edge(g, x).Some? {
      RootIsStable(g, Edge(g, x).value, n - 1, m - 1);
    }
  }

  lemma {:induction false} RootAlongChain(g: Graph, path: seq<Id>, k: nat, n: nat)
    requires IsChain(g, path) && Ends(g, path[0], n) && k < |path|
    ensures k <= n && Ends(g, path[k], n - k) && Root(g, path[k], n - k) == Root(g, path[0], n)
  {
    if k > 0 {
      RootAlongChain(g, path, k - 1, n);
      assert Edge(g, path[k - 1]) == Some(path[k]);
      assert Ends(g, path[k - 1], n - k + 1);
    }
  }

  /** A chain that ends never revisits an id. */
  lemma {:induction false} ClosedPathsNeverEnd(g: Graph, path: seq<Id>, x: Id, n: nat)
    requires x in path && forall y :: y in path ==> Edge(g, y).Some? && Edge(g, y).value in path
    ensures !Ends(g, x, n)
    decreases n
  {
    if n > 0 {
      ClosedPathsNeverEnd(g, path, Edge(g, x).value, n - 1);
    }
  }

  lemma {:induction false} ChainEndingBacksUp(g: Graph, path: seq<Id>, k: nat)
    requires IsChain(g, path) && k < |path| && Edge(g, Last(path)).None?
    ensures Ends(g, path[k], |path| - 1 - k)
    decreases |path| - k
  {
    if k < |path| - 1 {
      ChainEndingBacksUp(g, path, k + 1);
    }
  }

  /** The result is free of folds exactly when the chain from `x` ends within the bound; then it is the
      chain's end. */
  lemma CanonicalIsTheEnd(g: Graph, x: Id, maxHops: int)
    ensures Ends(g, x, Hops(maxHops)) <==> Edge(g, CanonicalId(g, x, maxHops)).None?
    ensures Ends(g, x, Hops(maxHops)) ==> CanonicalId(g, x, maxHops) == Root(g, x, Hops(maxHops))
  {
    var path := FoldPath(g, x, maxHops);
    FoldPathIsTheWalk(g, x, maxHops, path);
    if Edge(g, Last(path)).None? {
      ChainEndingBacksUp(g, path, 0);
      RootIsStable(g, x, |path| - 1, Hops(maxHops));
      RootAlongChain(g, path, |path| - 1, Hops(maxHops));
    } else if Ends(g, x, Hops(maxHops)) {
      RootAlongChain(g, path, |path| - 1, Hops(maxHops));
      forall y | y in path ensures Edge(g, y).Some? && Edge(g, y).value in path {
        var i :| 0 <= i < |path| && path[i] == y;
        assert i < |path| - 1 ==> Edge(g, y) == Some(path[i + 1]);
      }
      ClosedPathsNeverEnd(g, path, x, Hops(maxHops));
      assert false;
    }
  }

  /** On chains that end in bounds, every id met on the way folds to the same canonical id. */
  lemma PathFoldsTogether(g: Graph, x: Id, maxHops: int, y: Id)
    requires Ends(g, x, Hops(maxHops)) && y in FoldPath(g, x, maxHops)
    ensures CanonicalId(g, y, maxHops) == CanonicalId(g, x, maxHops)
  {
    var path := FoldPath(g, x, maxHops);
    FoldPathIsTheWalk(g, x, maxHops, path);
    var k :| 0 <= k < |path| && path[k] == y;
    RootAlongChain(g, path, k, Hops(maxHops));
    RootIsStable(g, y, Hops(maxHops) - k, Hops(maxHops));
    CanonicalIsTheEnd(g, x, maxHops);
    CanonicalIsTheEnd(g, y, maxHops);
  }

  /** Folding twice is folding once exactly when the first result has no fold but onto itself (or no hop
      is allowed): on cycles and over-long chains canonicalisation is not idempotent. */
  lemma IdempotentExactlyWhen(g: Graph, x: Id, maxHops: int)
    ensures var c := CanonicalId(g, x, maxHops);
            CanonicalId(g, c, maxHops) == c <==>
            maxHops <= 0 || Edge(g, c).None? || Edge(g, c) == Some(c)
  {
    var c := CanonicalId(g, x, maxHops);
    var path := FoldPath(g, c, maxHops);
    FoldPathIsTheWalk(g, c, maxHops, path);
    if maxHops > 0 && Edge(g, c).Some? && Edge(g, c).value != c {
      assert |path| > 1;
      assert path[0] != path[|path| - 1];
    }
  }

  /** Nothing folds to a superseded id while chains end in bounds. */
  lemma SupersededIsNeverCanonical(g: Graph, x: Id, legacy: Id, maxHops: int)
    requires Ends(g, x, Hops(maxHops)) && Edge(g, legacy).Some?
    ensures CanonicalId(g, x, maxHops) != legacy
  {
    CanonicalIsTheEnd(g, x, maxHops);
  }

  // ---- the code -------------------------------------------------------------------------------------

  method Canonicalize(x: Id, g: Graph, maxHops: int) returns (r: Canonicalization)
    ensures r == Fold(g, x, maxHops)
  {
    var warnings: seq<Warning> := [];
    var path, seen, current := [x], {x}, x;
    var hop, broke := 0, false;
    while hop < maxHops && !broke
      invariant 0 <= hop && (hop <= maxHops || maxHops <= 0 == hop)
      invariant path != [] && current == Last(path) && seen == (set y | y in path)
      invariant !broke ==> |path| == hop + 1 && warnings == []
      invariant !broke ==> FoldPath(g, x, maxHops) == Extend(g, path, Hops(maxHops) - hop)
      invariant broke ==> path == FoldPath(g, x, maxHops) && |path| <= Hops(maxHops) &&
                          warnings == StopWarnings(g, path, maxHops)
      decreases !broke, maxHops - hop
    {
      var next := if current in g.supersession then Some(g.supersession[current]) else None;
      if next.None? && current in g.alias {
        next := Some(g.alias[current]);
      }
      if next.None? {
        broke := true;
      } else if next.value == current {
        warnings := warnings + [SelfReference(current)];
        broke := true;
      } else if next.value in seen {
        warnings := warnings + [Cycle(path, next.value, current)];
        broke := true;
      } else {
        path := path + [next.value];
        seen := seen + {next.value};
        current := next.value;
        hop := hop + 1;
      }
    }
    if !broke && (Truthy(g.supersession, current) || Truthy(g.alias, current)) {
      warnings := warnings + [TooLong(maxHops, current)];
    }
    if g.knownIds.Some? && current !in g.knownIds.value {
      warnings := warnings + [UnknownTarget(current)];
    }
    r := Canonicalization(x, current, path,
                          if current in g.identityStates then g.identityStates[current] else "UNKNOWN", warnings);
  }

  /** The canonical ids of a list. */
  function FoldSet(g: Graph, ids: seq<Id>): set<Id> {
    set x | x in ids :: CanonicalId(g, x, MAX_FOLD_HOPS)
  }

  /** Folded, de-duplicated, ordered by first appearance. */
  function Dedupe(g: Graph, ids: seq<Id>): seq<Id> {
    if ids == [] then []
    else
      var before := Dedupe(g, ids[..|ids| - 1]);
      var c := CanonicalId(g, ids[|ids| - 1], MAX_FOLD_HOPS);
      if c in before then before else before + [c]
  }

  lemma FoldSetUnion(g: Graph, a: seq<Id>, b: seq<Id>)
    ensures FoldSet(g, a + b) == FoldSet(g, a) + FoldSet(g, b)
  {
  }

  lemma {:induction false} DistinctLength(ids: seq<Id>)
    requires NoRepeats(ids)
    ensures |ids| == |set c | c in ids|
  {
    if ids != [] {
      var front, last := ids[..|ids| - 1], ids[|ids| - 1];
      DistinctLength(front);
      assert (set c | c in ids) == (set c | c in front) + {last};
      assert last !in front;
    }
  }

  lemma {:induction false} DedupeFolds(g: Graph, ids: seq<Id>)
    ensures NoRepeats(Dedupe(g, ids))
    ensures (set c | c in Dedupe(g, ids)) == FoldSet(g, ids)
  {
    if ids != [] {
      var front, last := ids[..|ids| - 1], ids[|ids| - 1];
      DedupeFolds(g, front);
      assert ids == front + [last];
      FoldSetUnion(g, front, [last]);
      assert FoldSet(g, [last]) == {CanonicalId(g, last, MAX_FOLD_HOPS)};
    }
  }

  /** No canonical entity is counted twice and none is lost. */
  lemma DedupeCountsOnce(g: Graph, ids: seq<Id>)
    ensures NoRepeats(Dedupe(g, ids))
    ensures (set c | c in Dedupe(g, ids)) == FoldSet(g, ids)
    ensures |Dedupe(g, ids)| == |FoldSet(g, ids)|
  {
    DedupeFolds(g, ids);
    DistinctLength(Dedupe(g, ids));
  }

  lemma {:induction false} DedupeIsOrderStable(g: Graph, ids: seq<Id>, n: nat)
    requires n <= |ids|
    ensures Dedupe(g, ids[..n]) <= Dedupe(g, ids)
    decreases |ids| - n
  {
    if n < |ids| {
      assert ids[..n + 1][..n] == ids[..n];
      DedupeIsOrderStable(g, ids, n + 1);
    } else {
      assert ids[..n] == ids;
    }
  }

  /** The bound canonicalizer over one snapshot, with its result cache. */
  class Canonicalizer {
    const graph: Graph
    var cache: map<Id, Canonicalization>

    /** The cache never holds anything but what the pure function returns. */
    ghost predicate Valid()
      reads this
    {
      forall x :: x in cache ==> cache[x] == Fold(graph, x, MAX_FOLD_HOPS)
    }

    constructor (graph: Graph)
      ensures Valid() && this.graph == graph && cache == map[]
    {
      this.graph, cache := graph, map[];
    }

    method Resolve(x: Id) returns (r: Canonicalization)
      requires Valid()
      modifies this`cache
      ensures Valid() && r == Fold(graph, x, MAX_FOLD_HOPS)
      ensures x in cache && old(cache.Keys) <= cache.Keys
    {
      if x in cache {
        r := cache[x];
      } else {
        r := Canonicalize(x, graph, MAX_FOLD_HOPS);
        cache := cache[x := r];
      }
    }

    method DedupeIds(ids: seq<Id>) returns (out: seq<Id>)
      requires Valid()
      modifies this`cache
      ensures Valid() && out == Dedupe(graph, ids)
    {
      out := [];
      var seen: set<Id> := {};
      var i := 0;
      while i < |ids|
        invariant 0 <= i <= |ids| && Valid()
        invariant out == Dedupe(graph, ids[..i]) && forall c :: c in seen <==> c in out
      {
        assert ids[..i + 1][..i] == ids[..i];
        var r := Resolve(ids[i]);
        if r.canonical !in seen {
          seen := seen + {r.canonical};
          out := out + [r.canonical];
        }
        i := i + 1;
      }
      assert ids[..i] == ids;
    }
  }
}
