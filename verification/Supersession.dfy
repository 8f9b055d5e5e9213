/**
 * The supersession rows behind the canonical fold: one row per legacy id, switched on and off but never
 * removed. What the commands allow decides what graphs the fold has to walk.
 */
module Supersession {
  import opened Options
  import opened Projection

  datatype Link = Link(canonical: Id, active: bool)
  type Links = map<Id, Link>

  datatype Outcome = Superseded | SameNode | TargetNotFound | AlreadySuperseded(target: Id) | Unsuperseded | AlreadyInactive

  datatype Change = Change(links: Links, outcome: Outcome)

  function Supersede(links: Links, legacy: Id, canonical: Id, targetExists: bool): Change {
    if legacy == canonical then Change(links, SameNode)
    else if !targetExists then Change(links, TargetNotFound)
    else if legacy in links && links[legacy].active && links[legacy].canonical != canonical then
      Change(links, AlreadySuperseded(links[legacy].canonical))
    else Change(links[legacy := Link(canonical, true)], Superseded)
  }

  function Unsupersede(links: Links, legacy: Id): Change {
    if legacy !in links || !links[legacy].active then Change(links, AlreadyInactive)
    else Change(links[legacy := links[legacy].(active := false)], Unsuperseded)
  }

  // What the analytics projection loads: the active rows.
  function ActiveLinks(links: Links): map<Id, Id> {
    map l | l in links && links[l].active :: links[l].canonical
  }

  function GraphOf(links: Links, alias: map<Id, Id>): Graph {
    Graph(ActiveLinks(links), alias, map[], None)
  }

  ghost predicate Terminates(g: Graph, x: Id) {
    exists n: nat :: Ends(g, x, n)
  }

  ghost predicate Acyclic(g: Graph) {
    forall x: Id :: Terminates(g, x)
  }

  // `k` folds lead from `x` to `y`.
  predicate ReachesIn(g: Graph, x: Id, y: Id, k: nat)
    decreases k
  {
    if k == 0 then x == y else Edge(g, x).Some? && ReachesIn(g, Edge(g, x).value, y, k - 1)
  }

  ghost predicate Reaches(g: Graph, x: Id, y: Id) {
    exists k: nat :: ReachesIn(g, x, y, k)
  }

  /** An active supersession is never pointed elsewhere: it has to be switched off first. */
  lemma ActiveLinksAreFixed(links: Links, legacy: Id, canonical: Id, targetExists: bool, other: Id)
    requires other in ActiveLinks(links)
    ensures var after := ActiveLinks(Supersede(links, legacy, canonical, targetExists).links);
            other in after && after[other] == ActiveLinks(links)[other]
  {
  }

  // Only the edge of `legacy` changes.
  lemma SupersedeSetsOneEdge(links: Links, alias: map<Id, Id>, legacy: Id, canonical: Id, x: Id)
    requires Supersede(links, legacy, canonical, true).outcome == Superseded
    ensures Edge(GraphOf(Supersede(links, legacy, canonical, true).links, alias), x)
         == if x == legacy then Some(canonical) else Edge(GraphOf(links, alias), x)
  {
  }

  ghost predicate Rerouted(g: Graph, h: Graph, legacy: Id, canonical: Id) {
    forall x: Id :: Edge(h, x) == if x == legacy then Some(canonical) else Edge(g, x)
  }

  lemma {:induction false} MissingLegacyEndsAlike(g: Graph, h: Graph, legacy: Id, canonical: Id, x: Id, n: nat)
    requires Rerouted(g, h, legacy, canonical) && Ends(g, x, n) && !Reaches(g, x, legacy)
    ensures Ends(h, x, n)
    decreases n
  {
    assert ReachesIn(g, x, x, 0);
    if Edge(g, x).Some? {
      var next := Edge(g, x).value;
      if k: nat :| ReachesIn(g, next, legacy, k) {
        assert ReachesIn(g, x, legacy, k + 1);
      }
      MissingLegacyEndsAlike(g, h, legacy, canonical, next, n - 1);
    }
  }

  lemma {:induction false} EndsThroughLegacy(g: Graph, h: Graph, legacy: Id, canonical: Id, m: nat, x: Id, n: nat)
    requires Rerouted(g, h, legacy, canonical) && Ends(h, canonical, m) && Ends(g, x, n)
    ensures Ends(h, x, n + m + 1)
    decreases n
  {
    if x == legacy {
      EndsLonger(h, canonical, m, n + m);
    } else if Edge(g, x).Some? {
      EndsThroughLegacy(g, h, legacy, canonical, m, Edge(g, x).value, n - 1);
    }
  }

  lemma EndsLonger(g: Graph, x: Id, n: nat, m: nat)
    requires Ends(g, x, n) && n <= m
    ensures Ends(g, x, m)
  {
    RootIsStable(g, x, n, m);
  }

  lemma {:induction false} ReachesAlike(g: Graph, h: Graph, legacy: Id, canonical: Id, x: Id, k: nat)
    requires Rerouted(g, h, legacy, canonical) && ReachesIn(g, x, legacy, k)
    ensures Reaches(h, x, legacy)
    decreases k
  {
    if x == legacy {
      assert ReachesIn(h, x, legacy, 0);
    } else {
      var next := Edge(g, x).value;
      ReachesAlike(g, h, legacy, canonical, next, k - 1);
      var j: nat :| ReachesIn(h, next, legacy, j);
      assert ReachesIn(h, x, legacy, j + 1);
    }
  }

  lemma {:induction false} EndsAfterSteps(g: Graph, x: Id, y: Id, k: nat, n: nat)
    requires ReachesIn(g, x, y, k) && Ends(g, x, n) && Edge(g, y).Some?
    ensures n >= k && Ends(g, y, n - k)
    decreases k
  {
    if k > 0 {
      EndsAfterSteps(g, Edge(g, x).value, y, k - 1, n - 1);
    }
  }

  lemma {:induction false} LoopNeverEnds(g: Graph, x: Id, k: nat, n: nat)
    requires k >= 1 && ReachesIn(g, x, x, k)
    ensures !Ends(g, x, n)
    decreases n
  {
    if Ends(g, x, n) {
      EndsAfterSteps(g, x, x, k, n);
      LoopNeverEnds(g, x, k, n - k);
    }
  }

  /**
   * `supersede_legacy` checks the two ids and the legacy row, not the chain behind the target. On an
   * acyclic graph it leaves an acyclic graph exactly when no chain of folds leads from the chosen
   * canonical id back to the legacy one.
   */
  lemma StaysAcyclicExactlyWhen(links: Links, alias: map<Id, Id>, legacy: Id, canonical: Id)
    requires Acyclic(GraphOf(links, alias))
    requires Supersede(links, legacy, canonical, true).outcome == Superseded
    ensures Acyclic(GraphOf(Supersede(links, legacy, canonical, true).links, alias))
       <==> !Reaches(GraphOf(links, alias), canonical, legacy)
  {
    var g := GraphOf(links, alias);
    var h := GraphOf(Supersede(links, legacy, canonical, true).links, alias);
    forall x: Id ensures Edge(h, x) == if x == legacy then Some(canonical) else Edge(g, x) {
      SupersedeSetsOneEdge(links, alias, legacy, canonical, x);
    }
    if k: nat :| ReachesIn(g, canonical, legacy, k) {
      ReachesAlike(g, h, legacy, canonical, canonical, k);
      var j: nat :| ReachesIn(h, canonical, legacy, j);
      assert ReachesIn(h, legacy, legacy, j + 1);
      forall n: nat ensures !Ends(h, legacy, n) {
        LoopNeverEnds(h, legacy, j + 1, n);
      }
      assert !Terminates(h, legacy);
    } else {
      assert Terminates(g, canonical);
      var m: nat :| Ends(g, canonical, m);
      MissingLegacyEndsAlike(g, h, legacy, canonical, canonical, m);
      forall x: Id ensures Terminates(h, x) {
        assert Terminates(g, x);
        var n: nat :| Ends(g, x, n);
        EndsThroughLegacy(g, h, legacy, canonical, m, x, n);
      }
    }
  }

  /** Two accepted commands are enough for a cycle, which the fold then reports instead of a canonical id. */
  lemma TwoCommandsCanCycle(a: Id, b: Id, maxHops: int)
    requires a != b && maxHops >= 2
    ensures var first := Supersede(map[], a, b, true);
            var second := Supersede(first.links, b, a, true);
            && first.outcome == Superseded && second.outcome == Superseded
            && FoldPath(GraphOf(second.links, map[]), a, maxHops) == [a, b]
            && StopWarnings(GraphOf(second.links, map[]), [a, b], maxHops) == [Cycle([a, b], a, b)]
  {
    var first := Supersede(map[], a, b, true);
    var second := Supersede(first.links, b, a, true);
    var g := GraphOf(second.links, map[]);
    assert Edge(g, a) == Some(b) && Edge(g, b) == Some(a);
    assert [a] + [b] == [a, b];
    assert Extend(g, [a, b], Hops(maxHops) - 1) == [a, b];
  }
}
