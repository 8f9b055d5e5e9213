/**
 * Candidate to canonical promotion. The crawl service is an oracle, fixed for one pass: it looks up
 * names, creates artists and says whether its registry acknowledges a canonical id; it may be down.
 */
module Promotion {
  import opened Options

  datatype Status = NEW | RESOLUTION_PENDING | AMBIGUOUS | RESOLVED | REJECTED

  datatype Candidate = Candidate(name: string, source: string, sourceId: string, status: Status,
                                 canonical: Option<string>, musicSignal: bool)

  datatype Lookup = Match(id: string) | NoMatch | LookupOutage
  datatype Creation = Created(id: string) | CreateOutage
  datatype Answer = Acknowledged | Unknown | RegistryOutage

  datatype Crawl = Crawl(find: string -> Lookup, create: Candidate -> Creation, registered: string -> Answer)

  // Name normalization and the promotion threshold.
  datatype Policy = Policy(norm: string -> string, minSources: int)

  const EVENT_SOURCE := "EVENT"

  datatype Method = ALREADY_LINKED | MATCH_EXISTING_CANONICAL | MULTI_SOURCE_CONFIRMED | INDIA_LIVE_PLUS_MUSIC

  datatype Decision = Link(how: Method, id: string) | Create(how: Method) | Insufficient | Down

  predicate Truthy(s: Option<string>) {
    s.Some? && s.value != ""
  }

  function SourcesFor(policy: Policy, all: seq<Candidate>, name: string): set<string> {
    set i | 0 <= i < |all| && policy.norm(all[i].name) == policy.norm(name) :: all[i].source
  }

  function Evaluate(policy: Policy, all: seq<Candidate>, c: Candidate, crawl: Crawl): Decision {
    if Truthy(c.canonical) then Link(ALREADY_LINKED, c.canonical.value)
    else match crawl.find(c.name)
      case LookupOutage => Down
      case Match(id) => Link(MATCH_EXISTING_CANONICAL, id)
      case NoMatch =>
        var sources := SourcesFor(policy, all, c.name);
        if |sources| >= policy.minSources then Create(MULTI_SOURCE_CONFIRMED)
        else if EVENT_SOURCE in sources && c.musicSignal then Create(INDIA_LIVE_PLUS_MUSIC)
        else Insufficient
  }

  datatype Outcome = Promoted(how: Method, id: string) | NotEligible | Unverified(proposed: string) | Raised

  datatype Promotion = Promotion(candidate: Candidate, outcome: Outcome)

  function Attempted(c: Candidate): Candidate {
    if c.status == NEW then c.(status := RESOLUTION_PENDING) else c
  }

  // The id a decision leads to: the linked one, or the one the crawl owner creates.
  function Proposed(decision: Decision, c: Candidate, crawl: Crawl): Option<string> {
    match decision
    case Link(_, id) => Some(id)
    case Create(_) => (match crawl.create(c) case Created(id) => Some(id) case CreateOutage => None)
    case _ => None
  }

  function Promote(policy: Policy, all: seq<Candidate>, c: Candidate, crawl: Crawl): Promotion {
    var decision := Evaluate(policy, all, c, crawl);
    if decision.Down? then Promotion(c, Raised)
    else if decision.Insufficient? then Promotion(Attempted(c), NotEligible)
    else
      var proposed := Proposed(decision, c, crawl);
      if proposed.None? then Promotion(c, Raised)
      else match crawl.registered(proposed.value)
        case RegistryOutage => Promotion(c, Raised)
        case Unknown => Promotion(Attempted(c), Unverified(proposed.value))
        case Acknowledged =>
          Promotion(c.(canonical := proposed, status := RESOLVED), Promoted(decision.how, proposed.value))
  }

  /**
   * A candidate is promoted exactly when some id is proposed for it on the evidence and the registry
   * acknowledges that id in this call; only then is its canonical id written.
   */
  lemma PromotedExactlyWhenAcknowledged(policy: Policy, all: seq<Candidate>, c: Candidate, crawl: Crawl)
    ensures var p := Promote(policy, all, c, crawl);
            var proposed := Proposed(Evaluate(policy, all, c, crawl), c, crawl);
            && (p.outcome.Promoted? <==> proposed.Some? && crawl.registered(proposed.value) == Acknowledged)
            && (p.outcome.Promoted? ==> p.candidate.canonical == proposed == Some(p.outcome.id))
            && (!p.outcome.Promoted? ==> p.candidate.canonical == c.canonical)
  {
  }

  /** One discovery source alone canonicalises nothing: with no link and no name match it takes N sources. */
  lemma WeakEvidenceIsNotEnough(policy: Policy, all: seq<Candidate>, c: Candidate, crawl: Crawl)
    requires !Truthy(c.canonical) && crawl.find(c.name) == NoMatch
    requires policy.minSources >= 2 && c.source != EVENT_SOURCE
    requires forall i :: 0 <= i < |all| && policy.norm(all[i].name) == policy.norm(c.name) ==> all[i].source == c.source
    ensures Promote(policy, all, c, crawl) == Promotion(Attempted(c), NotEligible)
  {
    var sources := SourcesFor(policy, all, c.name);
    assert sources <= {c.source};
    SubsetIsSmaller(sources, {c.source});
  }

  lemma {:induction false} SubsetIsSmaller(a: set<string>, b: set<string>)
    requires a <= b
    ensures |a| <= |b|
    decreases |a|
  {
    if a != {} {
      var x :| x in a;
      SubsetIsSmaller(a - {x}, b - {x});
    }
  }

  // A pass that reached the end: every row promoted in turn, seeing the rows before it as they became.
  datatype Pass = Pass(candidates: seq<Candidate>, promoted: nat, raised: bool)

  function PassOver(policy: Policy, all: seq<Candidate>, rows: seq<nat>, crawl: Crawl): (p: Pass)
    requires forall k :: 0 <= k < |rows| ==> rows[k] < |all|
    ensures |p.candidates| == |all|
    decreases |rows|
  {
    if rows == [] then Pass(all, 0, false)
    else
      var last := |rows| - 1;
      var before := PassOver(policy, all, rows[..last], crawl);
      if before.raised then before
      else
        var p := Promote(policy, before.candidates, before.candidates[rows[last]], crawl);
        if p.outcome.Raised? then before.(raised := true)
        else Pass(before.candidates[rows[last] := p.candidate],
                  before.promoted + (if p.outcome.Promoted? then 1 else 0), false)
  }

  lemma {:induction false} RaisedStays(policy: Policy, all: seq<Candidate>, rows: seq<nat>, k: nat, crawl: Crawl)
    requires forall k :: 0 <= k < |rows| ==> rows[k] < |all|
    requires k <= |rows| && PassOver(policy, all, rows[..k], crawl).raised
    ensures PassOver(policy, all, rows, crawl) == PassOver(policy, all, rows[..k], crawl)
    decreases |rows|
  {
    if k < |rows| {
      var last := |rows| - 1;
      assert rows[..last][..k] == rows[..k];
      RaisedStays(policy, all, rows[..last], k, crawl);
    } else {
      assert rows[..k] == rows;
    }
  }

  /**
   * A whole pass introduces no canonical id the registry did not acknowledge, changes only the rows it
   * was given, and never takes a canonical id away.
   */
  lemma {:induction false} PassIsRegistryBacked(policy: Policy, all: seq<Candidate>, rows: seq<nat>, crawl: Crawl, i: nat)
    requires forall k :: 0 <= k < |rows| ==> rows[k] < |all|
    requires i < |all|
    ensures var after := PassOver(policy, all, rows, crawl).candidates[i];
            && (after.canonical != all[i].canonical ==>
                  after.canonical.Some? && crawl.registered(after.canonical.value) == Acknowledged)
            && (Truthy(all[i].canonical) ==> after.canonical == all[i].canonical)
            && (i !in rows ==> after == all[i])
    decreases |rows|
  {
    if rows != [] {
      var last := |rows| - 1;
      PassIsRegistryBacked(policy, all, rows[..last], crawl, i);
      assert i in rows[..last] ==> i in rows;
    }
  }

  /** `process_backlog`: the evaluation of the selected rows, with its counters. */
  method ProcessBacklog(policy: Policy, all: seq<Candidate>, rows: seq<nat>, crawl: Crawl)
    returns (candidates: seq<Candidate>, evaluated: nat, promoted: nat, raised: bool)
    requires forall k :: 0 <= k < |rows| ==> rows[k] < |all|
    ensures Pass(candidates, promoted, raised) == PassOver(policy, all, rows, crawl)
    ensures promoted <= evaluated <= |rows| && (!raised ==> evaluated == |rows|)
  {
    candidates, evaluated, promoted, raised := all, 0, 0, false;
    for k := 0 to |rows|
      invariant evaluated == k && promoted <= k
      invariant Pass(candidates, promoted, false) == PassOver(policy, all, rows[..k], crawl)
    {
      assert rows[..k + 1][..k] == rows[..k];
      evaluated := evaluated + 1;
      var p := Promote(policy, candidates, candidates[rows[k]], crawl);
      if p.outcome.Raised? {
        raised := true;
        RaisedStays(policy, all, rows, k + 1, crawl);
        return;
      }
      candidates := candidates[rows[k] := p.candidate];
      if p.outcome.Promoted? {
        promoted := promoted + 1;
      }
    }
    assert rows[..|rows|] == rows;
  }
}
