/**
 * Operator watch targets: intake, resolution against the crawl registry, pause and resume.
 *
 * Downstream calls are inputs of each command. A call that raises in the middle of a resolution leaves
 * the target as far as it had been changed, which is what intake then stores.
 */
module Watchlist {
  import opened Options
  import opened Promotion
  import DemandJobs
  import DemandEnqueue

  // The source's NEW, RESOLUTION_PENDING, WATCHING, AMBIGUOUS, REJECTED and PAUSED.
  datatype TargetStatus = QUEUED | PENDING_RESOLUTION | WATCHING | NEEDS_REVIEW | REMOVED | PAUSED

  datatype Key = ByCanonical(id: string) | ByChannel(id: string) | ByName(norm: string)

  datatype Target = Target(id: string, name: string, key: Key, canonical: Option<string>, hint: Option<string>,
                           channel: Option<string>, status: TargetStatus)

  datatype IdentityState = NoIdentity | IdentityResolved | IdentityAmbiguous | IdentityPending

  // What verifying the operator's YouTube hint gives.
  datatype HintAnswer = Channel(id: string) | NoChannel | HintRaised

  datatype World = World(policy: Policy, crawl: Crawl, identity: string -> IdentityState, hint: string -> HintAnswer)

  const OPERATOR := "OPERATOR"

  function DedupKey(w: World, name: string, canonical: Option<string>, channel: Option<string>): Key {
    if Truthy(canonical) then ByCanonical(canonical.value)
    else if Truthy(channel) then ByChannel(channel.value)
    else ByName(w.policy.norm(name))
  }

  function EffectiveStatus(w: World, t: Target): TargetStatus {
    if t.status == PAUSED || t.status == REMOVED then t.status
    else if !Truthy(t.canonical) then
      if t.status == QUEUED || t.status == PENDING_RESOLUTION then t.status else QUEUED
    else if w.identity(t.canonical.value) == IdentityAmbiguous then NEEDS_REVIEW
    else WATCHING
  }

  // ---- The table ----------------------------------------------------------------------------------------

  ghost predicate UniqueKeys(targets: seq<Target>) {
    forall i, j :: 0 <= i < j < |targets| ==> targets[i].key != targets[j].key
  }

  function Find(targets: seq<Target>, key: Key): (i: nat)
    ensures i <= |targets|
    ensures i < |targets| ==> targets[i].key == key
    ensures forall k :: 0 <= k < i ==> targets[k].key != key
    decreases |targets|
  {
    if targets == [] || targets[0].key == key then 0 else 1 + Find(targets[1..], key)
  }

  // ---- create_target -------------------------------------------------------------------------------------

  datatype Intake = Stored(targets: seq<Target>, at: nat, created: bool) | NameRequired

  // Fills in a hint or a canonical choice that was missing; nothing else is touched.
  function Merged(t: Target, canonical: Option<string>, hint: Option<string>): Target {
    t.(hint := if Truthy(hint) && !Truthy(t.hint) then hint else t.hint,
       canonical := if Truthy(canonical) && !Truthy(t.canonical) then canonical else t.canonical)
  }

  // `name` is the stripped display name, `id` the hash a new row would get.
  function CreateTarget(w: World, targets: seq<Target>, id: string, name: string, canonical: Option<string>,
                        hint: Option<string>): (r: Intake)
    ensures r.Stored? ==> r.at < |r.targets|
  {
    if name == "" then NameRequired
    else
      var key := DedupKey(w, name, canonical, None);
      var i := Find(targets, key);
      if i < |targets| then Stored(targets[i := Merged(targets[i], canonical, hint)], i, false)
      else Stored(targets + [Target(id, name, key, canonical, hint, None, QUEUED)], |targets|, true)
  }

  // ---- resolve_target -------------------------------------------------------------------------------------

  function FindCandidate(cs: seq<Candidate>, source: string, sourceId: string): (i: nat)
    ensures i <= |cs|
    decreases |cs|
  {
    if cs == [] || (cs[0].source == source && cs[0].sourceId == sourceId) then 0
    else 1 + FindCandidate(cs[1..], source, sourceId)
  }

  datatype Upserted = Upserted(candidates: seq<Candidate>, at: nat)

  // The operator's instruction as one discovery source. An existing row is only refreshed.
  function UpsertOperator(w: World, cs: seq<Candidate>, t: Target): (u: Upserted)
    ensures u.at < |u.candidates|
  {
    var norm := w.policy.norm(t.name);
    var sourceId := if norm != "" then norm else t.id;
    var i := FindCandidate(cs, OPERATOR, sourceId);
    if i < |cs| then Upserted(cs, i)
    else Upserted(cs + [Candidate(t.name, OPERATOR, sourceId, NEW, None, false)], |cs|)
  }

  datatype Proposal = Backed(id: string) | Unbacked | ProposalRaised

  // Path A: the id the operator chose, if the registry acknowledges it. Path B: what promotion gives.
  function PathB(w: World, cs: seq<Candidate>, t: Target): (Proposal, seq<Candidate>) {
    var u := UpsertOperator(w, cs, t);
    var p := Promote(w.policy, u.candidates, u.candidates[u.at], w.crawl);
    var candidates := u.candidates[u.at := p.candidate];
    match p.outcome
    case Promoted(_, id) => (if id != "" then Backed(id) else Unbacked, candidates)
    case Raised => (ProposalRaised, candidates)
    case _ => (Unbacked, candidates)
  }

  function PathA(w: World, id: string): Proposal {
    match w.crawl.registered(id)
    case Acknowledged => Backed(id)
    case Unknown => Unbacked
    case RegistryOutage => ProposalRaised
  }

  datatype ResolveOutcome = Skipped | Completed | ResolveRaised

  datatype Resolution = Resolution(target: Target, candidates: seq<Candidate>, outcome: ResolveOutcome)

  // The target after the hint, its status and its own columns; the dedup key is settled by the table.
  function ResolveTarget(w: World, cs: seq<Candidate>, t: Target): Resolution {
    if t.status == PAUSED || t.status == REMOVED then Resolution(t, cs, Skipped)
    else
      var (proposal, candidates) := if Truthy(t.canonical) then (PathA(w, t.canonical.value), cs) else PathB(w, cs, t);
      match proposal
      case ProposalRaised => Resolution(if Truthy(t.canonical) then t.(canonical := None) else t, candidates, ResolveRaised)
      case Unbacked => Resolution(t.(canonical := None, status := PENDING_RESOLUTION), candidates, Completed)
      case Backed(id) =>
        var backed := t.(canonical := Some(id));
        if Truthy(t.hint) then
          match w.hint(t.hint.value)
          case HintRaised => Resolution(backed, candidates, ResolveRaised)
          case NoChannel => Resolution(backed.(status := EffectiveStatus(w, backed)), candidates, Completed)
          case Channel(channel) =>
            var found := if channel != "" then backed.(channel := Some(channel)) else backed;
            Resolution(found.(status := EffectiveStatus(w, found)), candidates, Completed)
        else Resolution(backed.(status := EffectiveStatus(w, backed)), candidates, Completed)
  }

  // A completed resolution moves the dedup key along, unless another target holds the new one.
  function Rekeyed(w: World, targets: seq<Target>, i: nat): seq<Target>
    requires i < |targets|
  {
    var t := targets[i];
    var key := DedupKey(w, t.name, t.canonical, t.channel);
    var holder := Find(targets, key);
    if key != t.key && !(holder < |targets| && holder != i) then targets[i := t.(key := key)] else targets
  }

  datatype Resolved = Resolved(targets: seq<Target>, candidates: seq<Candidate>, outcome: ResolveOutcome)

  function Resolve(w: World, targets: seq<Target>, cs: seq<Candidate>, i: nat): Resolved
    requires i < |targets|
  {
    var r := ResolveTarget(w, cs, targets[i]);
    var stored := targets[i := r.target];
    Resolved(if r.outcome.Completed? then Rekeyed(w, stored, i) else stored, r.candidates, r.outcome)
  }

  // ---- What a resolution establishes -----------------------------------------------------------------------

  // The registry acknowledged this id when asked in this world.
  ghost predicate Acknowledges(w: World, canonical: Option<string>) {
    Truthy(canonical) && w.crawl.registered(canonical.value) == Acknowledged
  }

  lemma RekeyKeeps(w: World, targets: seq<Target>, i: nat)
    requires i < |targets|
    ensures var after := Rekeyed(w, targets, i);
            && |after| == |targets| && after[i] == targets[i].(key := after[i].key)
            && forall j :: 0 <= j < |targets| && j != i ==> after[j] == targets[j]
  {
  }

  lemma ProposalsAreAcknowledged(w: World, cs: seq<Candidate>, t: Target)
    ensures Truthy(t.canonical) && PathA(w, t.canonical.value).Backed? ==> Acknowledges(w, Some(PathA(w, t.canonical.value).id))
    ensures PathB(w, cs, t).0.Backed? ==> Acknowledges(w, Some(PathB(w, cs, t).0.id))
  {
    var u := UpsertOperator(w, cs, t);
    PromotedExactlyWhenAcknowledged(w.policy, u.candidates, u.candidates[u.at], w.crawl);
  }

  // A completed target is watched or in review exactly on an acknowledged id, by its identity state.
  ghost predicate IsBacked(w: World, t: Target) {
    && ((t.status == WATCHING || t.status == NEEDS_REVIEW) <==> Acknowledges(w, t.canonical))
    && (t.status == NEEDS_REVIEW ==> w.identity(t.canonical.value) == IdentityAmbiguous)
    && (t.status == WATCHING ==> w.identity(t.canonical.value) != IdentityAmbiguous)
    && (!Acknowledges(w, t.canonical) ==> t.status == PENDING_RESOLUTION && t.canonical == None)
  }

  lemma ResolvedTargetIsBacked(w: World, cs: seq<Candidate>, t: Target)
    ensures ResolveTarget(w, cs, t).outcome.Completed? ==> IsBacked(w, ResolveTarget(w, cs, t).target)
  {
    ProposalsAreAcknowledged(w, cs, t);
  }

  /**
   * Every completed, non-skipped resolution ends watching or in review exactly when the target holds a
   * canonical id the registry acknowledged in this call, and otherwise pending with none. Paused and
   * removed targets, and every other target, are as they were.
   */
  lemma CompletedTargetsAreBacked(w: World, targets: seq<Target>, cs: seq<Candidate>, i: nat)
    requires i < |targets|
    ensures var r := Resolve(w, targets, cs, i);
            && |r.targets| == |targets|
            && (r.outcome.Completed? ==> IsBacked(w, r.targets[i]))
            && (r.outcome.Skipped? <==> targets[i].status == PAUSED || targets[i].status == REMOVED)
            && (r.outcome.Skipped? ==> r.targets == targets && r.candidates == cs)
            && forall j :: 0 <= j < |targets| && j != i ==> r.targets[j] == targets[j]
  {
    var res := ResolveTarget(w, cs, targets[i]);
    ResolvedTargetIsBacked(w, cs, targets[i]);
    if res.outcome.Completed? {
      RekeyKeeps(w, targets[i := res.target], i);
    }
  }

  // ---- Dedup keys stay unique ---------------------------------------------------------------------------------

  lemma CreateKeepsKeys(w: World, targets: seq<Target>, id: string, name: string, canonical: Option<string>, hint: Option<string>)
    requires UniqueKeys(targets)
    ensures var r := CreateTarget(w, targets, id, name, canonical, hint); r.Stored? ==> UniqueKeys(r.targets)
  {
  }

  lemma ResolveKeepsKeys(w: World, targets: seq<Target>, cs: seq<Candidate>, i: nat)
    requires UniqueKeys(targets) && i < |targets|
    ensures UniqueKeys(Resolve(w, targets, cs, i).targets)
  {
  }

  // ---- Intake runs: create, resolve, pause, resume, reject -------------------------------------------------------

  datatype Command = Add(id: string, name: string, canonical: Option<string>, hint: Option<string>)
                   | Reresolve(target: nat)
                   | Pause(target: nat)
                   | Resume(target: nat)
                   | Remove(target: nat)

  datatype State = State(targets: seq<Target>, candidates: seq<Candidate>)

  // A raise outside intake rolls its transaction back.
  function ResolveOrRollBack(w: World, s: State, from: seq<Target>, i: nat): State
    requires i < |from| && |from| == |s.targets|
  {
    var r := Resolve(w, from, s.candidates, i);
    if r.outcome.ResolveRaised? then s else State(r.targets, r.candidates)
  }

  function Apply(w: World, s: State, cmd: Command): State {
    match cmd
    case Add(id, name, canonical, hint) =>
      (match CreateTarget(w, s.targets, id, name, canonical, hint)
       case NameRequired => s
       case Stored(targets, at, _) =>
         var r := Resolve(w, targets, s.candidates, at);
         State(r.targets, r.candidates))
    case Reresolve(i) =>
      if i < |s.targets| && (s.targets[i].status == QUEUED || s.targets[i].status == PENDING_RESOLUTION)
      then ResolveOrRollBack(w, s, s.targets, i) else s
    case Pause(i) => if i < |s.targets| then s.(targets := s.targets[i := s.targets[i].(status := PAUSED)]) else s
    case Remove(i) => if i < |s.targets| then s.(targets := s.targets[i := s.targets[i].(status := REMOVED)]) else s
    case Resume(i) =>
      if i < |s.targets| then
        var queued := s.targets[i := s.targets[i].(status := QUEUED)];
        if Truthy(s.targets[i].canonical) then s.(targets := queued[i := queued[i].(status := EffectiveStatus(w, queued[i]))])
        else ResolveOrRollBack(w, s, queued, i)
      else s
  }

  // Each command meets the world as it then is.
  function After(s: State, run: seq<(World, Command)>): State
    decreases |run|
  {
    if run == [] then s
    else
      var (w, cmd) := run[|run| - 1];
      Apply(w, After(s, run[..|run| - 1]), cmd)
  }

  lemma CommandKeepsKeys(w: World, s: State, cmd: Command)
    requires UniqueKeys(s.targets)
    ensures UniqueKeys(Apply(w, s, cmd).targets)
  {
    match cmd
    case Add(id, name, canonical, hint) =>
      CreateKeepsKeys(w, s.targets, id, name, canonical, hint);
      var r := CreateTarget(w, s.targets, id, name, canonical, hint);
      if r.Stored? {
        ResolveKeepsKeys(w, r.targets, s.candidates, r.at);
      }
    case Reresolve(i) =>
      if i < |s.targets| {
        ResolveKeepsKeys(w, s.targets, s.candidates, i);
      }
    case Resume(i) =>
      if i < |s.targets| {
        ResolveKeepsKeys(w, s.targets[i := s.targets[i].(status := QUEUED)], s.candidates, i);
      }
    case _ =>
  }

  /** Over every run of operator commands, whatever the services answer, no two targets share a dedup key. */
  lemma {:induction false} KeysStayUnique(s: State, run: seq<(World, Command)>)
    requires UniqueKeys(s.targets)
    ensures UniqueKeys(After(s, run).targets)
    decreases |run|
  {
    if run != [] {
      KeysStayUnique(s, run[..|run| - 1]);
      CommandKeepsKeys(run[|run| - 1].0, After(s, run[..|run| - 1]), run[|run| - 1].1);
    }
  }

  // ---- Where the invariant breaks -----------------------------------------------------------------------------------

  // A target that claims to be watched holds a canonical id.
  predicate ClaimHolds(t: Target) {
    t.status == WATCHING || t.status == NEEDS_REVIEW ==> Truthy(t.canonical)
  }

  ghost predicate AllClaimsHold(targets: seq<Target>) {
    forall i :: 0 <= i < |targets| ==> ClaimHolds(targets[i])
  }

  // A watched target is added again by its canonical id while the registry is down.
  predicate CaughtByOutage(w: World, targets: seq<Target>, name: string, canonical: Option<string>) {
    name != "" &&
    var i := Find(targets, DedupKey(w, name, canonical, None));
    && i < |targets|
    && (targets[i].status == WATCHING || targets[i].status == NEEDS_REVIEW)
    && Truthy(targets[i].canonical) && w.crawl.registered(targets[i].canonical.value) == RegistryOutage
  }

  /**
   * Intake stores what a failed resolution left behind. A target that is already watched then loses its
   * canonical id and keeps its status; that is exactly when adding breaks the claim.
   */
  lemma AddBreaksClaimsExactlyInOutage(w: World, s: State, id: string, name: string, canonical: Option<string>,
                                       hint: Option<string>)
    requires AllClaimsHold(s.targets)
    ensures AllClaimsHold(Apply(w, s, Add(id, name, canonical, hint)).targets) <==> !CaughtByOutage(w, s.targets, name, canonical)
  {
    var created := CreateTarget(w, s.targets, id, name, canonical, hint);
    if created.Stored? {
      var targets := created.targets;
      var at := created.at;
      var t := targets[at];
      CompletedTargetsAreBacked(w, targets, s.candidates, at);
      ResolutionClaims(w, s.candidates, t);
      var r := Resolve(w, targets, s.candidates, at);
      var after := r.targets;
      ResolvedRow(w, targets, s.candidates, at);
      forall j | 0 <= j < |after| && j != at ensures ClaimHolds(after[j]) {
        assert after[j] == targets[j] == s.targets[j];
      }
      assert AllClaimsHold(after) <==> ClaimHolds(after[at]);
      if !created.created {
        assert ClaimHolds(s.targets[at]);
      }
    }
  }

  lemma ResolvedRow(w: World, targets: seq<Target>, cs: seq<Candidate>, i: nat)
    requires i < |targets|
    ensures ClaimHolds(Resolve(w, targets, cs, i).targets[i]) <==> ClaimHolds(ResolveTarget(w, cs, targets[i]).target)
  {
  }

  lemma ResolutionClaims(w: World, cs: seq<Candidate>, t: Target)
    requires ClaimHolds(t)
    ensures ClaimHolds(ResolveTarget(w, cs, t).target) <==>
              !((t.status == WATCHING || t.status == NEEDS_REVIEW) && w.crawl.registered(t.canonical.value) == RegistryOutage)
  {
  }

  // The commands that break the claim: an intake caught by an outage.
  predicate IsCaught(w: World, s: State, cmd: Command) {
    cmd.Add? && CaughtByOutage(w, s.targets, cmd.name, cmd.canonical)
  }

  lemma ReresolveKeepsClaims(w: World, s: State, targets: seq<Target>, i: nat)
    requires AllClaimsHold(s.targets) && AllClaimsHold(targets) && |targets| == |s.targets| && i < |targets|
    requires targets[i].status == QUEUED || targets[i].status == PENDING_RESOLUTION
    ensures AllClaimsHold(ResolveOrRollBack(w, s, targets, i).targets)
  {
    CompletedTargetsAreBacked(w, targets, s.candidates, i);
    ResolutionClaims(w, s.candidates, targets[i]);
    ResolvedRow(w, targets, s.candidates, i);
    var after := Resolve(w, targets, s.candidates, i).targets;
    forall j | 0 <= j < |after| ensures ClaimHolds(after[j]) {
      if j != i {
        assert after[j] == targets[j];
      }
    }
  }

  lemma CommandKeepsClaimsExactlyWhen(w: World, s: State, cmd: Command)
    requires AllClaimsHold(s.targets)
    ensures AllClaimsHold(Apply(w, s, cmd).targets) <==> !IsCaught(w, s, cmd)
  {
    match cmd
    case Add(id, name, canonical, hint) => AddBreaksClaimsExactlyInOutage(w, s, id, name, canonical, hint);
    case Reresolve(i) =>
      if i < |s.targets| && (s.targets[i].status == QUEUED || s.targets[i].status == PENDING_RESOLUTION) {
        ReresolveKeepsClaims(w, s, s.targets, i);
      }
    case Resume(i) =>
      if i < |s.targets| && !Truthy(s.targets[i].canonical) {
        ReresolveKeepsClaims(w, s, s.targets[i := s.targets[i].(status := QUEUED)], i);
      }
    case _ =>
  }

  ghost predicate AlwaysClaims(s: State, run: seq<(World, Command)>)
    decreases |run|
  {
    AllClaimsHold(After(s, run).targets) && (run == [] || AlwaysClaims(s, run[..|run| - 1]))
  }

  ghost predicate NeverCaught(s: State, run: seq<(World, Command)>)
    decreases |run|
  {
    run == [] ||
    (var front, last := run[..|run| - 1], run[|run| - 1];
     NeverCaught(s, front) && !IsCaught(last.0, After(s, front), last.1))
  }

  /**
   * Over every run from the empty table, whatever the services answer: every target that claims to be
   * watched holds a canonical id throughout if and only if no intake is caught by an outage.
   */
  lemma {:induction false} ClaimsHoldExactlyWhenNeverCaught(run: seq<(World, Command)>)
    ensures AlwaysClaims(State([], []), run) <==> NeverCaught(State([], []), run)
    decreases |run|
  {
    var empty := State([], []);
    if run != [] {
      var front, last := run[..|run| - 1], run[|run| - 1];
      ClaimsHoldExactlyWhenNeverCaught(front);
      if AlwaysClaims(empty, front) {
        CommandKeepsClaimsExactlyWhen(last.0, After(empty, front), last.1);
      }
    }
  }

  /** It does happen: an artist is added by a registered id, and added again while the registry is down. */
  lemma AddingTwiceIsCaught(up: World, down: World, id: string, name: string, canonical: string)
    requires name != "" && canonical != "" && up.crawl.registered(canonical) == Acknowledged
    requires down.crawl.registered(canonical) == RegistryOutage
    ensures var add := Add(id, name, Some(canonical), None);
            var after := After(State([], []), [(up, add), (down, add)]);
            |after.targets| == 1 && !ClaimHolds(after.targets[0])
  {
    var empty := State([], []);
    var add := Add(id, name, Some(canonical), None);
    var run := [(up, add), (down, add)];
    assert run[..1] == [(up, add)] && run[..1][..0] == [];
    var once := Apply(up, empty, add);
    assert After(empty, run[..1]) == once;
    assert once.targets[0].canonical == Some(canonical) && once.targets[0].key == ByCanonical(canonical);
    assert Find(once.targets, ByCanonical(canonical)) == 0;
  }

  // ---- Pausing suspends collection -------------------------------------------------------------------------------

  predicate IsActive(t: Target) {
    t.status == QUEUED || t.status == PENDING_RESOLUTION || t.status == WATCHING || t.status == NEEDS_REVIEW
  }

  function PausedArtists(targets: seq<Target>): set<string> {
    var paused := set i | 0 <= i < |targets| && targets[i].status == PAUSED && targets[i].canonical.Some?
      :: targets[i].canonical.value;
    var active := set i | 0 <= i < |targets| && IsActive(targets[i]) && targets[i].canonical.Some?
      :: targets[i].canonical.value;
    paused - active
  }

  /** An artist gets no recurring jobs exactly from a paused target with no active target beside it. */
  lemma PausedArtistGetsNoJobs(targets: seq<Target>, artist: string, cfg: DemandJobs.Settings, jobs: seq<DemandJobs.Job>,
                               ids: seq<DemandEnqueue.Resolved>, now: int)
    ensures artist in PausedArtists(targets) <==>
              && (exists i :: 0 <= i < |targets| && targets[i].status == PAUSED && targets[i].canonical == Some(artist))
              && (forall i :: 0 <= i < |targets| && IsActive(targets[i]) ==> targets[i].canonical != Some(artist))
    ensures artist in PausedArtists(targets) ==>
              forall j :: j in DemandEnqueue.Added(cfg, jobs, ids, PausedArtists(targets), now) ==> j.artist != artist
  {
    if artist in PausedArtists(targets) {
      DemandEnqueue.PausedGetNothing(cfg, jobs, ids, PausedArtists(targets), now, artist);
    }
  }

  // ---- The service -----------------------------------------------------------------------------------------------

  /** The commands as the code runs them, on rows updated in place. */
  class WatchlistService {
    var targets: seq<Target>
    var candidates: seq<Candidate>

    constructor ()
      ensures targets == [] && candidates == []
    {
      targets, candidates := [], [];
    }

    method Create(w: World, id: string, name: string, canonical: Option<string>, hint: Option<string>) returns (done: Intake)
      modifies this`targets
      ensures done == CreateTarget(w, old(targets), id, name, canonical, hint)
      ensures targets == if done.Stored? then done.targets else old(targets)
    {
      if name == "" {
        return NameRequired;
      }
      var key := DedupKey(w, name, canonical, None);
      var i := Find(targets, key);
      if i < |targets| {
        var t := targets[i];
        if Truthy(hint) && !Truthy(t.hint) {
          t := t.(hint := hint);
        }
        if Truthy(canonical) && !Truthy(t.canonical) {
          t := t.(canonical := canonical);
        }
        targets := targets[i := t];
        return Stored(targets, i, false);
      }
      targets := targets + [Target(id, name, key, canonical, hint, None, QUEUED)];
      done := Stored(targets, |targets| - 1, true);
    }

    // Path B of the resolution: the operator's candidate, promoted if the evidence allows.
    method PromoteOperator(w: World, t: Target) returns (proposal: Proposal)
      modifies this`candidates
      ensures (proposal, candidates) == PathB(w, old(candidates), t)
    {
      var u := UpsertOperator(w, candidates, t);
      candidates := u.candidates;
      var p := Promote(w.policy, candidates, candidates[u.at], w.crawl);
      candidates := candidates[u.at := p.candidate];
      match p.outcome
      case Promoted(_, id) => proposal := if id != "" then Backed(id) else Unbacked;
      case Raised => proposal := ProposalRaised;
      case _ => proposal := Unbacked;
    }

    method ResolveAt(w: World, i: nat) returns (outcome: ResolveOutcome)
      requires i < |targets|
      modifies this
      ensures Resolved(targets, candidates, outcome) == Resolve(w, old(targets), old(candidates), i)
    {
      var start := targets[i];
      if start.status == PAUSED || start.status == REMOVED {
        assert targets[i := start] == targets;
        return Skipped;
      }
      var proposal: Proposal;
      if Truthy(start.canonical) {
        targets := targets[i := targets[i].(canonical := None)];
        proposal := PathA(w, start.canonical.value);
      } else {
        proposal := PromoteOperator(w, start);
      }
      if proposal.ProposalRaised? {
        assert old(targets)[i := start] == old(targets);
        return ResolveRaised;
      }
      if proposal.Unbacked? {
        targets := targets[i := targets[i].(canonical := None, status := PENDING_RESOLUTION)];
      } else {
        targets := targets[i := targets[i].(canonical := Some(proposal.id))];
        if Truthy(start.hint) {
          var found := w.hint(start.hint.value);
          if found.HintRaised? {
            return ResolveRaised;
          }
          if found.Channel? && found.id != "" {
            targets := targets[i := targets[i].(channel := Some(found.id))];
          }
        }
        targets := targets[i := targets[i].(status := EffectiveStatus(w, targets[i]))];
      }
      assert targets == old(targets)[i := ResolveTarget(w, old(candidates), start).target];
      var key := DedupKey(w, targets[i].name, targets[i].canonical, targets[i].channel);
      var holder := Find(targets, key);
      if key != targets[i].key && !(holder < |targets| && holder != i) {
        targets := targets[i := targets[i].(key := key)];
      }
      outcome := Completed;
    }

    /** `add_and_resolve`: a resolution that raises does not undo the intake. */
    method AddAndResolve(w: World, id: string, name: string, canonical: Option<string>, hint: Option<string>)
      modifies this
      ensures State(targets, candidates) == Apply(w, State(old(targets), old(candidates)), Add(id, name, canonical, hint))
    {
      var done := Create(w, id, name, canonical, hint);
      if done.Stored? {
        var outcome := ResolveAt(w, done.at);
      }
    }

    method PauseAt(i: nat)
      requires i < |targets|
      modifies this`targets
      ensures forall w :: State(targets, candidates) == Apply(w, State(old(targets), candidates), Pause(i))
    {
      targets := targets[i := targets[i].(status := PAUSED)];
    }

    method RemoveAt(i: nat)
      requires i < |targets|
      modifies this`targets
      ensures forall w :: State(targets, candidates) == Apply(w, State(old(targets), candidates), Remove(i))
    {
      targets := targets[i := targets[i].(status := REMOVED)];
    }

    /** `resume_target`: a resolution that raises here is rolled back by the caller. */
    method ResumeAt(w: World, i: nat) returns (outcome: ResolveOutcome)
      requires i < |targets|
      modifies this
      ensures !outcome.ResolveRaised? ==>
                State(targets, candidates) == Apply(w, State(old(targets), old(candidates)), Resume(i))
      ensures outcome.ResolveRaised? ==>
                && !Truthy(old(targets)[i].canonical)
                && Resolved(targets, candidates, outcome)
                   == Resolve(w, old(targets)[i := old(targets)[i].(status := QUEUED)], old(candidates), i)
    {
      targets := targets[i := targets[i].(status := QUEUED)];
      if Truthy(targets[i].canonical) {
        targets := targets[i := targets[i].(status := EffectiveStatus(w, targets[i]))];
        return Completed;
      }
      outcome := ResolveAt(w, i);
    }
  }
}
