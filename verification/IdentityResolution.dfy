/**
 * `resolve_youtube`: search, authoritative verification of the best candidates, decision,
 * and the identity rows it leaves behind, with the quota it spends on the way.
 *
 * The provider is an oracle: the search result and each verification answer are inputs.
 */
module IdentityResolution {
  import opened Options
  import opened Quota
  import opened QuotaGates

  datatype Candidate = Candidate(id: string, score: real)
  datatype Answer = Found(score: real) | Missing | Unavailable

  const RESOLVE_THRESHOLD := 0.70
  const RESOLVE_MARGIN := 0.20
  const AMBIGUOUS_FLOOR := 0.40

  // ---- The decision -------------------------------------------------------------------------------

  datatype Decision = Resolved(chosen: Candidate) | Ambiguous | Unresolved

  function Decide(ranked: seq<Candidate>): Decision {
    if ranked == [] then Unresolved
    else if ranked[0].score < AMBIGUOUS_FLOOR then Unresolved
    else
      var runner := if |ranked| > 1 then ranked[1].score else 0.0;
      if ranked[0].score >= RESOLVE_THRESHOLD && ranked[0].score - runner >= RESOLVE_MARGIN
      then Resolved(ranked[0]) else Ambiguous
  }

  // A stable sort by falling score.
  function Insert(c: Candidate, ranked: seq<Candidate>): seq<Candidate>
    decreases |ranked|
  {
    if ranked == [] || ranked[0].score <= c.score then [c] + ranked
    else [ranked[0]] + Insert(c, ranked[1..])
  }

  function Ranked(cs: seq<Candidate>): seq<Candidate>
    decreases |cs|
  {
    if cs == [] then [] else Insert(cs[0], Ranked(cs[1..]))
  }

  ghost predicate Falling(cs: seq<Candidate>) {
    forall i, j :: 0 <= i < j < |cs| ==> cs[i].score >= cs[j].score
  }

  lemma {:induction false} InsertAdds(c: Candidate, ranked: seq<Candidate>)
    ensures multiset(Insert(c, ranked)) == multiset(ranked) + multiset{c}
    decreases |ranked|
  {
    if ranked != [] && ranked[0].score > c.score {
      InsertAdds(c, ranked[1..]);
      assert ranked == [ranked[0]] + ranked[1..];
    }
  }

  lemma {:induction false} InsertRanks(c: Candidate, ranked: seq<Candidate>)
    requires Falling(ranked)
    ensures Falling(Insert(c, ranked))
    decreases |ranked|
  {
    if ranked != [] && ranked[0].score > c.score {
      var rest := Insert(c, ranked[1..]);
      InsertRanks(c, ranked[1..]);
      InsertAdds(c, ranked[1..]);
      forall i | 0 <= i < |rest| ensures rest[i].score <= ranked[0].score {
        assert rest[i] in multiset(rest);
        assert rest[i] == c || rest[i] in ranked[1..];
      }
    }
  }

  lemma {:induction false} RankedIsSorted(cs: seq<Candidate>)
    ensures Falling(Ranked(cs)) && multiset(Ranked(cs)) == multiset(cs)
    ensures |Ranked(cs)| == |cs|
    decreases |cs|
  {
    if cs != [] {
      RankedIsSorted(cs[1..]);
      InsertAdds(cs[0], Ranked(cs[1..]));
      InsertRanks(cs[0], Ranked(cs[1..]));
      assert cs == [cs[0]] + cs[1..];
    }
    assert |multiset(Ranked(cs))| == |multiset(cs)|;
  }

  // The candidate at `i` clears the threshold and beats every other one by the margin.
  ghost predicate ClearLeader(cs: seq<Candidate>, i: nat)
    requires i < |cs|
  {
    && cs[i].score >= RESOLVE_THRESHOLD
    && forall j :: 0 <= j < |cs| && j != i ==> cs[i].score - cs[j].score >= RESOLVE_MARGIN
  }

  lemma LeaderIsAlone(cs: seq<Candidate>, i: nat)
    requires i < |cs| && ClearLeader(cs, i)
    ensures multiset(cs)[cs[i]] == 1
  {
    assert cs == cs[..i] + [cs[i]] + cs[i + 1..];
    assert cs[i] !in cs[..i] && cs[i] !in cs[i + 1..];
  }

  lemma LeaderFromMultiset(cs: seq<Candidate>, other: seq<Candidate>, i: nat) returns (k: nat)
    requires i < |cs| && ClearLeader(cs, i) && multiset(cs) == multiset(other)
    ensures k < |other| && other[k] == cs[i] && ClearLeader(other, k)
  {
    LeaderIsAlone(cs, i);
    assert cs[i] in multiset(other);
    k :| 0 <= k < |other| && other[k] == cs[i];
    forall j | 0 <= j < |other| && j != k ensures other[k].score - other[j].score >= RESOLVE_MARGIN {
      if other[j] == cs[i] {
        TwiceIsTwo(other, if j < k then j else k, if j < k then k else j);
      } else {
        assert other[j] in multiset(cs);
      }
    }
  }

  lemma TwiceIsTwo(cs: seq<Candidate>, i: nat, j: nat)
    requires i < j < |cs| && cs[i] == cs[j]
    ensures multiset(cs)[cs[i]] >= 2
  {
    assert cs == cs[..j] + [cs[j]] + cs[j + 1..];
    assert cs[i] in cs[..j];
  }

  /**
   * The decision over the ranked pool depends on the candidates only, not on their order: it
   * resolves to a candidate exactly when that one is the clear leader.
   */
  lemma ResolvesExactlyToTheClearLeader(cs: seq<Candidate>, c: Candidate)
    ensures Decide(Ranked(cs)) == Resolved(c) <==> exists i: nat :: i < |cs| && cs[i] == c && ClearLeader(cs, i)
  {
    RankedIsSorted(cs);
    var ranked := Ranked(cs);
    if Decide(ranked) == Resolved(c) {
      assert ClearLeader(ranked, 0);
      var k := LeaderFromMultiset(ranked, cs, 0);
    }
    if i: nat :| i < |cs| && cs[i] == c && ClearLeader(cs, i) {
      var k := LeaderFromMultiset(cs, ranked, i);
      assert k == 0;
    }
  }

  // ---- Verification of the best candidates ----------------------------------------------------------

  function AboveFloor(cs: seq<Candidate>): seq<Candidate>
    decreases |cs|
  {
    if cs == [] then []
    else (if cs[0].score >= AMBIGUOUS_FLOOR then [cs[0]] else []) + AboveFloor(cs[1..])
  }

  function Plausible(cfg: Settings, candidates: seq<Candidate>): (p: seq<Candidate>)
    ensures |p| <= cfg.verifyTopN
  {
    var above := AboveFloor(Ranked(candidates));
    if |above| <= cfg.verifyTopN then above else above[..cfg.verifyTopN]
  }

  // How many candidates get an authoritative answer before the provider fails.
  function Answered(n: nat, answer: Candidate -> Answer, cs: seq<Candidate>): (k: nat)
    requires n <= |cs|
    ensures n <= k <= |cs|
    ensures forall i :: n <= i < k ==> answer(cs[i]) != Unavailable
    ensures k < |cs| ==> answer(cs[k]) == Unavailable
    decreases |cs| - n
  {
    if n == |cs| || answer(cs[n]) == Unavailable then n else Answered(n + 1, answer, cs)
  }

  // The gate reads recorded rows only, and nothing is recorded before the loop ends.
  function Asked(cfg: Settings, l: Ledger, answer: Candidate -> Answer, cs: seq<Candidate>): (k: nat)
    ensures k <= |cs|
  {
    if CanSpend(cfg, l, GeneralRead, 1) then Answered(0, answer, cs) else 0
  }

  function Verified(answer: Candidate -> Answer, cs: seq<Candidate>): seq<Candidate>
    decreases |cs|
  {
    if cs == [] then []
    else
      var c := cs[|cs| - 1];
      var before := Verified(answer, cs[..|cs| - 1]);
      if answer(c).Found? then before + [Candidate(c.id, answer(c).score)] else before
  }

  function NotFound(answer: Candidate -> Answer, cs: seq<Candidate>): seq<Candidate>
    decreases |cs|
  {
    if cs == [] then []
    else
      var before := NotFound(answer, cs[..|cs| - 1]);
      if answer(cs[|cs| - 1]).Missing? then before + [cs[|cs| - 1]] else before
  }

  const READ_CALL := QuotaCall(ReadKind, GeneralRead, 1, true, false, None)

  function Reads(n: nat): (calls: seq<QuotaCall>)
    ensures |calls| == n
  {
    seq(n, i => READ_CALL)
  }

  function SearchMade(ok: bool, purpose: Option<string>): QuotaCall {
    QuotaCall(SearchKind, Search, 1, ok, false, purpose)
  }

  // ---- Identity rows ----------------------------------------------------------------------------------

  datatype Status = RESOLVED | AMBIGUOUS | UNRESOLVED | REJECTED
  datatype Key = Channel(id: string) | PendingFor(artist: string)
  datatype Identity = Identity(artist: string, status: Status, lastVerifiedAt: Option<int>)

  type Identities = map<Key, Identity>

  datatype Reason = VerifiedClearLeader | VerificationUnavailable | VerifiedNoClearLeader | AllNotFound | BySearchOnly

  datatype Outcome = QuotaExhausted | SearchFailed | Done(status: Status, reason: Reason)

  function Upsert(ids: Identities, key: Key, artist: string, status: Status, verified: Option<int>): Identities {
    var kept := if key in ids then ids[key].lastVerifiedAt else None;
    ids[key := Identity(artist, status, if verified.Some? then verified else kept)]
  }

  // A verified leader: its channel is resolved and the artist's pending row is retired.
  function Settle(ids: Identities, artist: string, chosen: string, now: int): Identities {
    var ids' := Upsert(ids, Channel(chosen), artist, RESOLVED, Some(now));
    if PendingFor(artist) in ids' then
      ids'[PendingFor(artist) := ids'[PendingFor(artist)].(status := REJECTED)]
    else ids'
  }

  function WithoutLeader(candidates: seq<Candidate>, unavailable: bool, verified: seq<Candidate>,
                         rejected: seq<Candidate>): (r: (Status, Reason))
  {
    if unavailable then (AMBIGUOUS, VerificationUnavailable)
    else if verified != [] then (AMBIGUOUS, VerifiedNoClearLeader)
    else if rejected != [] then (UNRESOLVED, AllNotFound)
    else (match Decide(Ranked(candidates))
          case Resolved(_) => RESOLVED
          case Ambiguous => AMBIGUOUS
          case Unresolved => UNRESOLVED, BySearchOnly)
  }

  datatype Resolution = Resolution(ledger: Ledger, ids: Identities, outcome: Outcome)

  // The whole call, as a function of the rows and of what the provider would answer.
  function Resolve(cfg: Settings, l: Ledger, ids: Identities, artist: string, purpose: Option<string>,
                   now: int, search: Option<seq<Candidate>>, answer: Candidate -> Answer): Resolution
  {
    if !cfg.searchEnabled || l.day.searchRequests >= cfg.maxSearchesPerDay then
      Resolution(l, ids, QuotaExhausted)
    else if search.None? then
      Resolution(FoldAll(l, [SearchMade(false, purpose)]), ids, SearchFailed)
    else
      var plausible := Plausible(cfg, search.value);
      var asked := Asked(cfg, l, answer, plausible);
      var verified := Verified(answer, plausible[..asked]);
      var l' := FoldAll(l, [SearchMade(true, purpose)] + Reads(asked));
      var decision := Decide(Ranked(verified));
      if decision.Resolved? then
        Resolution(l', Settle(ids, artist, decision.chosen.id, now), Done(RESOLVED, VerifiedClearLeader))
      else
        var (status, reason) := WithoutLeader(search.value, asked < |plausible|, verified,
                                              NotFound(answer, plausible[..asked]));
        Resolution(l', Upsert(ids, PendingFor(artist), artist, status, None), Done(status, reason))
  }

  /** The service as the code runs it. */
  class DemandService {
    var identities: Identities

    constructor ()
      ensures identities == map[]
    {
      identities := map[];
    }

    method UpsertIdentity(key: Key, artist: string, status: Status, verified: Option<int>)
      modifies this
      ensures identities == Upsert(old(identities), key, artist, status, verified)
    {
      var row := if key in identities then identities[key] else Identity(artist, status, None);
      row := row.(artist := artist, status := status);
      if verified.Some? {
        row := row.(lastVerifiedAt := verified);
      }
      identities := identities[key := row];
    }

    // The verified channel is the artist's; its pending row is retired.
    method SettleIdentity(artist: string, chosen: string, now: int)
      modifies this
      ensures identities == Settle(old(identities), artist, chosen, now)
    {
      UpsertIdentity(Channel(chosen), artist, RESOLVED, Some(now));
      if PendingFor(artist) in identities {
        identities := identities[PendingFor(artist) := identities[PendingFor(artist)].(status := REJECTED)];
      }
    }

    method VerifyCandidates(cfg: Settings, tables: QuotaTables, meter: QuotaMeter,
                            plausible: seq<Candidate>, answer: Candidate -> Answer)
      returns (verified: seq<Candidate>, rejected: seq<Candidate>, unavailable: bool)
      modifies meter
      ensures var asked := Asked(cfg, tables.State(), answer, plausible);
              && meter.calls == old(meter.calls) + Reads(asked)
              && verified == Verified(answer, plausible[..asked])
              && rejected == NotFound(answer, plausible[..asked])
              && unavailable == (asked < |plausible|)
    {
      verified, rejected, unavailable := [], [], false;
      ghost var asked := Asked(cfg, tables.State(), answer, plausible);
      var k := 0;
      while k < |plausible| && !unavailable
        invariant 0 <= k <= |plausible|
        invariant k <= asked && (unavailable ==> k == asked < |plausible|)
        invariant meter.calls == old(meter.calls) + Reads(k)
        invariant verified == Verified(answer, plausible[..k])
        invariant rejected == NotFound(answer, plausible[..k])
        decreases |plausible| - k, !unavailable
      {
        if !CanSpend(cfg, tables.State(), GeneralRead, 1) {
          unavailable := true;
        } else {
          var cand := plausible[k];
          assert plausible[..k + 1][..k] == plausible[..k];
          match answer(cand) {
            case Unavailable =>
              unavailable := true;
            case Found(score) =>
              meter.Read(1, true);
              verified := verified + [Candidate(cand.id, score)];
              k := k + 1;
            case Missing =>
              meter.Read(1, true);
              rejected := rejected + [cand];
              k := k + 1;
          }
        }
      }
    }

    /** `resolve_youtube`: whatever happens after the search, the meter is recorded once. */
    method ResolveYoutube(cfg: Settings, tables: QuotaTables, artist: string, purpose: Option<string>, now: int,
                          search: Option<seq<Candidate>>, answer: Candidate -> Answer)
      returns (outcome: Outcome)
      modifies this, tables
      ensures Resolution(tables.State(), identities, outcome)
           == old(Resolve(cfg, tables.State(), identities, artist, purpose, now, search, answer))
    {
      if !cfg.searchEnabled || tables.day.searchRequests >= cfg.maxSearchesPerDay {
        return QuotaExhausted;
      }
      var meter := new QuotaMeter();
      meter.SearchCall(search.Some?, false, purpose);
      assert meter.calls == [SearchMade(search.Some?, purpose)];
      if search.None? {
        tables.RecordMeter(meter);
        return SearchFailed;
      }
      var plausible := Plausible(cfg, search.value);
      var verified, rejected, unavailable := VerifyCandidates(cfg, tables, meter, plausible, answer);
      assert meter.calls == [SearchMade(true, purpose)] + Reads(Asked(cfg, tables.State(), answer, plausible));
      var decision := Decide(Ranked(verified));
      tables.RecordMeter(meter);
      if decision.Resolved? {
        SettleIdentity(artist, decision.chosen.id, now);
        return Done(RESOLVED, VerifiedClearLeader);
      }
      var (status, reason) := WithoutLeader(search.value, unavailable, verified, rejected);
      UpsertIdentity(PendingFor(artist), artist, status, None);
      return Done(status, reason);
    }
  }

  // ---- What one call can spend ------------------------------------------------------------------------

  lemma {:induction false} ReadsMove(l: Ledger, n: nat)
    ensures var end := FoldAll(l, Reads(n));
            && GeneralUsed(end) == GeneralUsed(l) + n
            && Row(end.rows, GeneralRead).units == Row(l.rows, GeneralRead).units + n
            && SearchCalls(end) == SearchCalls(l)
    decreases n
  {
    if n > 0 {
      ReadsMove(l, n - 1);
      assert Reads(n)[..n - 1] == Reads(n - 1);
      SpendMoves(FoldAll(l, Reads(n - 1)), READ_CALL);
    }
  }

  lemma CallSpends(l: Ledger, purpose: Option<string>, n: nat)
    ensures var end := FoldAll(l, [SearchMade(true, purpose)] + Reads(n));
            && GeneralUsed(end) == GeneralUsed(l) + n
            && Row(end.rows, GeneralRead).units == Row(l.rows, GeneralRead).units + n
            && SearchCalls(end) == SearchCalls(l) + 1
  {
    var searched := [SearchMade(true, purpose)];
    FoldAllConcat(l, searched, Reads(n));
    assert searched[..0] == [];
    assert FoldAll(l, searched) == FoldCall(l, searched[0]);
    SpendMoves(l, searched[0]);
    ReadsMove(FoldCall(l, searched[0]), n);
  }

  /**
   * One call checks the pool before each verification but records after the last, so it can pass
   * the usable units and the read budget by `youtube_verify_top_n` - 1 units, and by no more.
   */
  lemma OvershootIsBounded(cfg: Settings, l: Ledger, ids: Identities, artist: string, purpose: Option<string>,
                           now: int, search: Option<seq<Candidate>>, answer: Candidate -> Answer)
    ensures var end := Resolve(cfg, l, ids, artist, purpose, now, search, answer).ledger;
            && GeneralUsed(end) <= Max(GeneralUsed(l), UsableUnits(cfg) + cfg.verifyTopN - 1)
            && Row(end.rows, GeneralRead).units
               <= Max(Row(l.rows, GeneralRead).units, BucketBudget(cfg, GeneralRead) + cfg.verifyTopN - 1)
            && SearchCalls(end) <= SearchCalls(l) + 1
  {
    if cfg.searchEnabled && l.day.searchRequests < cfg.maxSearchesPerDay {
      if search.None? {
        var failed := [SearchMade(false, purpose)];
        assert failed[..0] == [];
        assert FoldAll(l, failed) == FoldCall(l, failed[0]);
        SpendMoves(l, failed[0]);
      } else {
        CallSpends(l, purpose, Asked(cfg, l, answer, Plausible(cfg, search.value)));
      }
    }
  }

  /** The bound is reached: room for one unit, and a full list of candidates that all answer. */
  lemma OvershootIsReached(cfg: Settings, l: Ledger, ids: Identities, artist: string, purpose: Option<string>,
                           now: int, candidates: seq<Candidate>, answer: Candidate -> Answer)
    requires cfg.searchEnabled && l.day.searchRequests < cfg.maxSearchesPerDay
    requires GeneralUsed(l) + 1 == UsableUnits(cfg) && CanSpend(cfg, l, GeneralRead, 1)
    requires |Plausible(cfg, candidates)| == cfg.verifyTopN
    requires forall c :: answer(c) != Unavailable
    ensures GeneralUsed(Resolve(cfg, l, ids, artist, purpose, now, Some(candidates), answer).ledger)
         == UsableUnits(cfg) + cfg.verifyTopN - 1
  {
    CallSpends(l, purpose, Asked(cfg, l, answer, Plausible(cfg, candidates)));
  }

  // ---- What the identity rows can claim ----------------------------------------------------------------

  lemma {:induction false} VerifiedWereFound(answer: Candidate -> Answer, cs: seq<Candidate>, i: nat)
    requires i < |Verified(answer, cs)|
    ensures exists c :: c in cs && c.id == Verified(answer, cs)[i].id && answer(c) == Found(Verified(answer, cs)[i].score)
    decreases |cs|
  {
    if cs != [] {
      var before := cs[..|cs| - 1];
      if i < |Verified(answer, before)| {
        VerifiedWereFound(answer, before, i);
      } else {
        assert cs[|cs| - 1] in cs;
      }
    }
  }

  /**
   * A call reports "verified clear leader" only for a channel the provider confirmed in this
   * call, one of the plausible candidates, whose verified score beats every other verified one.
   */
  lemma ResolvedMeansVerified(cfg: Settings, l: Ledger, ids: Identities, artist: string, purpose: Option<string>,
                              now: int, search: Option<seq<Candidate>>, answer: Candidate -> Answer)
    returns (c: Candidate)
    requires Resolve(cfg, l, ids, artist, purpose, now, search, answer).outcome == Done(RESOLVED, VerifiedClearLeader)
    ensures search.Some? && c in Plausible(cfg, search.value) && answer(c).Found?
    ensures answer(c).score >= RESOLVE_THRESHOLD
    ensures Resolve(cfg, l, ids, artist, purpose, now, search, answer).ids == Settle(ids, artist, c.id, now)
  {
    var plausible := Plausible(cfg, search.value);
    var asked := Asked(cfg, l, answer, plausible);
    var verified := Verified(answer, plausible[..asked]);
    var chosen := Decide(Ranked(verified)).chosen;
    ResolvesExactlyToTheClearLeader(verified, chosen);
    var i: nat :| i < |verified| && verified[i] == chosen && ClearLeader(verified, i);
    VerifiedWereFound(answer, plausible[..asked], i);
    c :| c in plausible[..asked] && c.id == verified[i].id && answer(c) == Found(verified[i].score);
    assert c in plausible;
  }

  lemma {:induction false} WhatWasHeard(answer: Candidate -> Answer, cs: seq<Candidate>)
    ensures Verified(answer, cs) == [] <==> forall i :: 0 <= i < |cs| ==> !answer(cs[i]).Found?
    ensures NotFound(answer, cs) == [] <==> forall i :: 0 <= i < |cs| ==> !answer(cs[i]).Missing?
    decreases |cs|
  {
    if cs != [] {
      var before := cs[..|cs| - 1];
      WhatWasHeard(answer, before);
      assert forall i :: 0 <= i < |before| ==> cs[i] == before[i];
      assert answer(cs[|cs| - 1]).Found? ==> Verified(answer, cs) != [];
      assert answer(cs[|cs| - 1]).Missing? ==> NotFound(answer, cs) != [];
    }
  }

  ghost predicate SomeAnswer(answer: Candidate -> Answer, cs: seq<Candidate>, a: Answer) {
    exists i :: 0 <= i < |cs| && answer(cs[i]) == a
  }

  /**
   * Without a leader the reason says what happened: verification was cut short exactly when the gate or
   * the provider refused one of the plausible candidates, all were missing exactly when every one was,
   * and the search alone decided exactly when there was none.
   */
  lemma ReasonsTellWhy(cfg: Settings, l: Ledger, ids: Identities, artist: string, purpose: Option<string>,
                       now: int, candidates: seq<Candidate>, answer: Candidate -> Answer)
    requires cfg.searchEnabled && l.day.searchRequests < cfg.maxSearchesPerDay
    requires Resolve(cfg, l, ids, artist, purpose, now, Some(candidates), answer).outcome.reason != VerifiedClearLeader
    ensures var outcome := Resolve(cfg, l, ids, artist, purpose, now, Some(candidates), answer).outcome;
            var cs := Plausible(cfg, candidates);
            && (outcome.reason == VerificationUnavailable <==>
                  cs != [] && (!CanSpend(cfg, l, GeneralRead, 1) || SomeAnswer(answer, cs, Unavailable)))
            && (outcome.reason == AllNotFound <==>
                  cs != [] && CanSpend(cfg, l, GeneralRead, 1) && forall i :: 0 <= i < |cs| ==> answer(cs[i]) == Missing)
            && (outcome.reason == BySearchOnly <==> cs == [])
            && (outcome.reason == VerificationUnavailable || outcome.reason == VerifiedNoClearLeader ==> outcome.status == AMBIGUOUS)
            && (outcome.reason == AllNotFound ==> outcome.status == UNRESOLVED)
  {
    var cs := Plausible(cfg, candidates);
    var asked := Asked(cfg, l, answer, cs);
    WhatWasHeard(answer, cs[..asked]);
    if asked == |cs| {
      assert cs[..asked] == cs;
    } else {
      assert CanSpend(cfg, l, GeneralRead, 1) ==> SomeAnswer(answer, cs, Unavailable);
    }
  }

  // An artist's pending row is named after it, and a resolved channel row has been verified.
  ghost predicate Honest(ids: Identities) {
    && (forall id :: Channel(id) in ids ==> ids[Channel(id)].status == RESOLVED ==> ids[Channel(id)].lastVerifiedAt.Some?)
    && (forall a :: PendingFor(a) in ids ==> ids[PendingFor(a)].artist == a && ids[PendingFor(a)].status != RESOLVED)
  }

  lemma {:induction false} NothingAboveFloor(cs: seq<Candidate>)
    requires Falling(cs) && AboveFloor(cs) == []
    ensures cs == [] || cs[0].score < AMBIGUOUS_FLOOR
  {
  }

  // The search-only fallback can never resolve: a leader would have been plausible.
  lemma SearchAloneNeverResolves(cfg: Settings, candidates: seq<Candidate>)
    requires cfg.verifyTopN > 0 && Plausible(cfg, candidates) == []
    ensures Decide(Ranked(candidates)) == Unresolved
  {
    RankedIsSorted(candidates);
    NothingAboveFloor(Ranked(candidates));
  }

  lemma {:induction false} EveryAnswerIsUsed(answer: Candidate -> Answer, cs: seq<Candidate>)
    requires forall i :: 0 <= i < |cs| ==> answer(cs[i]) != Unavailable
    ensures |Verified(answer, cs)| + |NotFound(answer, cs)| == |cs|
    decreases |cs|
  {
    if cs != [] {
      EveryAnswerIsUsed(answer, cs[..|cs| - 1]);
    }
  }

  lemma VerifyingKeepsHonest(cfg: Settings, l: Ledger, ids: Identities, artist: string, purpose: Option<string>,
                           now: int, search: Option<seq<Candidate>>, answer: Candidate -> Answer)
    requires cfg.verifyTopN > 0 && Honest(ids)
    ensures Honest(Resolve(cfg, l, ids, artist, purpose, now, search, answer).ids)
  {
    var r := Resolve(cfg, l, ids, artist, purpose, now, search, answer);
    if r.outcome.Done? && r.outcome.reason != VerifiedClearLeader {
      var plausible := Plausible(cfg, search.value);
      var asked := Asked(cfg, l, answer, plausible);
      if asked == |plausible| {
        assert plausible[..asked] == plausible;
        EveryAnswerIsUsed(answer, plausible);
        if plausible == [] {
          SearchAloneNeverResolves(cfg, search.value);
        }
      }
    }
  }

  ghost predicate HasClearLeader(cs: seq<Candidate>) {
    exists i: nat :: i < |cs| && ClearLeader(cs, i)
  }

  lemma LeaderDecides(cs: seq<Candidate>)
    ensures Decide(Ranked(cs)).Resolved? <==> HasClearLeader(cs)
  {
    if Decide(Ranked(cs)).Resolved? {
      ResolvesExactlyToTheClearLeader(cs, Decide(Ranked(cs)).chosen);
    }
    if i: nat :| i < |cs| && ClearLeader(cs, i) {
      ResolvesExactlyToTheClearLeader(cs, cs[i]);
    }
  }

  // With `youtube_verify_top_n` at zero the verification loop is empty and the search alone decides.
  lemma UnverifiedDecision(cfg: Settings, l: Ledger, ids: Identities, artist: string, purpose: Option<string>,
                           now: int, candidates: seq<Candidate>, answer: Candidate -> Answer)
    requires cfg.searchEnabled && l.day.searchRequests < cfg.maxSearchesPerDay && cfg.verifyTopN == 0
    ensures var r := Resolve(cfg, l, ids, artist, purpose, now, Some(candidates), answer);
            && r.ids == Upsert(ids, PendingFor(artist), artist, r.outcome.status, None)
            && (r.outcome.status == RESOLVED <==> HasClearLeader(candidates))
  {
    LeaderDecides(candidates);
    assert Plausible(cfg, candidates) == [];
  }

  /**
   * A call keeps the rows honest, nothing being RESOLVED that the provider did not confirm, exactly unless
   * verification is switched off (`youtube_verify_top_n` at zero) and a search that is allowed and succeeds
   * has a clear leader.
   */
  lemma HonestExactlyUnlessBlind(cfg: Settings, l: Ledger, ids: Identities, artist: string, purpose: Option<string>,
                                 now: int, search: Option<seq<Candidate>>, answer: Candidate -> Answer)
    requires Honest(ids)
    ensures Honest(Resolve(cfg, l, ids, artist, purpose, now, search, answer).ids) <==>
            !(cfg.verifyTopN == 0 && cfg.searchEnabled && l.day.searchRequests < cfg.maxSearchesPerDay
              && search.Some? && HasClearLeader(search.value))
  {
    if cfg.verifyTopN > 0 {
      VerifyingKeepsHonest(cfg, l, ids, artist, purpose, now, search, answer);
    } else if cfg.searchEnabled && l.day.searchRequests < cfg.maxSearchesPerDay && search.Some? {
      UnverifiedDecision(cfg, l, ids, artist, purpose, now, search.value, answer);
    }
  }

  function ResolvedChannels(ids: Identities, artist: string): set<string> {
    set k | k in ids && k.Channel? && ids[k].artist == artist && ids[k].status == RESOLVED :: k.id
  }

  /**
   * An identity row does change hands. Resolving a channel for an artist takes it from whoever
   * held it, so another artist keeps its resolved channels exactly when this one was not among
   * them; and the artist's earlier channels stay resolved beside the new one.
   */
  lemma ResolvingRebinds(ids: Identities, artist: string, chosen: string, now: int, other: string)
    requires Honest(ids) && other != artist
    ensures var after := Settle(ids, artist, chosen, now);
            && ResolvedChannels(after, artist) == ResolvedChannels(ids, artist) + {chosen}
            && ResolvedChannels(after, other) == ResolvedChannels(ids, other) - {chosen}
            && (ResolvedChannels(after, other) == ResolvedChannels(ids, other)
                <==> chosen !in ResolvedChannels(ids, other))
  {
  }
}
