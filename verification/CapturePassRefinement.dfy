/** A `run_once` pass is a run of the interleaved system: its transactions, in order, with nobody else in
    between. Everything proved of all runs therefore holds of every pass. */
module CapturePassRefinement {
  import opened Options
  import opened CaptureStore
  import opened CaptureRuns
  import opened CaptureService

  function ClaimSteps(ids: seq<nat>, worker: string, now: int): (steps: seq<Step>)
    ensures |steps| == |ids|
  {
    seq(|ids|, k requires 0 <= k < |ids| => ClaimStep(ids[k], worker, now))
  }

  /** Reading and committing the sessions `first`, `first + 1`, ... opened for `ids`. */
  function ProcessSteps(ids: seq<nat>, first: nat, capture: nat -> CaptureOutcome, today: nat -> Option<int>,
                        now: int): seq<Step>
  {
    if ids == [] then []
    else [ReadStep(first), CommitStep(first, capture(ids[0]), today(ids[0]), now)] +
         ProcessSteps(ids[1..], first + 1, capture, today, now)
  }

  function PassSteps(ids: seq<nat>, first: nat, worker: string, capture: nat -> CaptureOutcome,
                     today: nat -> Option<int>, now: int): seq<Step>
  {
    [RecoverStep(now), GenerateStep(now)] + ClaimSteps(ids, worker, now) +
    ProcessSteps(ids, first, capture, today, now)
  }

  ghost predicate Distinct(ids: seq<nat>) {
    forall k, l :: 0 <= k < l < |ids| ==> ids[k] != ids[l]
  }

  predicate HoldsOne(y: System, c: nat, j: nat) {
    c in y.sessions && y.sessions[c].job == j
  }

  /** The sessions opened by a batch of claims. */
  ghost predicate Holds(y: System, ids: seq<nat>, first: nat) {
    forall k :: 0 <= k < |ids| ==> HoldsOne(y, first + k, ids[k])
  }

  lemma ClaimHeadThenTail(s: Store, ids: seq<nat>, worker: string, now: int, cfg: Settings)
    requires ids != [] && Distinct(ids) && Within(ids, |s.jobs|) && s.jobs[ids[0]].status == Pending
    ensures ClaimAll(Claim(s, ids[0], now, worker, cfg), ids[1..], now, worker, cfg) == ClaimAll(s, ids, now, worker, cfg)
  {
  }

  ghost predicate AllPending(jobs: seq<Job>, ids: seq<nat>) {
    forall k :: 0 <= k < |ids| ==> ids[k] < |jobs| && jobs[ids[k]].status == Pending
  }

  lemma ClaimOne(y: System, ids: seq<nat>, worker: string, now: int, cfg: Settings)
    requires |y.history| == |y.store.jobs| && ids != [] && Distinct(ids) && AllPending(y.store.jobs, ids)
    ensures var z := NextClaim(y, ids[0], worker, now, cfg);
            AllPending(z.store.jobs, ids[1..]) && Distinct(ids[1..]) &&
            z.sessions.Keys == y.sessions.Keys + {y.nextSession} && z.sessions[y.nextSession].job == ids[0] &&
            z.nextSession == y.nextSession + 1 && z.store == Claim(y.store, ids[0], now, worker, cfg)
  {
  }

  /** Later claims open later sessions and leave earlier ones alone. */
  ghost predicate Extends(y: System, r: System) {
    forall c :: c in y.sessions && c < y.nextSession ==> c in r.sessions && r.sessions[c] == y.sessions[c]
  }

  lemma ClaimsHead(y: System, ids: seq<nat>, worker: string, now: int, cfg: Settings)
    requires Inv(y) && ids != [] && Distinct(ids) && AllPending(y.store.jobs, ids)
    ensures var z := NextClaim(y, ids[0], worker, now, cfg);
            Inv(z) && AllPending(z.store.jobs, ids[1..]) && Distinct(ids[1..]) &&
            Run(y, ClaimSteps(ids, worker, now), cfg) == Run(z, ClaimSteps(ids[1..], worker, now), cfg)
  {
    var steps := ClaimSteps(ids, worker, now);
    RunHead(y, steps, cfg);
    assert steps[1..] == ClaimSteps(ids[1..], worker, now);
    ClaimOne(y, ids, worker, now, cfg);
  }

  lemma {:induction false} ClaimsRun(y: System, ids: seq<nat>, worker: string, now: int, cfg: Settings)
    requires Inv(y) && Distinct(ids) && AllPending(y.store.jobs, ids)
    ensures Run(y, ClaimSteps(ids, worker, now), cfg).store == ClaimAll(y.store, ids, now, worker, cfg)
    ensures Holds(Run(y, ClaimSteps(ids, worker, now), cfg), ids, y.nextSession)
    ensures Extends(y, Run(y, ClaimSteps(ids, worker, now), cfg))
    decreases |ids|
  {
    if ids == [] {
      assert ClaimAll(y.store, ids, now, worker, cfg).jobs == y.store.jobs;
    } else {
      var z := NextClaim(y, ids[0], worker, now, cfg);
      ClaimsHead(y, ids, worker, now, cfg);
      ClaimsRun(z, ids[1..], worker, now, cfg);
      ClaimHeadThenTail(y.store, ids, worker, now, cfg);
      ClaimOne(y, ids, worker, now, cfg);
      SessionsLineUp(y, z, Run(y, ClaimSteps(ids, worker, now), cfg), ids);
    }
  }

  lemma SessionsLineUp(y: System, z: System, r: System, ids: seq<nat>)
    requires ids != [] && z.nextSession == y.nextSession + 1
    requires y.nextSession in z.sessions && z.sessions[y.nextSession].job == ids[0]
    requires forall c :: c in y.sessions && c < y.nextSession ==> c in z.sessions && z.sessions[c] == y.sessions[c]
    requires Extends(z, r) && Holds(r, ids[1..], z.nextSession)
    ensures Holds(r, ids, y.nextSession) && Extends(y, r)
  {
  }

  lemma ProcessOne(y: System, ids: seq<nat>, first: nat, outcome: CaptureOutcome, day: Option<int>, now: int, cfg: Settings)
    requires Inv(y) && ids != [] && Holds(y, ids, first) && Within(ids, |y.store.jobs|)
    requires HoldsOne(y, first, ids[0]) && Inv(NextRead(y, first))
    ensures var z := NextRead(y, first);
            var w := NextCommit(z, first, outcome, day, now, cfg);
            w.store == Commit(y.store, ids[0], outcome, y.store.jobs[ids[0]].attemptCount, day, now, cfg) &&
            Holds(w, ids[1..], first + 1)
  {
  }

  lemma TwoSteps(y: System, steps: seq<Step>, cfg: Settings)
    requires Inv(y) && |steps| >= 2
    ensures Inv(Next(y, steps[0], cfg))
    ensures var z := Next(Next(y, steps[0], cfg), steps[1], cfg);
            Inv(z) && Run(y, steps, cfg) == Run(z, steps[2..], cfg)
  {
    RunHead(y, steps, cfg);
    RunHead(Next(y, steps[0], cfg), steps[1..], cfg);
    assert steps[1..][1..] == steps[2..];
  }

  lemma ProcessHead(y: System, ids: seq<nat>, first: nat, capture: nat -> CaptureOutcome,
                    today: nat -> Option<int>, now: int, cfg: Settings)
    requires Inv(y) && ids != [] && Holds(y, ids, first) && Within(ids, |y.store.jobs|) && HoldsOne(y, first, ids[0])
    ensures var w := NextCommit(NextRead(y, first), first, capture(ids[0]), today(ids[0]), now, cfg);
            Inv(w) && Run(y, ProcessSteps(ids, first, capture, today, now), cfg) ==
                      Run(w, ProcessSteps(ids[1..], first + 1, capture, today, now), cfg)
  {
    ProcessStepsSplit(ids, first, capture, today, now);
    TwoSteps(y, ProcessSteps(ids, first, capture, today, now), cfg);
  }

  lemma ProcessStepsSplit(ids: seq<nat>, first: nat, capture: nat -> CaptureOutcome, today: nat -> Option<int>, now: int)
    requires ids != []
    ensures var steps := ProcessSteps(ids, first, capture, today, now);
            && |steps| >= 2 && steps[0] == ReadStep(first)
            && steps[1] == CommitStep(first, capture(ids[0]), today(ids[0]), now)
            && steps[2..] == ProcessSteps(ids[1..], first + 1, capture, today, now)
  {
  }

  lemma {:induction false} ProcessingRuns(y: System, ids: seq<nat>, first: nat, capture: nat -> CaptureOutcome,
                                          today: nat -> Option<int>, now: int, cfg: Settings)
    requires Inv(y) && Holds(y, ids, first) && Within(ids, |y.store.jobs|)
    ensures Run(y, ProcessSteps(ids, first, capture, today, now), cfg).store ==
            CommitAll(y.store, ids, capture, today, now, cfg)
    decreases |ids|
  {
    if ids != [] {
      assert HoldsOne(y, first + 0, ids[0]);
      StepKeepsInv(y, ReadStep(first), cfg);
      ProcessHead(y, ids, first, capture, today, now, cfg);
      ProcessOne(y, ids, first, capture(ids[0]), today(ids[0]), now, cfg);
      ProcessingRuns(NextCommit(NextRead(y, first), first, capture(ids[0]), today(ids[0]), now, cfg), ids[1..],
                     first + 1, capture, today, now, cfg);
    }
  }

  lemma OpeningRuns(y: System, now: int, cfg: Settings)
    requires Inv(y)
    ensures var r := Run(y, [RecoverStep(now), GenerateStep(now)], cfg);
            r.store == Generate(Recover(y.store, now), now, cfg) && r.nextSession == y.nextSession
  {
    var opening: seq<Step> := [RecoverStep(now), GenerateStep(now)];
    RunHead(y, opening, cfg);
    RunHead(NextRecover(y, now), opening[1..], cfg);
    assert opening[1..][1..] == [];
  }

  /** A pass refines the interleaved system. */
  lemma PassIsARun(y: System, worker: string, now: int, limit: int, capture: nat -> CaptureOutcome,
                   today: nat -> Option<int>, cfg: Settings)
    requires Inv(y)
    ensures Run(y, PassSteps(Claimed(y.store, now, limit, cfg), y.nextSession, worker, capture, today, now), cfg).store
            == Pass(y.store, worker, now, limit, capture, today, cfg)
  {
    var ids := Claimed(y.store, now, limit, cfg);
    var opening: seq<Step> := [RecoverStep(now), GenerateStep(now)];
    var claims := ClaimSteps(ids, worker, now);
    OpeningRuns(y, now, cfg);
    var z := Run(y, opening, cfg);
    assert forall k :: 0 <= k < |ids| ==> ids[k] in Claimable(z.store.jobs, |z.store.jobs|, now);
    ClaimsRun(z, ids, worker, now, cfg);
    ProcessingRuns(Run(z, claims, cfg), ids, y.nextSession, capture, today, now, cfg);
    RunConcat(y, opening + claims, ProcessSteps(ids, y.nextSession, capture, today, now), cfg);
    RunConcat(y, opening, claims, cfg);
  }
}
