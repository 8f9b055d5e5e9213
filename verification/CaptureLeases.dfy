/** Leases over runs of the capture scheduler: while they are respected no two workers hold one job, and exactly
    what a recovery needs for that. */
module CaptureLeases {
  import opened Options
  import opened CaptureStore
  import opened CaptureRuns
  import opened CaptureInvariants

  /** The session still holds the lease it was given, and read the current attempt if it read at all. */
  predicate Owns(x: Session, job: Job) {
    job.status == Running && job.lockExpiresAt == Some(x.lease) &&
    (x.attempt.Some? ==> x.attempt.value == job.attemptCount)
  }

  /** Committed once if completed and never otherwise; attempts are 1 plus recoveries once claimed. */
  predicate Settled(job: Job, h: History) {
    h.commits == (if IsCompleted(job) then 1 else 0) && job.attemptCount == h.claims &&
    h.claims == h.recoveries + (if job.status == Pending then 0 else 1)
  }

  ghost predicate Alone(sessions: map<nat, Session>) {
    forall c, d :: c in sessions && d in sessions && sessions[c].job == sessions[d].job ==> c == d
  }

  /** Every open session owns its job, alone, and every job's history is settled. */
  ghost predicate Exclusive(y: System)
    requires Inv(y)
  {
    (forall c :: c in y.sessions ==> Owns(y.sessions[c], y.store.jobs[y.sessions[c].job])) &&
    Alone(y.sessions) &&
    (forall j :: 0 <= j < |y.store.jobs| ==> Settled(y.store.jobs[j], y.history[j]))
  }

  /** A step and the wall-clock instant of its transaction. */
  datatype Timed = Timed(step: Step, wall: int)

  /** The lease discipline: nobody recovers locks with a clock ahead of the wall clock, and at every
      step each open session is still within its lease, so a worker commits (or has crashed) in time. */
  ghost predicate Timely(y: System, t: Timed) {
    (t.step.RecoverStep? ==> t.step.now <= t.wall) &&
    (forall c :: c in y.sessions ==> t.wall <= y.sessions[c].lease)
  }

  /** New pending rows are nobody's. */
  lemma GrowthKeepsExclusion(y: System, r: System)
    requires Inv(y) && Exclusive(y) && Inv(r)
    requires r.sessions == y.sessions && |y.store.jobs| <= |r.store.jobs|
    requires r.store.jobs[..|y.store.jobs|] == y.store.jobs && r.history[..|y.history|] == y.history
    requires forall j :: |y.store.jobs| <= j < |r.store.jobs| ==>
               r.store.jobs[j].status == Pending && r.store.jobs[j].attemptCount == 0 && r.history[j] == History(0, 0, 0)
    ensures Exclusive(r)
  {
  }

  lemma RecoveryKeepsExclusion(y: System, now: int)
    requires Inv(y) && Exclusive(y) && forall c :: c in y.sessions ==> now <= y.sessions[c].lease
    requires Inv(NextRecover(y, now))
    ensures Exclusive(NextRecover(y, now))
  {
  }

  lemma ClaimKeepsExclusion(y: System, j: nat, worker: string, now: int, cfg: Settings)
    requires Inv(y) && Exclusive(y) && j < |y.store.jobs| && y.store.jobs[j].status == Pending
    requires Inv(NextClaim(y, j, worker, now, cfg))
    ensures Exclusive(NextClaim(y, j, worker, now, cfg))
  {
    var r := NextClaim(y, j, worker, now, cfg);
    forall c | c in r.sessions
      ensures Owns(r.sessions[c], r.store.jobs[r.sessions[c].job])
      ensures r.sessions[c].job == j ==> c == y.nextSession
    {
      if c != y.nextSession {
        assert Owns(y.sessions[c], y.store.jobs[y.sessions[c].job]);
      }
    }
    assert Alone(r.sessions);
    forall i | 0 <= i < |r.store.jobs| ensures Settled(r.store.jobs[i], r.history[i]) {
      assert Settled(y.store.jobs[i], y.history[i]);
    }
  }

  lemma ReadKeepsExclusion(y: System, c: nat)
    requires Inv(y) && Exclusive(y) && c in y.sessions
    requires Inv(NextRead(y, c))
    ensures Exclusive(NextRead(y, c))
  {
  }

  lemma CommitKeepsExclusion(y: System, c: nat, outcome: CaptureOutcome, today: Option<int>, now: int, cfg: Settings)
    requires Inv(y) && Exclusive(y) && c in y.sessions && y.sessions[c].attempt.Some?
    requires Inv(NextCommit(y, c, outcome, today, now, cfg))
    ensures Exclusive(NextCommit(y, c, outcome, today, now, cfg))
  {
    var r := NextCommit(y, c, outcome, today, now, cfg);
    var j := y.sessions[c].job;
    assert Owns(y.sessions[c], y.store.jobs[j]);
    forall d | d in r.sessions ensures Owns(r.sessions[d], r.store.jobs[r.sessions[d].job]) {
      assert Owns(y.sessions[d], y.store.jobs[y.sessions[d].job]);
      assert y.sessions[d].job != j;
    }
    forall i | 0 <= i < |r.store.jobs| ensures Settled(r.store.jobs[i], r.history[i]) {
      assert Settled(y.store.jobs[i], y.history[i]);
    }
  }

  lemma GenerateKeepsExclusion(y: System, now: int, cfg: Settings)
    requires Inv(y) && Exclusive(y) && Inv(GrowTo(y, Generate(y.store, now, cfg)))
    ensures Exclusive(GrowTo(y, Generate(y.store, now, cfg)))
  {
    NewJobsArePending(y.store.events, y.store.jobs, now, cfg);
    GrowthKeepsExclusion(y, GrowTo(y, Generate(y.store, now, cfg)));
  }

  lemma EventStepKeepsExclusion(y: System, step: Step, cfg: Settings)
    requires Inv(y) && Exclusive(y) && (step.EnrollStep? || step.EnrichStep?) && Inv(Next(y, step, cfg))
    ensures Exclusive(Next(y, step, cfg))
  {
  }

  lemma CrashKeepsExclusion(y: System, c: nat, cfg: Settings)
    requires Inv(y) && Exclusive(y) && Inv(Next(y, CrashStep(c), cfg))
    ensures Exclusive(Next(y, CrashStep(c), cfg))
  {
  }

  lemma CaptureNowKeepsExclusion(y: System, key: EventKey, now: int)
    requires Inv(y) && Exclusive(y) && Inv(GrowTo(y, InsertCaptureNow(y.store, key, now)))
    ensures Exclusive(GrowTo(y, InsertCaptureNow(y.store, key, now)))
  {
  }

  lemma SessionStepKeepsExclusion(y: System, step: Step, cfg: Settings)
    requires Inv(y) && Exclusive(y) && Inv(Next(y, step, cfg))
    requires step.ClaimStep? || step.ReadStep? || step.CommitStep? || step.CrashStep?
    ensures Exclusive(Next(y, step, cfg))
  {
    if step.ClaimStep? {
      if step.job < |y.store.jobs| && y.store.jobs[step.job].status == Pending {
        ClaimKeepsExclusion(y, step.job, step.worker, step.now, cfg);
      }
    } else if step.CrashStep? {
      CrashKeepsExclusion(y, step.session, cfg);
    } else if step.session in y.sessions {
      if step.ReadStep? {
        ReadKeepsExclusion(y, step.session);
      } else if y.sessions[step.session].attempt.Some? {
        CommitKeepsExclusion(y, step.session, step.outcome, step.today, step.now, cfg);
      }
    }
  }

  lemma StepKeepsExclusion(y: System, t: Timed, cfg: Settings)
    requires Inv(y) && Exclusive(y) && Timely(y, t) && Inv(Next(y, t.step, cfg))
    ensures Exclusive(Next(y, t.step, cfg))
  {
    if t.step.RecoverStep? {
      RecoveryKeepsExclusion(y, t.step.now);
    } else if t.step.EnrollStep? || t.step.EnrichStep? {
      EventStepKeepsExclusion(y, t.step, cfg);
    } else if t.step.GenerateStep? {
      GenerateKeepsExclusion(y, t.step.now, cfg);
    } else if t.step.CaptureNowStep? {
      CaptureNowKeepsExclusion(y, t.step.key, t.step.now);
    } else {
      SessionStepKeepsExclusion(y, t.step, cfg);
    }
  }

  function Untimed(ts: seq<Timed>): (steps: seq<Step>)
    ensures |steps| == |ts|
  {
    seq(|ts|, i requires 0 <= i < |ts| => ts[i].step)
  }

  ghost predicate AlwaysTimely(y: System, ts: seq<Timed>, cfg: Settings)
    requires Inv(y)
    decreases |ts|
  {
    ts == [] ||
    (Timely(y, ts[0]) && (StepKeepsInv(y, ts[0].step, cfg); AlwaysTimely(Next(y, ts[0].step, cfg), ts[1..], cfg)))
  }

  /** Lease exclusion over every interleaving: while each worker commits no later than its lease
      expires, no two workers are between claim and commit on one job, each job commits exactly one
      result, and a completed job's `attempt_count` is 1 plus its lock recoveries. */
  lemma {:induction false} LeasesExclude(y: System, ts: seq<Timed>, cfg: Settings)
    requires Inv(y) && Exclusive(y) && AlwaysTimely(y, ts, cfg)
    ensures Exclusive(Run(y, Untimed(ts), cfg))
    decreases |ts|
  {
    if ts != [] {
      StepKeepsInv(y, ts[0].step, cfg);
      StepKeepsExclusion(y, ts[0], cfg);
      assert Untimed(ts)[1..] == Untimed(ts[1..]);
      LeasesExclude(Next(y, ts[0].step, cfg), ts[1..], cfg);
    }
  }

  lemma ExpiredSessionLosesItsJob(y: System, c: nat, now: int)
    requires Inv(y) && Exclusive(y) && c in y.sessions && y.sessions[c].lease < now
    requires Inv(NextRecover(y, now))
    ensures !Exclusive(NextRecover(y, now))
  {
    var r := NextRecover(y, now);
    assert c in r.sessions && !Owns(r.sessions[c], r.store.jobs[r.sessions[c].job]);
  }

  /** The assumption is exactly what a recovery pass needs: it keeps exclusion if and only if its clock
      has not passed the lease of any open session. */
  lemma RecoveryIsSafeExactlyWithinLeases(y: System, now: int, cfg: Settings)
    requires Inv(y) && Exclusive(y)
    ensures Inv(Next(y, RecoverStep(now), cfg))
    ensures Exclusive(Next(y, RecoverStep(now), cfg)) <==> forall c :: c in y.sessions ==> now <= y.sessions[c].lease
  {
    StepKeepsInv(y, RecoverStep(now), cfg);
    assert Next(y, RecoverStep(now), cfg) == NextRecover(y, now);
    if c :| c in y.sessions && y.sessions[c].lease < now {
      ExpiredSessionLosesItsJob(y, c, now);
    } else {
      RecoveryKeepsExclusion(y, now);
    }
  }

  /** Without it two workers do hold one job, since a commit is not fenced by worker or lease. */
  lemma LateSessionIsShared(y: System, c: nat, now: int, worker: string, cfg: Settings)
    requires Inv(y) && Exclusive(y) && c in y.sessions && y.sessions[c].lease < now
    ensures var y1 := NextRecover(y, now);
            var y2 := NextClaim(y1, y.sessions[c].job, worker, now, cfg);
            y1.store.jobs[y.sessions[c].job].status == Pending && c != y.nextSession &&
            c in y2.sessions && y.nextSession in y2.sessions &&
            y2.sessions[c].job == y2.sessions[y.nextSession].job
  {
  }
}
