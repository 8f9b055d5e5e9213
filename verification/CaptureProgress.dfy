/** Progress of the capture scheduler: under clocks that never go back, a tracker that is due has work. */
module CaptureProgress {
  import opened Options
  import opened CaptureStore
  import opened CaptureTables
  import opened CaptureRuns

  /** Every window used so far is at most `clock`; a trackable tracker's current window has no job yet
      or an active one; a trackable tracker with no next capture has never been committed. */
  ghost predicate Unwedged(s: Store, clock: int) {
    JobsHaveEvents(s) && EventsUnique(s.events) &&
    (forall j :: 0 <= j < |s.jobs| ==> s.jobs[j].scheduledAt <= clock) &&
    (forall j :: 0 <= j < |s.jobs| && s.jobs[j].window.At? ==> s.jobs[j].window.instant <= clock) &&
    (forall e, j :: 0 <= e < |s.events| && 0 <= j < |s.jobs| && OnCurrentWindow(s.jobs[j], s.events[e]) ==>
      IsActive(s.jobs[j]))
  }

  predicate OnCurrentWindow(job: Job, te: Tracked) {
    IsTrackable(te) && job.key == te.key && (te.nextCaptureAt.None? || job.window == WindowOf(te))
  }

  /** A step whose clock does not run behind `clock`: passes and capture-now calls do not overlap. */
  predicate NotBefore(step: Step, clock: int) {
    match step
    case GenerateStep(now) => clock <= now
    case RecoverStep(now) => clock <= now
    case ClaimStep(_, _, now) => clock <= now
    case CommitStep(_, _, _, now) => clock <= now
    case EnrichStep(_, _, _, now) => clock <= now
    case CaptureNowStep(_, now) => clock <= now
    case _ => true
  }

  function Clock(step: Step, clock: int): int {
    match step
    case GenerateStep(now) => now
    case RecoverStep(now) => now
    case ClaimStep(_, _, now) => now
    case CommitStep(_, _, _, now) => now
    case EnrichStep(_, _, _, now) => now
    case CaptureNowStep(_, now) => now
    case _ => clock
  }

  /** Steps that leave schedules alone: old rows stay on their window and stay active, new rows are
      active on a window not later than now. */
  lemma SchedulesUntouched(s: Store, r: Store, clock: int, now: int)
    requires Unwedged(s, clock) && clock <= now
    requires |r.events| == |s.events| && |s.jobs| <= |r.jobs|
    requires forall e :: 0 <= e < |s.events| ==>
               r.events[e].key == s.events[e].key && r.events[e].status == s.events[e].status &&
               r.events[e].nextCaptureAt == s.events[e].nextCaptureAt
    requires forall j :: 0 <= j < |s.jobs| ==>
               r.jobs[j].key == s.jobs[j].key && r.jobs[j].window == s.jobs[j].window &&
               r.jobs[j].scheduledAt == s.jobs[j].scheduledAt && (IsActive(s.jobs[j]) ==> IsActive(r.jobs[j]))
    requires forall j :: |s.jobs| <= j < |r.jobs| ==>
               IsActive(r.jobs[j]) && r.jobs[j].scheduledAt <= now && FindEvent(r.events, r.jobs[j].key).Some? &&
               (r.jobs[j].window.At? ==> r.jobs[j].window.instant <= now)
    ensures Unwedged(r, now)
  {
  }

  lemma EnrollStaysUnwedged(s: Store, clock: int, key: EventKey, city: Option<string>, startsAt: Option<int>,
                            onSaleAt: Option<int>, cfg: Settings)
    requires Unwedged(s, clock)
    ensures Unwedged(Enroll(s, key, city, startsAt, onSaleAt, cfg), clock)
  {
    var r := Enroll(s, key, city, startsAt, onSaleAt, cfg);
    if |r.events| == |s.events| {
      SchedulesUntouched(s, r, clock, clock);
    } else {
      JobsKeepEvents(s, r.events);
      forall e, j | 0 <= e < |r.events| && 0 <= j < |s.jobs| && OnCurrentWindow(s.jobs[j], r.events[e])
        ensures IsActive(s.jobs[j])
      {
        assert FindEvent(s.events, s.jobs[j].key).Some?;
        assert e < |s.events| && r.events[e] == s.events[e];
      }
    }
  }

  lemma GenerateStaysUnwedged(s: Store, clock: int, now: int, cfg: Settings)
    requires Unwedged(s, clock) && clock <= now
    ensures Unwedged(Generate(s, now, cfg), now)
  {
    var r := Generate(s, now, cfg);
    var added := NewJobs(s.events, s.jobs, now, cfg);
    NewJobsOrigin(s.events, s.jobs, now, cfg);
    forall j | |s.jobs| <= j < |r.jobs|
      ensures IsActive(r.jobs[j]) && r.jobs[j].scheduledAt <= now && FindEvent(r.events, r.jobs[j].key).Some?
      ensures r.jobs[j].window.At? ==> r.jobs[j].window.instant <= now
    {
      var job := added[j - |s.jobs|];
      assert CreatedFor(job, s.events, s.jobs, now, cfg);
      var e :| 0 <= e < |s.events| && NewJob(s.events[e], s.jobs, now, cfg) == Some(job);
      assert r.events[e].key == job.key;
    }
    SchedulesUntouched(s, r, clock, now);
  }

  lemma CommitStaysUnwedged(s: Store, clock: int, j: nat, outcome: CaptureOutcome, attempt: nat, today: Option<int>,
                            now: int, cfg: Settings)
    requires Unwedged(s, clock) && clock <= now && j < |s.jobs| && cfg.Positive()
    ensures Unwedged(Commit(s, j, outcome, attempt, today, now, cfg), now)
  {
    var r := Commit(s, j, outcome, attempt, today, now, cfg);
    var e := FindEvent(s.events, s.jobs[j].key).value;
    JobsKeepEvents(s, r.events);
    forall i | 0 <= i < |r.jobs| ensures FindEvent(r.events, r.jobs[i].key).Some? {
      assert r.jobs[i].key == s.jobs[i].key;
    }
    forall f, i | 0 <= f < |r.events| && 0 <= i < |r.jobs| && OnCurrentWindow(r.jobs[i], r.events[f])
      ensures IsActive(r.jobs[i])
    {
      if f != e {
        assert r.events[f] == s.events[f] && i != j && r.jobs[i] == s.jobs[i];
        assert OnCurrentWindow(s.jobs[i], s.events[f]);
      }
    }
  }

  /** Enrichment finds that captures of a trackable tracker are over, which it does not write to the status. */
  predicate EndsCadence(y: System, step: Step, cfg: Settings) {
    step.EnrichStep? && step.session in y.hooks && step.found.Some? &&
    var e := FindEvent(y.store.events, y.hooks[step.session]);
    e.Some? && Reschedules(y.store.events[e.value], step.found.value, step.now, cfg) &&
    EnrichedCadence(y.store.events[e.value], step.found.value, step.today, step.now, cfg).0.None?
  }

  lemma EnrichStaysUnwedged(y: System, step: Step, clock: int, cfg: Settings)
    requires Inv(y) && Unwedged(y.store, clock) && step.EnrichStep? && clock <= step.now && cfg.Positive()
    requires step.session in y.hooks && step.found.Some? && !EndsCadence(y, step, cfg)
    ensures Unwedged(NextEnrich(y, step.session, step.found, step.today, step.now, cfg).store, step.now)
  {
    var s := y.store;
    var r := Enrich(s, y.hooks[step.session], step.found.value, step.today, step.now, cfg);
    JobsKeepEvents(s, r.events);
    forall f, i | 0 <= f < |r.events| && 0 <= i < |r.jobs| && OnCurrentWindow(r.jobs[i], r.events[f])
      ensures IsActive(r.jobs[i])
    {
      if r.events[f].nextCaptureAt == s.events[f].nextCaptureAt {
        assert OnCurrentWindow(s.jobs[i], s.events[f]);
      }
    }
  }

  lemma StepStaysUnwedged(y: System, step: Step, clock: int, cfg: Settings)
    requires Inv(y) && Unwedged(y.store, clock) && NotBefore(step, clock) && !EndsCadence(y, step, cfg) && cfg.Positive()
    ensures Unwedged(Next(y, step, cfg).store, Clock(step, clock))
  {
    match step
    case EnrollStep(key, city, startsAt, onSaleAt) => EnrollStaysUnwedged(y.store, clock, key, city, startsAt, onSaleAt, cfg);
    case GenerateStep(now) => GenerateStaysUnwedged(y.store, clock, now, cfg);
    case RecoverStep(now) => SchedulesUntouched(y.store, Recover(y.store, now), clock, now);
    case ClaimStep(j, worker, now) =>
      if j < |y.store.jobs| { SchedulesUntouched(y.store, Claim(y.store, j, now, worker, cfg), clock, now); }
      SchedulesUntouched(y.store, y.store, clock, now);
    case ReadStep(c) =>
    case CommitStep(c, outcome, today, now) =>
      SchedulesUntouched(y.store, y.store, clock, now);
      if c in y.sessions && y.sessions[c].attempt.Some? {
        CommitStaysUnwedged(y.store, clock, y.sessions[c].job, outcome, y.sessions[c].attempt.value, today, now, cfg);
      }
    case EnrichStep(c, found, today, now) =>
      SchedulesUntouched(y.store, y.store, clock, now);
      if c in y.hooks && found.Some? { EnrichStaysUnwedged(y, step, clock, cfg); }
    case CrashStep(c) =>
    case CaptureNowStep(key, now) => SchedulesUntouched(y.store, InsertCaptureNow(y.store, key, now), clock, now);
  }

  /** Clocks that never go back, and no enrichment that ends a schedule. */
  ghost predicate Ordered(y: System, steps: seq<Step>, clock: int, cfg: Settings)
    requires Inv(y)
    decreases |steps|
  {
    steps == [] ||
    (NotBefore(steps[0], clock) && !EndsCadence(y, steps[0], cfg) &&
     (StepKeepsInv(y, steps[0], cfg); Ordered(Next(y, steps[0], cfg), steps[1..], Clock(steps[0], clock), cfg)))
  }

  function LastClock(steps: seq<Step>, clock: int): int
    decreases |steps|
  {
    if steps == [] then clock else LastClock(steps[1..], Clock(steps[0], clock))
  }

  lemma {:induction false} RunStaysUnwedged(y: System, steps: seq<Step>, clock: int, cfg: Settings)
    requires Inv(y) && Unwedged(y.store, clock) && Ordered(y, steps, clock, cfg) && cfg.Positive()
    ensures Unwedged(Run(y, steps, cfg).store, LastClock(steps, clock))
    decreases |steps|
  {
    if steps != [] {
      StepStaysUnwedged(y, steps[0], clock, cfg);
      StepKeepsInv(y, steps[0], cfg);
      RunStaysUnwedged(Next(y, steps[0], cfg), steps[1..], Clock(steps[0], clock), cfg);
    }
  }

  /** The tracker has a job a worker can take at `now`, or one held under a lease still running. */
  ghost predicate Served(s: Store, te: Tracked, now: int) {
    exists j :: 0 <= j < |s.jobs| && s.jobs[j].key == te.key &&
      ((s.jobs[j].status == Pending && s.jobs[j].scheduledAt <= now) ||
       (s.jobs[j].status == Running && s.jobs[j].lockExpiresAt.Some? && now <= s.jobs[j].lockExpiresAt.value))
  }

  lemma DueTrackerIsServed(s: Store, clock: int, now: int, e: nat, cfg: Settings)
    requires TableInv(s) && Unwedged(s, clock) && clock <= now
    requires e < |s.events| && IsDue(s.events[e], now, cfg)
    ensures Served(Generate(Recover(s, now), now, cfg), s.events[e], now)
  {
    var te := s.events[e];
    var s1 := Recover(s, now);
    var s2 := Generate(s1, now, cfg);
    NewJobsOrigin(s1.events, s1.jobs, now, cfg);
    if HasActive(s1.jobs, te.key) {
      var j :| 0 <= j < |s1.jobs| && s1.jobs[j].key == te.key && IsActive(s1.jobs[j]);
      assert s2.jobs[j] == s1.jobs[j] && s1.jobs[j] == RecoverJob(s.jobs[j], now);
    } else if HasDedup(s1.jobs, te.key, WindowOf(te)) {
      var j :| 0 <= j < |s1.jobs| && s1.jobs[j].key == te.key && s1.jobs[j].window == WindowOf(te);
      assert s1.jobs[j] == RecoverJob(s.jobs[j], now) && IsActive(s.jobs[j]);
      assert false;
    } else {
      var job := NewJob(te, s1.jobs, now, cfg).value;
      var k :| 0 <= k < |NewJobs(s1.events, s1.jobs, now, cfg)| && NewJobs(s1.events, s1.jobs, now, cfg)[k] == job;
      assert s2.jobs[|s1.jobs| + k] == job;
    }
  }

  /** No tracker is ever wedged: start empty, run any number of non-overlapping passes and capture-now
      calls under a clock that never goes back, with no enrichment ending a schedule, crash where you like. Once a
      trackable tracker is due, the first two transactions of the next pass leave it a job to be worked on. */
  lemma NoTrackerIsWedged(steps: seq<Step>, clock: int, now: int, e: nat, cfg: Settings)
    requires cfg.Positive() && Ordered(Start, steps, clock, cfg) && LastClock(steps, clock) <= now
    requires e < |Run(Start, steps, cfg).store.events| && IsDue(Run(Start, steps, cfg).store.events[e], now, cfg)
    ensures var s := Run(Start, steps, cfg).store;
            Served(Generate(Recover(s, now), now, cfg), s.events[e], now)
  {
    RunStaysUnwedged(Start, steps, clock, cfg);
    DueTrackerIsServed(Run(Start, steps, cfg).store, LastClock(steps, clock), now, e, cfg);
  }
}
