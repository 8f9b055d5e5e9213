/** What every run of the capture scheduler keeps, with no assumption on clocks, leases or who commits when: its
    tables, its attempt counts and its trackers' counters. */
module CaptureInvariants {
  import opened Options
  import opened Classification
  import opened CaptureStore
  import opened CaptureTables
  import opened CaptureRuns

  // ---- the job table, with no assumption on timing ---------------------------------------------

  /** Whatever workers do, late commits included: in every reachable state the table invariant holds,
      and along every run completed jobs stay completed and stopped trackers stay stopped. */
  lemma {:induction false} TablesAlwaysConsistent(y: System, steps: seq<Step>, cfg: Settings)
    requires Inv(y)
    ensures TableInv(Run(y, steps, cfg).store) && Progressed(y.store, Run(y, steps, cfg).store)
    decreases |steps|
  {
    if steps != [] {
      StepKeepsInv(y, steps[0], cfg);
      TablesAlwaysConsistent(Next(y, steps[0], cfg), steps[1..], cfg);
    }
  }

  /** `attempt_count` counts claims, and claims pair with recoveries. */
  ghost predicate ClaimsPaired(job: Job, h: History) {
    job.attemptCount == h.claims && h.recoveries <= h.claims <= h.recoveries + 1 &&
    (job.status == Running ==> h.claims == h.recoveries + 1) &&
    (job.status == Pending ==> h.claims == h.recoveries)
  }

  ghost predicate AttemptsCounted(y: System)
    requires Inv(y)
  {
    forall j :: 0 <= j < |y.store.jobs| ==> ClaimsPaired(y.store.jobs[j], y.history[j])
  }

  lemma GrowthKeepsAttempts(y: System, r: System)
    requires Inv(y) && AttemptsCounted(y) && Inv(r) && |y.store.jobs| <= |r.store.jobs|
    requires forall j :: 0 <= j < |y.store.jobs| ==> r.store.jobs[j] == y.store.jobs[j] && r.history[j] == y.history[j]
    requires forall j :: |y.store.jobs| <= j < |r.store.jobs| ==>
               r.store.jobs[j].status == Pending && r.store.jobs[j].attemptCount == 0 && r.history[j] == History(0, 0, 0)
    ensures AttemptsCounted(r)
  {
  }

  lemma NewJobsArePending(events: seq<Tracked>, flushed: seq<Job>, now: int, cfg: Settings)
    requires EventsUnique(events)
    ensures forall k :: 0 <= k < |NewJobs(events, flushed, now, cfg)| ==>
              NewJobs(events, flushed, now, cfg)[k].status == Pending &&
              NewJobs(events, flushed, now, cfg)[k].attemptCount == 0
  {
  }

  lemma SessionStepKeepsAttempts(y: System, step: Step, cfg: Settings)
    requires Inv(y) && AttemptsCounted(y) && Inv(Next(y, step, cfg))
    requires step.ClaimStep? || step.ReadStep? || step.CommitStep? || step.CrashStep?
    ensures AttemptsCounted(Next(y, step, cfg))
  {
  }

  lemma StepKeepsAttempts(y: System, step: Step, cfg: Settings)
    requires Inv(y) && AttemptsCounted(y) && Inv(Next(y, step, cfg))
    ensures AttemptsCounted(Next(y, step, cfg))
  {
    if step.GenerateStep? {
      NewJobsArePending(y.store.events, y.store.jobs, step.now, cfg);
      GrowthKeepsAttempts(y, Next(y, step, cfg));
    } else if step.CaptureNowStep? {
      GrowthKeepsAttempts(y, Next(y, step, cfg));
    } else if !step.RecoverStep? && !step.EnrollStep? && !step.EnrichStep? {
      SessionStepKeepsAttempts(y, step, cfg);
    }
  }

  lemma {:induction false} AttemptsAlwaysCounted(y: System, steps: seq<Step>, cfg: Settings)
    requires Inv(y) && AttemptsCounted(y)
    ensures AttemptsCounted(Run(y, steps, cfg))
    decreases |steps|
  {
    if steps != [] {
      StepKeepsInv(y, steps[0], cfg);
      StepKeepsAttempts(y, steps[0], cfg);
      AttemptsAlwaysCounted(Next(y, steps[0], cfg), steps[1..], cfg);
    }
  }

  // ---- the tracker's counters refine its result log -----------------------------------------------

  predicate IsFailure(code: Code) {
    code !in {RecordPresent, RecordAbsent}
  }

  function TrailingFailures(log: seq<Code>): nat {
    if log == [] || !IsFailure(log[|log| - 1]) then 0 else 1 + TrailingFailures(log[..|log| - 1])
  }

  /** ABSENT results since the last PRESENT; failures in between neither add nor reset. */
  function AbsencesSincePresent(log: seq<Code>): nat {
    if log == [] || log[|log| - 1] == RecordPresent then 0
    else (if log[|log| - 1] == RecordAbsent then 1 else 0) + AbsencesSincePresent(log[..|log| - 1])
  }

  function Observations(log: seq<Code>): nat {
    if log == [] then 0
    else (if IsFailure(log[|log| - 1]) then 0 else 1) + Observations(log[..|log| - 1])
  }

  ghost predicate CountersMatch(te: Tracked, log: seq<Code>) {
    te.consecutiveFailures == TrailingFailures(log) && te.consecutiveAbsences == AbsencesSincePresent(log) &&
    te.captureCount == Observations(log) &&
    (te.lastCaptureStatus == if log == [] then None else Some(log[|log| - 1]))
  }

  ghost predicate CountersRefineLogs(y: System)
    requires Inv(y)
  {
    forall e :: 0 <= e < |y.store.events| ==> CountersMatch(y.store.events[e], y.results[e])
  }

  lemma CommitExtendsLog(te: Tracked, log: seq<Code>, outcome: CaptureOutcome, attempt: nat, today: Option<int>,
                         now: int, cfg: Settings)
    requires CountersMatch(te, log)
    ensures CountersMatch(CommittedEvent(te, outcome, attempt, today, now, cfg), log + [outcome.code])
  {
  }

  lemma StepKeepsCounters(y: System, step: Step, cfg: Settings)
    requires Inv(y) && CountersRefineLogs(y) && Inv(Next(y, step, cfg))
    ensures CountersRefineLogs(Next(y, step, cfg))
  {
    if step.CommitStep? && step.session in y.sessions && y.sessions[step.session].attempt.Some? {
      var e := FindEvent(y.store.events, y.store.jobs[y.sessions[step.session].job].key).value;
      CommitExtendsLog(y.store.events[e], y.results[e], step.outcome, y.sessions[step.session].attempt.value,
                       step.today, step.now, cfg);
    }
  }

  /** Whatever else happens between commits, a tracker's counters are functions of its result log. */
  lemma {:induction false} CountersAlwaysRefineLogs(y: System, steps: seq<Step>, cfg: Settings)
    requires Inv(y) && CountersRefineLogs(y)
    ensures CountersRefineLogs(Run(y, steps, cfg))
    decreases |steps|
  {
    if steps != [] {
      StepKeepsInv(y, steps[0], cfg);
      StepKeepsCounters(y, steps[0], cfg);
      CountersAlwaysRefineLogs(Next(y, steps[0], cfg), steps[1..], cfg);
    }
  }

  /** From an empty database, after any steps at all: consistent tables, attempts paired with recoveries,
      and counters that tell the truth about every tracker's results. */
  lemma EveryReachableState(steps: seq<Step>, cfg: Settings)
    ensures var y := Run(Start, steps, cfg);
            TableInv(y.store) && AttemptsCounted(y) && CountersRefineLogs(y)
  {
    AttemptsAlwaysCounted(Start, steps, cfg);
    CountersAlwaysRefineLogs(Start, steps, cfg);
  }
}
