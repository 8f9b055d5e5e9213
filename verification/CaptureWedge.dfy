/** Trackers nobody serves any more: exactly when a commit or an enrichment wedges one, that nothing but a
    targeted capture brings it back, and two runs that come to it. */
module CaptureWedge {
  import opened Options
  import opened Cadence
  import opened Classification
  import opened CaptureStore
  import opened CaptureTables
  import opened CaptureRuns
  import opened CaptureInvariants

  /** The current window is used and no job of the tracker is active. */
  ghost predicate Wedged(s: Store, te: Tracked) {
    HasDedup(s.jobs, te.key, WindowOf(te)) && !HasActive(s.jobs, te.key)
  }

  ghost predicate NoneWedged(s: Store) {
    forall e :: 0 <= e < |s.events| && IsTrackable(s.events[e]) ==> !Wedged(s, s.events[e])
  }

  /** Being wedged is being due and getting no work: a pass leaves a due tracker an active job exactly
      when it is not wedged. */
  lemma DueTrackerGetsWorkExactlyWhenUnwedged(s: Store, e: nat, now: int, cfg: Settings)
    requires TableInv(s) && e < |s.events| && IsDue(s.events[e], now, cfg)
    ensures HasActive(Generate(Recover(s, now), now, cfg).jobs, s.events[e].key) <==> !Wedged(s, s.events[e])
  {
    var te := s.events[e];
    var s1 := Recover(s, now);
    RecoveryKeepsWork(s, now, te);
    RecoverKeepsTable(s, now);
    GenerateAddsExactlyWhen(s1, e, now, cfg);
  }

  lemma RecoveryKeepsWork(s: Store, now: int, te: Tracked)
    ensures HasActive(Recover(s, now).jobs, te.key) <==> HasActive(s.jobs, te.key)
    ensures HasDedup(Recover(s, now).jobs, te.key, WindowOf(te)) <==> HasDedup(s.jobs, te.key, WindowOf(te))
  {
    var r := Recover(s, now).jobs;
    if j :| 0 <= j < |s.jobs| && s.jobs[j].key == te.key && IsActive(s.jobs[j]) {
      assert r[j].key == te.key && IsActive(r[j]);
    }
    if j :| 0 <= j < |s.jobs| && s.jobs[j].key == te.key && s.jobs[j].window == WindowOf(te) {
      assert r[j].key == te.key && r[j].window == WindowOf(te);
    }
  }

  lemma GenerateAddsExactlyWhen(s: Store, e: nat, now: int, cfg: Settings)
    requires TableInv(s) && e < |s.events| && IsDue(s.events[e], now, cfg)
    ensures HasActive(Generate(s, now, cfg).jobs, s.events[e].key) <==> !Wedged(s, s.events[e])
  {
    var te := s.events[e];
    var r := Generate(s, now, cfg).jobs;
    var added := NewJobs(s.events, s.jobs, now, cfg);
    NewJobsOrigin(s.events, s.jobs, now, cfg);
    if HasActive(s.jobs, te.key) {
      var j :| 0 <= j < |s.jobs| && s.jobs[j].key == te.key && IsActive(s.jobs[j]);
      assert r[j] == s.jobs[j];
    } else if Wedged(s, te) {
      WedgedTrackerGetsNoJob(s, e, now, cfg);
    } else {
      var k :| 0 <= k < |added| && added[k] == NewJob(te, s.jobs, now, cfg).value;
      assert r[|s.jobs| + k] == added[k];
    }
  }

  /** No pass, at any time, creates a job for a wedged tracker. */
  lemma WedgedTrackerGetsNoJob(s: Store, e: nat, now: int, cfg: Settings)
    requires TableInv(s) && e < |s.events| && Wedged(s, s.events[e])
    ensures forall j :: |s.jobs| <= j < |Generate(s, now, cfg).jobs| ==>
              Generate(s, now, cfg).jobs[j].key != s.events[e].key
  {
    var added := NewJobs(s.events, s.jobs, now, cfg);
    NewJobsOrigin(s.events, s.jobs, now, cfg);
    forall k | 0 <= k < |added| ensures added[k].key != s.events[e].key {
      assert CreatedFor(added[k], s.events, s.jobs, now, cfg);
      var f :| 0 <= f < |s.events| && NewJob(s.events[f], s.jobs, now, cfg) == Some(added[k]);
      assert f != e && s.events[f].key == added[k].key;
    }
  }

  // ---- when a commit wedges its tracker -----------------------------------------------------------

  /** The instant a commit schedules its tracker for, if any. */
  function Rescheduled(te: Tracked, outcome: CaptureOutcome, attempt: nat, today: Option<int>, now: int, cfg: Settings): Option<int> {
    Judge(Counted(te, outcome, now), outcome, attempt, today, now, cfg).next
  }

  ghost predicate LastActive(jobs: seq<Job>, j: nat)
    requires j < |jobs|
  {
    forall i :: 0 <= i < |jobs| && i != j && jobs[i].key == jobs[j].key ==> !IsActive(jobs[i])
  }

  /** A commit that schedules a trackable tracker onto a window some job already used, no other job of the
      tracker being active. */
  ghost predicate OntoSpentWindow(s: Store, j: nat, outcome: CaptureOutcome, attempt: nat, today: Option<int>, now: int,
                                  cfg: Settings)
    requires j < |s.jobs| && FindEvent(s.events, s.jobs[j].key).Some?
  {
    var te := s.events[FindEvent(s.events, s.jobs[j].key).value];
    var next := Rescheduled(te, outcome, attempt, today, now, cfg);
    IsTrackable(te) && next.Some? && HasDedup(s.jobs, te.key, At(next.value)) && LastActive(s.jobs, j)
  }

  lemma CommitKeepsKeysAndWindows(s: Store, j: nat, outcome: CaptureOutcome, attempt: nat, today: Option<int>, now: int,
                                  cfg: Settings, key: EventKey, window: Window)
    requires j < |s.jobs| && FindEvent(s.events, s.jobs[j].key).Some?
    ensures HasDedup(Commit(s, j, outcome, attempt, today, now, cfg).jobs, key, window) <==> HasDedup(s.jobs, key, window)
  {
    var r := Commit(s, j, outcome, attempt, today, now, cfg);
    assert forall i :: 0 <= i < |s.jobs| ==> r.jobs[i].key == s.jobs[i].key && r.jobs[i].window == s.jobs[i].window;
    if i :| 0 <= i < |s.jobs| && s.jobs[i].key == key && s.jobs[i].window == window {
      assert r.jobs[i].key == key && r.jobs[i].window == window;
    }
  }

  lemma CommitLeavesActive(s: Store, j: nat, outcome: CaptureOutcome, attempt: nat, today: Option<int>, now: int, cfg: Settings)
    requires j < |s.jobs| && FindEvent(s.events, s.jobs[j].key).Some?
    ensures HasActive(Commit(s, j, outcome, attempt, today, now, cfg).jobs, s.jobs[j].key) <==> !LastActive(s.jobs, j)
  {
    var r := Commit(s, j, outcome, attempt, today, now, cfg);
    if i :| 0 <= i < |s.jobs| && i != j && s.jobs[i].key == s.jobs[j].key && IsActive(s.jobs[i]) {
      assert r.jobs[i] == s.jobs[i];
    }
  }

  /** A commit leaves its tracker trackable and wedged exactly when it reschedules it onto a window already
      used and no other job of the tracker is active. */
  lemma CommitWedgesExactlyWhen(s: Store, j: nat, outcome: CaptureOutcome, attempt: nat, today: Option<int>, now: int,
                                cfg: Settings)
    requires TableInv(s) && j < |s.jobs|
    ensures var e := FindEvent(s.events, s.jobs[j].key).value;
            var r := Commit(s, j, outcome, attempt, today, now, cfg);
            IsTrackable(r.events[e]) && Wedged(r, r.events[e]) <==> OntoSpentWindow(s, j, outcome, attempt, today, now, cfg)
  {
    var e := FindEvent(s.events, s.jobs[j].key).value;
    var next := Rescheduled(s.events[e], outcome, attempt, today, now, cfg);
    CommitLeavesActive(s, j, outcome, attempt, today, now, cfg);
    if next.Some? {
      CommitKeepsKeysAndWindows(s, j, outcome, attempt, today, now, cfg, s.events[e].key, At(next.value));
    }
  }

  /** What is scheduled lies ahead of the commit's clock, so that clock is behind a used window. */
  lemma OnlyAClockBehindWedges(s: Store, j: nat, outcome: CaptureOutcome, attempt: nat, today: Option<int>, now: int,
                               cfg: Settings)
    requires TableInv(s) && j < |s.jobs| && cfg.Positive() && OntoSpentWindow(s, j, outcome, attempt, today, now, cfg)
    ensures exists i :: 0 <= i < |s.jobs| && s.jobs[i].key == s.jobs[j].key && s.jobs[i].window.At?
                        && now < s.jobs[i].window.instant
  {
  }

  /** An enrichment that reschedules a tracker onto a used window, or ends the schedule of one whose first
      window is used, no job of the tracker being active. */
  ghost predicate EnrichedOntoSpent(s: Store, key: EventKey, found: Enrichment, today: Option<int>, now: int, cfg: Settings) {
    var e := FindEvent(s.events, key);
    e.Some? && Reschedules(s.events[e.value], found, now, cfg) && !HasActive(s.jobs, key) &&
    var next := EnrichedCadence(s.events[e.value], found, today, now, cfg).0;
    HasDedup(s.jobs, key, if next.None? then Initial else At(next.value))
  }

  /** The steps that wedge. */
  ghost predicate Wedges(y: System, step: Step, cfg: Settings)
    requires Inv(y)
  {
    match step
    case CommitStep(c, outcome, today, now) =>
      c in y.sessions && y.sessions[c].attempt.Some? &&
      OntoSpentWindow(y.store, y.sessions[c].job, outcome, y.sessions[c].attempt.value, today, now, cfg)
    case EnrichStep(c, found, today, now) =>
      c in y.hooks && found.Some? && EnrichedOntoSpent(y.store, y.hooks[c], found.value, today, now, cfg)
    case _ => false
  }

  /** Rows that stay where they are wedge nobody: windows are only added with an active job. */
  lemma UntouchedStaysUnwedged(s: Store, r: Store)
    requires NoneWedged(s) && |r.events| == |s.events| && |s.jobs| <= |r.jobs|
    requires forall e :: 0 <= e < |s.events| ==>
               r.events[e].key == s.events[e].key && r.events[e].status == s.events[e].status &&
               r.events[e].nextCaptureAt == s.events[e].nextCaptureAt
    requires forall j :: 0 <= j < |s.jobs| ==>
               r.jobs[j].key == s.jobs[j].key && r.jobs[j].window == s.jobs[j].window &&
               (IsActive(s.jobs[j]) ==> IsActive(r.jobs[j]))
    requires forall j :: |s.jobs| <= j < |r.jobs| ==> IsActive(r.jobs[j])
    ensures NoneWedged(r)
  {
    forall e | 0 <= e < |r.events| && IsTrackable(r.events[e]) ensures !Wedged(r, r.events[e]) {
      var te := s.events[e];
      assert !Wedged(s, te);
      if HasActive(s.jobs, te.key) {
        var j :| 0 <= j < |s.jobs| && s.jobs[j].key == te.key && IsActive(s.jobs[j]);
        assert r.jobs[j].key == te.key && IsActive(r.jobs[j]);
      } else if HasDedup(r.jobs, te.key, WindowOf(te)) {
        var j :| 0 <= j < |r.jobs| && r.jobs[j].key == te.key && r.jobs[j].window == WindowOf(te);
      }
    }
  }

  lemma EnrollStaysUnwedged(s: Store, key: EventKey, city: Option<string>, startsAt: Option<int>, onSaleAt: Option<int>,
                            cfg: Settings)
    requires TableInv(s) && NoneWedged(s)
    ensures NoneWedged(Enroll(s, key, city, startsAt, onSaleAt, cfg))
  {
    var r := Enroll(s, key, city, startsAt, onSaleAt, cfg);
    if |r.events| == |s.events| {
      UntouchedStaysUnwedged(s, r);
    } else {
      forall e | 0 <= e < |r.events| && IsTrackable(r.events[e]) ensures !Wedged(r, r.events[e]) {
        if e == |s.events| {
          forall j | 0 <= j < |s.jobs| ensures s.jobs[j].key != key {
            assert FindEvent(s.events, s.jobs[j].key).Some?;
          }
        } else {
          assert !Wedged(s, s.events[e]);
        }
      }
    }
  }

  lemma GenerateStaysUnwedged(s: Store, now: int, cfg: Settings)
    requires TableInv(s) && NoneWedged(s)
    ensures NoneWedged(Generate(s, now, cfg))
  {
    NewJobsArePending(s.events, s.jobs, now, cfg);
    UntouchedStaysUnwedged(s, Generate(s, now, cfg));
  }

  lemma CommitStaysUnwedgedExactlyWhen(s: Store, j: nat, outcome: CaptureOutcome, attempt: nat, today: Option<int>,
                                       now: int, cfg: Settings)
    requires TableInv(s) && NoneWedged(s) && j < |s.jobs|
    ensures NoneWedged(Commit(s, j, outcome, attempt, today, now, cfg)) <==>
            !OntoSpentWindow(s, j, outcome, attempt, today, now, cfg)
  {
    var r := Commit(s, j, outcome, attempt, today, now, cfg);
    var e := FindEvent(s.events, s.jobs[j].key).value;
    CommitWedgesExactlyWhen(s, j, outcome, attempt, today, now, cfg);
    forall f | 0 <= f < |r.events| && f != e && IsTrackable(r.events[f]) ensures !Wedged(r, r.events[f]) {
      CommitSparesOthers(s, j, outcome, attempt, today, now, cfg, f);
    }
  }

  lemma CommitSparesOthers(s: Store, j: nat, outcome: CaptureOutcome, attempt: nat, today: Option<int>, now: int,
                           cfg: Settings, f: nat)
    requires TableInv(s) && j < |s.jobs| && f < |s.events| && f != FindEvent(s.events, s.jobs[j].key).value
    ensures var r := Commit(s, j, outcome, attempt, today, now, cfg);
            r.events[f] == s.events[f] && (Wedged(r, r.events[f]) <==> Wedged(s, s.events[f]))
  {
    var r := Commit(s, j, outcome, attempt, today, now, cfg);
    var te := s.events[f];
    assert te.key != s.jobs[j].key;
    CommitKeepsKeysAndWindows(s, j, outcome, attempt, today, now, cfg, te.key, WindowOf(te));
    assert forall i :: 0 <= i < |s.jobs| && s.jobs[i].key == te.key ==> r.jobs[i] == s.jobs[i];
    if i :| 0 <= i < |s.jobs| && s.jobs[i].key == te.key && IsActive(s.jobs[i]) {
      assert r.jobs[i].key == te.key && IsActive(r.jobs[i]);
    }
  }

  lemma EnrichStaysUnwedgedExactlyWhen(s: Store, key: EventKey, found: Enrichment, today: Option<int>, now: int, cfg: Settings)
    requires TableInv(s) && NoneWedged(s)
    ensures NoneWedged(Enrich(s, key, found, today, now, cfg)) <==> !EnrichedOntoSpent(s, key, found, today, now, cfg)
  {
    var r := Enrich(s, key, found, today, now, cfg);
    var e := FindEvent(s.events, key);
    if e.Some? {
      forall f | 0 <= f < |r.events| && f != e.value && IsTrackable(r.events[f]) ensures !Wedged(r, r.events[f]) {
        assert !Wedged(s, s.events[f]);
      }
      EnrichedIsWedgedExactlyWhen(s, key, found, today, now, cfg);
    }
  }

  lemma EnrichedIsWedgedExactlyWhen(s: Store, key: EventKey, found: Enrichment, today: Option<int>, now: int, cfg: Settings)
    requires TableInv(s) && NoneWedged(s) && FindEvent(s.events, key).Some?
    ensures var e := FindEvent(s.events, key).value;
            var r := Enrich(s, key, found, today, now, cfg);
            IsTrackable(r.events[e]) && Wedged(r, r.events[e]) <==> EnrichedOntoSpent(s, key, found, today, now, cfg)
  {
    var e := FindEvent(s.events, key).value;
    var te := s.events[e];
    if IsTrackable(te) && !Reschedules(te, found, now, cfg) {
      assert !Wedged(s, te);
    }
  }

  lemma StepStaysUnwedgedExactlyWhen(y: System, step: Step, cfg: Settings)
    requires Inv(y) && NoneWedged(y.store)
    ensures NoneWedged(Next(y, step, cfg).store) <==> !Wedges(y, step, cfg)
  {
    match step
    case EnrollStep(key, city, startsAt, onSaleAt) => EnrollStaysUnwedged(y.store, key, city, startsAt, onSaleAt, cfg);
    case GenerateStep(now) => GenerateStaysUnwedged(y.store, now, cfg);
    case RecoverStep(now) => UntouchedStaysUnwedged(y.store, Recover(y.store, now));
    case ClaimStep(j, worker, now) =>
      if j < |y.store.jobs| { UntouchedStaysUnwedged(y.store, Claim(y.store, j, now, worker, cfg)); }
    case ReadStep(c) =>
    case CommitStep(c, outcome, today, now) =>
      if c in y.sessions && y.sessions[c].attempt.Some? {
        CommitStaysUnwedgedExactlyWhen(y.store, y.sessions[c].job, outcome, y.sessions[c].attempt.value, today, now, cfg);
      }
    case EnrichStep(c, found, today, now) =>
      if c in y.hooks && found.Some? {
        EnrichStaysUnwedgedExactlyWhen(y.store, y.hooks[c], found.value, today, now, cfg);
      }
    case CrashStep(c) =>
    case CaptureNowStep(key, now) => UntouchedStaysUnwedged(y.store, InsertCaptureNow(y.store, key, now));
  }

  ghost predicate AlwaysUnwedged(y: System, steps: seq<Step>, cfg: Settings)
    requires Inv(y)
    decreases |steps|
  {
    NoneWedged(y.store) &&
    (steps == [] || (StepKeepsInv(y, steps[0], cfg); AlwaysUnwedged(Next(y, steps[0], cfg), steps[1..], cfg)))
  }

  ghost predicate NeverOntoSpent(y: System, steps: seq<Step>, cfg: Settings)
    requires Inv(y)
    decreases |steps|
  {
    steps == [] ||
    (!Wedges(y, steps[0], cfg) && (StepKeepsInv(y, steps[0], cfg); NeverOntoSpent(Next(y, steps[0], cfg), steps[1..], cfg)))
  }

  /** Over every run, with clocks as they may be: no tracker is ever wedged if and only if no commit and no
      enrichment puts its tracker onto a window already used while no other job of it is active. */
  lemma {:induction false} UnwedgedExactlyWhenNeverOntoSpent(y: System, steps: seq<Step>, cfg: Settings)
    requires Inv(y) && NoneWedged(y.store)
    ensures AlwaysUnwedged(y, steps, cfg) <==> NeverOntoSpent(y, steps, cfg)
    decreases |steps|
  {
    if steps != [] {
      StepKeepsInv(y, steps[0], cfg);
      StepStaysUnwedgedExactlyWhen(y, steps[0], cfg);
      if !Wedges(y, steps[0], cfg) {
        UnwedgedExactlyWhenNeverOntoSpent(Next(y, steps[0], cfg), steps[1..], cfg);
      }
    }
  }

  // ---- a wedge lasts ----------------------------------------------------------------------------------

  /** A wedged tracker that no worker still captures or enriches. */
  ghost predicate Abandoned(y: System, e: nat)
    requires Inv(y)
  {
    e < |y.store.events| && IsTrackable(y.store.events[e]) && Wedged(y.store, y.store.events[e]) &&
    (forall c :: c in y.sessions ==> y.store.jobs[y.sessions[c].job].key != y.store.events[e].key) &&
    (forall c :: c in y.hooks ==> y.hooks[c] != y.store.events[e].key)
  }

  /** A targeted capture of the tracker in a minute not yet used. */
  ghost predicate Rescues(y: System, e: nat, step: Step)
    requires Inv(y) && e < |y.store.events|
  {
    step.CaptureNowStep? && step.key == y.store.events[e].key &&
    !HasDedup(y.store.jobs, step.key, CaptureNow(MinuteOf(step.now)))
  }

  /** Rows that leave a tracker's schedule alone and give it no new job keep it wedged. */
  lemma WedgeStays(s: Store, r: Store, e: nat)
    requires e < |s.events| <= |r.events| && |s.jobs| <= |r.jobs| && Wedged(s, s.events[e])
    requires r.events[e].key == s.events[e].key && r.events[e].nextCaptureAt == s.events[e].nextCaptureAt
    requires forall j :: 0 <= j < |s.jobs| && s.jobs[j].key == s.events[e].key ==>
               r.jobs[j].key == s.jobs[j].key && r.jobs[j].window == s.jobs[j].window &&
               (IsActive(r.jobs[j]) ==> IsActive(s.jobs[j]))
    requires forall j :: 0 <= j < |r.jobs| && r.jobs[j].key == s.events[e].key ==>
               j < |s.jobs| && s.jobs[j].key == s.events[e].key
    ensures Wedged(r, r.events[e])
  {
    var j :| 0 <= j < |s.jobs| && s.jobs[j].key == s.events[e].key && s.jobs[j].window == WindowOf(s.events[e]);
    assert r.jobs[j].key == s.events[e].key && r.jobs[j].window == WindowOf(r.events[e]);
  }

  /** What an abandoned tracker is left with: its schedule and its jobs. */
  ghost predicate LeftAlone(s: Store, r: Store, e: nat)
    requires e < |s.events|
  {
    e < |r.events| && |s.jobs| <= |r.jobs| && r.events[e].nextCaptureAt == s.events[e].nextCaptureAt &&
    r.events[e].key == s.events[e].key &&
    forall j :: |s.jobs| <= j < |r.jobs| ==> r.jobs[j].key != s.events[e].key
  }

  lemma AbandonedEnroll(y: System, e: nat, step: Step, cfg: Settings)
    requires Inv(y) && Abandoned(y, e) && step.EnrollStep? && Inv(Next(y, step, cfg))
    ensures Abandoned(Next(y, step, cfg), e) && LeftAlone(y.store, Next(y, step, cfg).store, e)
  {
    WedgeStays(y.store, Next(y, step, cfg).store, e);
  }

  lemma AbandonedGenerate(y: System, e: nat, now: int, cfg: Settings)
    requires Inv(y) && Abandoned(y, e) && Inv(GrowTo(y, Generate(y.store, now, cfg)))
    ensures Abandoned(GrowTo(y, Generate(y.store, now, cfg)), e)
    ensures LeftAlone(y.store, Generate(y.store, now, cfg), e)
  {
    WedgedTrackerGetsNoJob(y.store, e, now, cfg);
    WedgeStays(y.store, Generate(y.store, now, cfg), e);
  }

  lemma AbandonedRecover(y: System, e: nat, now: int)
    requires Inv(y) && Abandoned(y, e) && Inv(NextRecover(y, now))
    ensures Abandoned(NextRecover(y, now), e) && LeftAlone(y.store, NextRecover(y, now).store, e)
  {
    WedgeStays(y.store, Recover(y.store, now), e);
  }

  lemma AbandonedClaim(y: System, e: nat, j: nat, worker: string, now: int, cfg: Settings)
    requires Inv(y) && Abandoned(y, e) && j < |y.store.jobs| && y.store.jobs[j].status == Pending
    requires Inv(NextClaim(y, j, worker, now, cfg))
    ensures Abandoned(NextClaim(y, j, worker, now, cfg), e) && LeftAlone(y.store, NextClaim(y, j, worker, now, cfg).store, e)
  {
    assert y.store.jobs[j].key != y.store.events[e].key by {
      assert IsActive(y.store.jobs[j]);
    }
    WedgeStays(y.store, Claim(y.store, j, now, worker, cfg), e);
  }

  lemma AbandonedCommit(y: System, e: nat, c: nat, outcome: CaptureOutcome, today: Option<int>, now: int, cfg: Settings)
    requires Inv(y) && Abandoned(y, e) && c in y.sessions && y.sessions[c].attempt.Some?
    requires Inv(NextCommit(y, c, outcome, today, now, cfg))
    ensures Abandoned(NextCommit(y, c, outcome, today, now, cfg), e)
    ensures LeftAlone(y.store, NextCommit(y, c, outcome, today, now, cfg).store, e)
  {
    var j := y.sessions[c].job;
    CommitSparesOthers(y.store, j, outcome, y.sessions[c].attempt.value, today, now, cfg, e);
  }

  lemma AbandonedEnrich(y: System, e: nat, c: nat, found: Option<Enrichment>, today: Option<int>, now: int, cfg: Settings)
    requires Inv(y) && Abandoned(y, e) && c in y.hooks && Inv(NextEnrich(y, c, found, today, now, cfg))
    ensures Abandoned(NextEnrich(y, c, found, today, now, cfg), e)
    ensures LeftAlone(y.store, NextEnrich(y, c, found, today, now, cfg).store, e)
  {
  }

  lemma CaptureNowRescuesExactlyWhenNew(y: System, e: nat, step: Step, cfg: Settings)
    requires Inv(y) && Abandoned(y, e) && step.CaptureNowStep? && Inv(Next(y, step, cfg))
    ensures Abandoned(Next(y, step, cfg), e) <==> !Rescues(y, e, step)
    ensures !Rescues(y, e, step) ==> LeftAlone(y.store, Next(y, step, cfg).store, e)
  {
    var r := Next(y, step, cfg).store;
    if Rescues(y, e, step) {
      assert FindEvent(y.store.events, step.key).Some?;
      assert IsActive(r.jobs[|y.store.jobs|]) && r.jobs[|y.store.jobs|].key == y.store.events[e].key;
    } else {
      WedgeStays(y.store, r, e);
    }
  }

  lemma SessionStepKeepsAbandoned(y: System, e: nat, step: Step, cfg: Settings)
    requires Inv(y) && Abandoned(y, e) && Inv(Next(y, step, cfg))
    requires step.ClaimStep? || step.ReadStep? || step.CommitStep? || step.EnrichStep? || step.CrashStep?
    ensures Abandoned(Next(y, step, cfg), e) && LeftAlone(y.store, Next(y, step, cfg).store, e)
  {
    match step
    case ClaimStep(j, worker, now) =>
      if j < |y.store.jobs| && y.store.jobs[j].status == Pending { AbandonedClaim(y, e, j, worker, now, cfg); }
    case CommitStep(c, outcome, today, now) =>
      if c in y.sessions && y.sessions[c].attempt.Some? { AbandonedCommit(y, e, c, outcome, today, now, cfg); }
    case EnrichStep(c, found, today, now) =>
      if c in y.hooks { AbandonedEnrich(y, e, c, found, today, now, cfg); }
    case _ =>
  }

  lemma StepKeepsAbandonedExactlyWhen(y: System, e: nat, step: Step, cfg: Settings)
    requires Inv(y) && Abandoned(y, e) && Inv(Next(y, step, cfg))
    ensures Abandoned(Next(y, step, cfg), e) <==> !Rescues(y, e, step)
    ensures !Rescues(y, e, step) ==> LeftAlone(y.store, Next(y, step, cfg).store, e)
  {
    match step
    case EnrollStep(_, _, _, _) => AbandonedEnroll(y, e, step, cfg);
    case GenerateStep(now) => AbandonedGenerate(y, e, now, cfg);
    case RecoverStep(now) => AbandonedRecover(y, e, now);
    case CaptureNowStep(_, _) => CaptureNowRescuesExactlyWhenNew(y, e, step, cfg);
    case _ => SessionStepKeepsAbandoned(y, e, step, cfg);
  }

  ghost predicate AlwaysAbandoned(y: System, e: nat, steps: seq<Step>, cfg: Settings)
    requires Inv(y)
    decreases |steps|
  {
    Abandoned(y, e) &&
    (steps == [] || (StepKeepsInv(y, steps[0], cfg); AlwaysAbandoned(Next(y, steps[0], cfg), e, steps[1..], cfg)))
  }

  ghost predicate NeverRescued(y: System, e: nat, steps: seq<Step>, cfg: Settings)
    requires Inv(y) && e < |y.store.events|
    decreases |steps|
  {
    steps == [] ||
    (!Rescues(y, e, steps[0]) && (StepKeepsInv(y, steps[0], cfg); NeverRescued(Next(y, steps[0], cfg), e, steps[1..], cfg)))
  }

  /** A wedge lasts: through every run, whatever its passes, clocks and crashes, the tracker stays wedged
      if and only if no targeted capture of it is inserted. */
  lemma {:induction false} WedgeLastsExactlyUntilRescued(y: System, e: nat, steps: seq<Step>, cfg: Settings)
    requires Inv(y) && Abandoned(y, e)
    ensures AlwaysAbandoned(y, e, steps, cfg) <==> NeverRescued(y, e, steps, cfg)
    decreases |steps|
  {
    if steps != [] {
      StepKeepsInv(y, steps[0], cfg);
      StepKeepsAbandonedExactlyWhen(y, e, steps[0], cfg);
      if !Rescues(y, e, steps[0]) {
        WedgeLastsExactlyUntilRescued(Next(y, steps[0], cfg), e, steps[1..], cfg);
      }
    }
  }

  lemma LeftAloneTwice(s: Store, r: Store, t: Store, e: nat)
    requires e < |s.events| && LeftAlone(s, r, e) && LeftAlone(r, t, e) && Progressed(r, t)
    ensures LeftAlone(s, t, e)
  {
  }

  /** Until then it keeps its window and no job of it is created. */
  lemma {:induction false} AbandonedIsLeftAlone(y: System, e: nat, steps: seq<Step>, cfg: Settings)
    requires Inv(y) && Abandoned(y, e) && NeverRescued(y, e, steps, cfg)
    ensures LeftAlone(y.store, Run(y, steps, cfg).store, e)
    decreases |steps|
  {
    if steps != [] {
      StepKeepsInv(y, steps[0], cfg);
      StepKeepsAbandonedExactlyWhen(y, e, steps[0], cfg);
      var z := Next(y, steps[0], cfg);
      AbandonedIsLeftAlone(z, e, steps[1..], cfg);
      TablesAlwaysConsistent(z, steps[1..], cfg);
      LeftAloneTwice(y.store, z.store, Run(z, steps[1..], cfg).store, e);
    }
  }

  // ---- an overlap that wedges -------------------------------------------------------------------------

  const CAPTURED := CaptureOutcome(RecordPresent, None, None)

  ghost predicate Reaches(steps: seq<Step>, y: System, cfg: Settings) {
    Inv(y) && Run(Start, steps, cfg) == y
  }

  lemma ThenStep(steps: seq<Step>, y: System, step: Step, cfg: Settings)
    requires Reaches(steps, y, cfg)
    ensures Reaches(steps + [step], Next(y, step, cfg), cfg)
  {
    StepKeepsInv(y, step, cfg);
    RunConcat(Start, steps, [step], cfg);
    RunHead(y, [step], cfg);
  }

  /** One tracker, of an event that started at 0, due at `next`, with its jobs in the order of their creation. */
  ghost predicate Tracks(y: System, key: EventKey, next: Option<int>, windows: seq<Window>, statuses: seq<JobStatus>) {
    && |y.store.events| == 1 && y.store.events[0].key == key && y.store.events[0].status == Active
    && y.store.events[0].timing == Timing(Some(0), None, None, None) && y.store.events[0].eventStatus.None?
    && y.store.events[0].city.None? && y.store.events[0].nextCaptureAt == next
    && |y.store.jobs| == |windows| == |statuses|
    && forall j :: 0 <= j < |windows| ==>
         y.store.jobs[j].key == key && y.store.jobs[j].window == windows[j] && y.store.jobs[j].status == statuses[j]
  }

  lemma Enrols(key: EventKey, cfg: Settings) returns (steps: seq<Step>, y: System)
    requires key.source in cfg.sources && cfg.maxTracked >= 1
    ensures Reaches(steps, y, cfg) && Tracks(y, key, None, [], []) && y.sessions == map[] && y.nextSession == 0 && y.hooks == map[]
  {
    var step := EnrollStep(key, None, Some(0), None);
    ThenStep([], Start, step, cfg);
    steps, y := [] + [step], Next(Start, step, cfg);
  }

  lemma Generates(before: seq<Step>, x: System, key: EventKey, next: Option<int>, windows: seq<Window>,
                  statuses: seq<JobStatus>, now: int, cfg: Settings) returns (steps: seq<Step>, y: System)
    requires Reaches(before, x, cfg) && Tracks(x, key, next, windows, statuses) && key.source in cfg.sources
    requires next.None? || next.value <= now
    requires forall k :: 0 <= k < |windows| ==> windows[k] != WindowOf(x.store.events[0]) && statuses[k] == Succeeded
    ensures Reaches(steps, y, cfg) && y.sessions == x.sessions && y.nextSession == x.nextSession && y.hooks == x.hooks
    ensures Tracks(y, key, next, windows + [WindowOf(x.store.events[0])], statuses + [Pending])
  {
    ThenStep(before, x, GenerateStep(now), cfg);
    steps, y := before + [GenerateStep(now)], Next(x, GenerateStep(now), cfg);
    var te := x.store.events[0];
    assert x.store.events[..0] == [];
    assert NewJobs(x.store.events, x.store.jobs, now, cfg) == [NewJob(te, x.store.jobs, now, cfg).value];
  }

  lemma Requests(before: seq<Step>, x: System, key: EventKey, next: Option<int>, windows: seq<Window>,
                 statuses: seq<JobStatus>, now: int, cfg: Settings) returns (steps: seq<Step>, y: System)
    requires Reaches(before, x, cfg) && Tracks(x, key, next, windows, statuses)
    requires forall k :: 0 <= k < |windows| ==> !windows[k].CaptureNow?
    ensures Reaches(steps, y, cfg) && y.sessions == x.sessions && y.nextSession == x.nextSession && y.hooks == x.hooks
    ensures Tracks(y, key, next, windows + [CaptureNow(MinuteOf(now))], statuses + [Pending])
  {
    ThenStep(before, x, CaptureNowStep(key, now), cfg);
    steps, y := before + [CaptureNowStep(key, now)], Next(x, CaptureNowStep(key, now), cfg);
    assert x.store.events[0].key == key && FindEvent(x.store.events, key).Some?;
  }

  /** A worker claims job `j` and reads it. */
  lemma Takes(before: seq<Step>, x: System, key: EventKey, next: Option<int>, windows: seq<Window>,
              statuses: seq<JobStatus>, j: nat, worker: string, now: int, cfg: Settings) returns (steps: seq<Step>, y: System)
    requires Reaches(before, x, cfg) && Tracks(x, key, next, windows, statuses) && j < |windows| && statuses[j] == Pending
    ensures Reaches(steps, y, cfg) && Tracks(y, key, next, windows, statuses[j := Running]) && y.hooks == x.hooks
    ensures y.nextSession == x.nextSession + 1 && y.sessions.Keys == x.sessions.Keys + {x.nextSession}
    ensures y.sessions[x.nextSession].job == j && y.sessions[x.nextSession].attempt.Some?
    ensures forall c :: c in x.sessions ==> c in y.sessions && y.sessions[c] == x.sessions[c]
  {
    ThenStep(before, x, ClaimStep(j, worker, now), cfg);
    var z := Next(x, ClaimStep(j, worker, now), cfg);
    ThenStep(before + [ClaimStep(j, worker, now)], z, ReadStep(x.nextSession), cfg);
    steps := before + [ClaimStep(j, worker, now)] + [ReadStep(x.nextSession)];
    y := Next(z, ReadStep(x.nextSession), cfg);
  }

  /** Session `c` commits a record that was present. */
  lemma Commits(before: seq<Step>, x: System, key: EventKey, next: Option<int>, windows: seq<Window>,
                statuses: seq<JobStatus>, c: nat, now: int, cfg: Settings) returns (steps: seq<Step>, y: System)
    requires Reaches(before, x, cfg) && Tracks(x, key, next, windows, statuses) && now >= 0
    requires c in x.sessions && x.sessions[c].attempt.Some?
    requires FirstFollowUp(0, cfg.cadence.postEventOffsetsDays, now).Some?
    ensures Reaches(steps, y, cfg) && y.sessions == x.sessions - {c} && y.nextSession == x.nextSession
    ensures y.hooks == x.hooks[c := key]
    ensures Tracks(y, key, FirstFollowUp(0, cfg.cadence.postEventOffsetsDays, now), windows,
                   statuses[x.sessions[c].job := Succeeded])
  {
    ThenStep(before, x, CommitStep(c, CAPTURED, None, now), cfg);
    steps, y := before + [CommitStep(c, CAPTURED, None, now)], Next(x, CommitStep(c, CAPTURED, None, now), cfg);
  }

  /** Enrichment after a capture finds nothing. */
  lemma FindsNothing(before: seq<Step>, x: System, key: EventKey, next: Option<int>, windows: seq<Window>,
                     statuses: seq<JobStatus>, c: nat, now: int, cfg: Settings) returns (steps: seq<Step>, y: System)
    requires Reaches(before, x, cfg) && Tracks(x, key, next, windows, statuses) && c in x.hooks
    ensures Reaches(steps, y, cfg) && Tracks(y, key, next, windows, statuses)
    ensures y.sessions == x.sessions && y.nextSession == x.nextSession && y.hooks == x.hooks - {c}
  {
    ThenStep(before, x, EnrichStep(c, None, None, now), cfg);
    steps, y := before + [EnrichStep(c, None, None, now)], Next(x, EnrichStep(c, None, None, now), cfg);
  }

  /** Captured for the first time at 1: the next capture is the first follow-up. */
  lemma FirstCapture(key: EventKey, cfg: Settings) returns (steps: seq<Step>, y: System)
    requires key.source in cfg.sources && cfg.maxTracked >= 1
    requires FirstFollowUp(0, cfg.cadence.postEventOffsetsDays, 1).Some?
    ensures Reaches(steps, y, cfg) && y.sessions == map[] && y.nextSession == 1 && y.hooks == map[0 := key]
    ensures Tracks(y, key, FirstFollowUp(0, cfg.cadence.postEventOffsetsDays, 1), [Initial], [Succeeded])
  {
    steps, y := Enrols(key, cfg);
    steps, y := Generates(steps, y, key, None, [], [], 1, cfg);
    steps, y := Takes(steps, y, key, None, [] + [Initial], [] + [Pending], 0, "pass", 1, cfg);
    steps, y := Commits(steps, y, key, None, [Initial], [Running], 0, 1, cfg);
    assert y.sessions == map[];
  }

  /** At the first follow-up `due` its job is created, and a targeted capture stamped just before is inserted. */
  lemma BothCreated(key: EventKey, due: int, cfg: Settings) returns (steps: seq<Step>, y: System)
    requires key.source in cfg.sources && cfg.maxTracked >= 1
    requires FirstFollowUp(0, cfg.cadence.postEventOffsetsDays, 1) == Some(due)
    ensures Reaches(steps, y, cfg) && y.sessions == map[] && y.nextSession == 1 && y.hooks == map[]
    ensures Tracks(y, key, Some(due), [Initial, At(due), CaptureNow(MinuteOf(due - 1))], [Succeeded, Pending, Pending])
  {
    steps, y := FirstCapture(key, cfg);
    steps, y := FindsNothing(steps, y, key, Some(due), [Initial], [Succeeded], 0, 1, cfg);
    assert y.hooks == map[];
    steps, y := Generates(steps, y, key, Some(due), [Initial], [Succeeded], due, cfg);
    steps, y := Requests(steps, y, key, Some(due), [Initial] + [At(due)], [Succeeded] + [Pending], due - 1, cfg);
    assert [Initial] + [At(due)] + [CaptureNow(MinuteOf(due - 1))] == [Initial, At(due), CaptureNow(MinuteOf(due - 1))];
    assert [Succeeded] + [Pending] + [Pending] == [Succeeded, Pending, Pending];
  }

  /** A pass and the operator's request have each taken theirs. */
  lemma BothTaken(key: EventKey, due: int, cfg: Settings) returns (steps: seq<Step>, y: System)
    requires key.source in cfg.sources && cfg.maxTracked >= 1
    requires FirstFollowUp(0, cfg.cadence.postEventOffsetsDays, 1) == Some(due)
    ensures Reaches(steps, y, cfg) && y.sessions.Keys == {1, 2} && y.sessions[1].job == 1 && y.sessions[2].job == 2
    ensures y.sessions[1].attempt.Some? && y.sessions[2].attempt.Some? && y.hooks == map[]
    ensures Tracks(y, key, Some(due), [Initial, At(due), CaptureNow(MinuteOf(due - 1))], [Succeeded, Running, Running])
  {
    var windows := [Initial, At(due), CaptureNow(MinuteOf(due - 1))];
    steps, y := BothCreated(key, due, cfg);
    steps, y := Takes(steps, y, key, Some(due), windows, [Succeeded, Pending, Pending], 1, "pass", due, cfg);
    assert [Succeeded, Pending, Pending][1 := Running] == [Succeeded, Running, Pending];
    steps, y := Takes(steps, y, key, Some(due), windows, [Succeeded, Running, Pending], 2, "operator", due - 1, cfg);
    assert [Succeeded, Running, Pending][2 := Running] == [Succeeded, Running, Running];
  }

  /** A commit whose enrichment finds nothing: the tracker is next due at `again`. */
  lemma Finishes(before: seq<Step>, x: System, key: EventKey, next: Option<int>, windows: seq<Window>,
                 statuses: seq<JobStatus>, c: nat, now: int, again: int, cfg: Settings) returns (steps: seq<Step>, y: System)
    requires Reaches(before, x, cfg) && Tracks(x, key, next, windows, statuses) && now >= 0
    requires c in x.sessions && x.sessions[c].attempt.Some? && x.hooks == map[]
    requires FirstFollowUp(0, cfg.cadence.postEventOffsetsDays, now) == Some(again)
    ensures Reaches(steps, y, cfg) && y.sessions == x.sessions - {c} && y.hooks == map[]
    ensures Tracks(y, key, Some(again), windows, statuses[x.sessions[c].job := Succeeded])
  {
    steps, y := Commits(before, x, key, next, windows, statuses, c, now, cfg);
    steps, y := FindsNothing(steps, y, key, Some(again), windows, statuses[x.sessions[c].job := Succeeded], c, now, cfg);
    assert y.hooks == map[];
  }

  /** The pass commits first. */
  lemma PassCommitted(key: EventKey, due: int, later: int, cfg: Settings) returns (steps: seq<Step>, y: System)
    requires key.source in cfg.sources && cfg.maxTracked >= 1 && due >= 0
    requires FirstFollowUp(0, cfg.cadence.postEventOffsetsDays, 1) == Some(due)
    requires FirstFollowUp(0, cfg.cadence.postEventOffsetsDays, due) == Some(later)
    ensures Reaches(steps, y, cfg) && y.sessions.Keys == {2} && y.hooks == map[]
    ensures y.sessions[2].job == 2 && y.sessions[2].attempt.Some?
    ensures Tracks(y, key, Some(later), [Initial, At(due), CaptureNow(MinuteOf(due - 1))], [Succeeded, Succeeded, Running])
  {
    steps, y := BothTaken(key, due, cfg);
    steps, y := Finishes(steps, y, key, Some(due), [Initial, At(due), CaptureNow(MinuteOf(due - 1))],
                         [Succeeded, Running, Running], 1, due, later, cfg);
    assert [Succeeded, Running, Running][1 := Succeeded] == [Succeeded, Succeeded, Running];
  }

  /** The operator's request, committing last, puts the tracker back on the window of the pass. */
  lemma RequestCommitted(before: seq<Step>, x: System, key: EventKey, due: int, later: int, cfg: Settings)
    returns (steps: seq<Step>)
    requires Reaches(before, x, cfg) && x.sessions.Keys == {2} && x.sessions[2].attempt.Some? && x.hooks == map[]
    requires x.sessions[2].job == 2 && due >= 1
    requires Tracks(x, key, Some(later), [Initial, At(due), CaptureNow(MinuteOf(due - 1))], [Succeeded, Succeeded, Running])
    requires FirstFollowUp(0, cfg.cadence.postEventOffsetsDays, due - 1) == Some(due)
    ensures Abandoned(Run(Start, steps, cfg), 0)
  {
    var y: System;
    steps, y := Finishes(before, x, key, Some(later), [Initial, At(due), CaptureNow(MinuteOf(due - 1))],
                         [Succeeded, Succeeded, Running], 2, due - 1, due, cfg);
    assert y.store.jobs[1].key == key && y.store.jobs[1].window == WindowOf(y.store.events[0]);
    assert y.sessions.Keys == {};
  }

  /** Two requests a microsecond apart wedge a tracker. The pass creates and claims the job of the first
      follow-up of an event; a targeted capture stamped just before it is inserted; the pass commits first, and
      the targeted capture then schedules the follow-up that has just been done. */
  lemma OverlapWedges(key: EventKey, cfg: Settings) returns (steps: seq<Step>)
    requires key.source in cfg.sources && cfg.maxTracked >= 1 && |cfg.cadence.postEventOffsetsDays| >= 2
    requires 1 <= cfg.cadence.postEventOffsetsDays[0] < cfg.cadence.postEventOffsetsDays[1]
    ensures Abandoned(Run(Start, steps, cfg), 0)
  {
    var offsets := cfg.cadence.postEventOffsetsDays;
    var due := offsets[0] * DAY;
    assert offsets[1..][0] == offsets[1];
    var before, x := PassCommitted(key, due, offsets[1] * DAY, cfg);
    steps := RequestCommitted(before, x, key, due, offsets[1] * DAY, cfg);
  }

  /** Enrichment alone wedges, with no overlap: dates that put the event and all its follow-ups in the past end the
      schedule but leave the tracker ACTIVE, due in every pass and served by none. */
  lemma EnrichmentWedges(key: EventKey, start: int, cfg: Settings) returns (steps: seq<Step>)
    requires key.source in cfg.sources && cfg.maxTracked >= 1 && start < 0
    requires FirstFollowUp(0, cfg.cadence.postEventOffsetsDays, 1).Some?
    requires forall i :: 0 <= i < |cfg.cadence.postEventOffsetsDays| ==> start + cfg.cadence.postEventOffsetsDays[i] * DAY <= 1
    ensures var y := Run(Start, steps, cfg);
            Abandoned(y, 0) && forall now :: IsDue(y.store.events[0], now, cfg)
  {
    var y: System;
    steps, y := FirstCapture(key, cfg);
    var found := Enrichment(Some(start), None, None, None, false);
    ThenStep(steps, y, EnrichStep(0, Some(found), None, 1), cfg);
    steps := steps + [EnrichStep(0, Some(found), None, 1)];
    assert EnrichedCadence(y.store.events[0], found, None, 1, cfg).0.None?;
    var z := Next(y, EnrichStep(0, Some(found), None, 1), cfg);
    assert z.store.jobs[0].key == key && z.store.jobs[0].window == WindowOf(z.store.events[0]);
    assert z.hooks == map[];
  }
}
