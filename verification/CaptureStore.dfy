/** The two tables of the capture scheduler and its database transactions as functions on them:
    crawl-service `service.py`. A row's position in a table stands for its generated id, so ids are
    never reused and rows are never deleted. */
module CaptureStore {
  import opened Options
  import opened Cadence
  import opened Classification

  const SECOND: int := 1_000_000
  const MINUTE: int := 60 * SECOND

  datatype EventKey = EventKey(source: string, recordId: string)

  /** The capture window in a job's dedup key. */
  datatype Window = Initial | At(instant: int) | CaptureNow(minute: int)

  datatype JobStatus = Pending | Running | Succeeded | FailedRetryable | FailedTerminal

  datatype Tracked = Tracked(
    key: EventKey, city: Option<string>, timing: Timing, status: TrackingStatus,
    eventStatus: Option<Lifecycle>, lastAttemptAt: Option<int>, lastSuccessAt: Option<int>,
    lastRecordPresentAt: Option<int>, lastStateChangeAt: Option<int>, nextCaptureAt: Option<int>,
    cadenceReason: Option<Reason>, priority: int, consecutiveFailures: nat, consecutiveAbsences: nat,
    captureCount: nat, distinctStateCount: nat, transitionCount: nat, lastCaptureStatus: Option<Code>)

  /** `key` and `window` together are the unique dedup key. */
  datatype Job = Job(
    key: EventKey, window: Window, status: JobStatus, priority: int, scheduledAt: int,
    startedAt: Option<int>, completedAt: Option<int>, nextCaptureAt: Option<int>, attemptCount: nat,
    consecutiveFailures: nat, lastErrorCode: Option<Code>, resultCode: Option<Code>,
    workerId: Option<string>, lockExpiresAt: Option<int>)

  datatype Store = Store(events: seq<Tracked>, jobs: seq<Job>)

  datatype Shadow = Shadow(noop: bool, persisted: bool, transitions: nat)

  datatype CaptureOutcome = CaptureOutcome(code: Code, retryAfter: Option<nat>, shadow: Option<Shadow>)

  /** The settings the scheduler reads. `score` stands for `compute_priority`, which is not part of
      this model; city names are taken as already lower-cased. */
  datatype Settings = Settings(
    sources: set<string>, cityAllowlist: set<string>, maxTracked: int, maxJobs: int, lockTtlSeconds: int,
    retry: RetryPolicy, cadence: CadenceConfig, score: (Tracked, int) -> int)
  {
    predicate Positive() {
      cadence.Positive() && retry.backoffBase > 0 && retry.backoffCap > 0
    }
  }

  predicate IsActive(job: Job) {
    job.status in {Pending, Running}
  }

  predicate IsCompleted(job: Job) {
    job.status in {Succeeded, FailedRetryable, FailedTerminal}
  }

  predicate IsTrackable(te: Tracked) {
    te.status in {Active, PostEvent}
  }

  /** The row a unique lookup on (source, source_record_id) finds. */
  function FindEvent(events: seq<Tracked>, key: EventKey): (r: Option<nat>)
    ensures r.Some? ==> r.value < |events| && events[r.value].key == key
    ensures r.None? <==> forall i :: 0 <= i < |events| ==> events[i].key != key
  {
    if events == [] then None
    else if events[|events| - 1].key == key then Some(|events| - 1)
    else FindEvent(events[..|events| - 1], key)
  }

  predicate HasDedup(jobs: seq<Job>, key: EventKey, window: Window) {
    exists j :: 0 <= j < |jobs| && jobs[j].key == key && jobs[j].window == window
  }

  /** The first row with a dedup key; `DedupUnique` makes it the only one. */
  function FindJob(jobs: seq<Job>, key: EventKey, window: Window): (r: Option<nat>)
    ensures r.Some? ==> r.value < |jobs| && jobs[r.value].key == key && jobs[r.value].window == window
    ensures r.Some? ==> forall j :: 0 <= j < r.value ==> jobs[j].key != key || jobs[j].window != window
    ensures r.None? <==> !HasDedup(jobs, key, window)
  {
    if jobs == [] then None
    else
      var last := |jobs| - 1;
      var before := FindJob(jobs[..last], key, window);
      if before.Some? then before else if jobs[last].key == key && jobs[last].window == window then Some(last) else None
  }

  predicate HasActive(jobs: seq<Job>, key: EventKey) {
    exists j :: 0 <= j < |jobs| && jobs[j].key == key && IsActive(jobs[j])
  }

  // ---- enroll -------------------------------------------------------------------------------

  function NewTracked(key: EventKey, city: Option<string>, startsAt: Option<int>, onSaleAt: Option<int>): Tracked {
    Tracked(key, city, Timing(startsAt, None, None, onSaleAt), Active, None, None, None, None, None, None,
            None, 0, 0, 0, 0, 0, 0, None)
  }

  /** Enrichment of a known tracker: it fills blanks and never resurrects a stopped one. */
  function Enriched(te: Tracked, city: Option<string>, startsAt: Option<int>): Tracked {
    te.(city := if te.city.None? then city else te.city,
        timing := te.timing.(startsAt := if te.timing.startsAt.None? then startsAt else te.timing.startsAt))
  }

  function Enroll(s: Store, key: EventKey, city: Option<string>, startsAt: Option<int>, onSaleAt: Option<int>,
                  cfg: Settings): Store
  {
    var existing := FindEvent(s.events, key);
    if key.source !in cfg.sources then s
    else if cfg.cityAllowlist != {} && city.Some? && city.value !in cfg.cityAllowlist then s
    else if existing.Some? then
      s.(events := s.events[existing.value := Enriched(s.events[existing.value], city, startsAt)])
    else if |s.events| >= cfg.maxTracked then s
    else s.(events := s.events + [NewTracked(key, city, startsAt, onSaleAt)])
  }

  // ---- generate_due_jobs --------------------------------------------------------------------

  predicate IsDue(te: Tracked, now: int, cfg: Settings) {
    te.key.source in cfg.sources && IsTrackable(te) && (te.nextCaptureAt.None? || te.nextCaptureAt.value <= now)
  }

  function WindowOf(te: Tracked): Window {
    if te.nextCaptureAt.None? then Initial else At(te.nextCaptureAt.value)
  }

  /** The job one pass creates for a tracker, decided against the rows flushed before the pass: the
      sessions run with autoflush off, so the pass never sees its own inserts. */
  function NewJob(te: Tracked, flushed: seq<Job>, now: int, cfg: Settings): Option<Job> {
    if IsDue(te, now, cfg) && !HasDedup(flushed, te.key, WindowOf(te)) && !HasActive(flushed, te.key) then
      Some(Job(te.key, WindowOf(te), Pending, cfg.score(te, now), te.nextCaptureAt.Or(now), None, None, None, 0,
               te.consecutiveFailures, None, None, None, None))
    else None
  }

  function Prioritised(te: Tracked, flushed: seq<Job>, now: int, cfg: Settings): Tracked {
    if NewJob(te, flushed, now, cfg).Some? then te.(priority := cfg.score(te, now)) else te
  }

  function NewJobs(events: seq<Tracked>, flushed: seq<Job>, now: int, cfg: Settings): seq<Job> {
    if events == [] then []
    else
      var job := NewJob(events[|events| - 1], flushed, now, cfg);
      NewJobs(events[..|events| - 1], flushed, now, cfg) + if job.Some? then [job.value] else []
  }

  function Generate(s: Store, now: int, cfg: Settings): Store {
    Store(seq(|s.events|, i requires 0 <= i < |s.events| => Prioritised(s.events[i], s.jobs, now, cfg)),
          s.jobs + NewJobs(s.events, s.jobs, now, cfg))
  }

  // ---- recover_expired_locks ----------------------------------------------------------------

  predicate IsExpired(job: Job, now: int) {
    job.status == Running && job.lockExpiresAt.Some? && job.lockExpiresAt.value < now
  }

  function RecoverJob(job: Job, now: int): Job {
    if IsExpired(job, now) then job.(status := Pending, workerId := None, lockExpiresAt := None) else job
  }

  function Recover(s: Store, now: int): Store {
    s.(jobs := seq(|s.jobs|, j requires 0 <= j < |s.jobs| => RecoverJob(s.jobs[j], now)))
  }

  // ---- the claim compare-and-swap -----------------------------------------------------------

  function ClaimedJob(job: Job, now: int, worker: string, cfg: Settings): Job {
    job.(status := Running, workerId := Some(worker), lockExpiresAt := Some(now + cfg.lockTtlSeconds * SECOND),
         startedAt := Some(now), attemptCount := job.attemptCount + 1)
  }

  function Claim(s: Store, j: nat, now: int, worker: string, cfg: Settings): Store
    requires j < |s.jobs|
  {
    if s.jobs[j].status == Pending then s.(jobs := s.jobs[j := ClaimedJob(s.jobs[j], now, worker, cfg)]) else s
  }

  // ---- capture_now --------------------------------------------------------------------------

  function MinuteOf(now: int): int {
    now - now % MINUTE
  }

  function CaptureNowJob(te: Tracked, now: int): Job {
    Job(te.key, CaptureNow(MinuteOf(now)), Pending, 100, now, None, None, None, 0, te.consecutiveFailures,
        None, None, None, None)
  }

  function InsertCaptureNow(s: Store, key: EventKey, now: int): Store {
    var e := FindEvent(s.events, key);
    if e.None? || HasDedup(s.jobs, key, CaptureNow(MinuteOf(now))) then s
    else s.(jobs := s.jobs + [CaptureNowJob(s.events[e.value], now)])
  }

  // ---- the committing transaction of process_job --------------------------------------------

  /** Counters and timestamps after a capture, before the next one is scheduled. */
  function Counted(te: Tracked, outcome: CaptureOutcome, now: int): Tracked {
    var t := te.(lastAttemptAt := Some(now), lastCaptureStatus := Some(outcome.code));
    match outcome.code
    case RecordPresent =>
      var newState := outcome.shadow.Some? && !outcome.shadow.value.noop && outcome.shadow.value.persisted;
      var transitions := if outcome.shadow.Some? then outcome.shadow.value.transitions else 0;
      t.(consecutiveFailures := 0, consecutiveAbsences := 0, lastSuccessAt := Some(now),
         lastRecordPresentAt := Some(now), captureCount := te.captureCount + 1,
         distinctStateCount := te.distinctStateCount + if newState then 1 else 0,
         transitionCount := te.transitionCount + transitions,
         lastStateChangeAt := if transitions > 0 then Some(now) else te.lastStateChangeAt)
    case RecordAbsent =>
      t.(consecutiveFailures := 0, consecutiveAbsences := te.consecutiveAbsences + 1,
         captureCount := te.captureCount + 1, lastSuccessAt := Some(now))
    case _ => t.(consecutiveFailures := te.consecutiveFailures + 1)
  }

  datatype Verdict = Verdict(status: JobStatus, next: Option<int>, reason: Reason, tracking: TrackingStatus)

  /** What the capture means for the job and for the tracker's schedule. */
  function Judge(t: Tracked, outcome: CaptureOutcome, attempt: nat, today: Option<int>, now: int, cfg: Settings): (v: Verdict)
    ensures v.status in {Succeeded, FailedRetryable, FailedTerminal}
    // whatever is scheduled lies strictly ahead
    ensures cfg.Positive() && v.next.Some? ==> v.next.value > now
    // a tracker left without a next capture is no longer trackable
    ensures v.next.None? ==> v.tracking !in {Active, PostEvent}
    ensures v.tracking in {Active, PostEvent} ==> t.status in {Active, PostEvent}
  {
    var decision := DecideRetry(outcome.code, attempt, outcome.retryAfter, cfg.retry);
    if decision.isSuccess then
      var (next, reason) := ComputeCadence(now, t.timing, today, t.status, t.eventStatus, t.lastStateChangeAt, cfg.cadence);
      Verdict(Succeeded, next, reason, if next.None? then Stopped else t.status)
    else if decision.terminal then
      Verdict(FailedTerminal, None, Terminal, if decision.needsReview then NeedsReview else Stopped)
    else
      var seconds := if decision.backoffSeconds.Some? && decision.backoffSeconds.value != 0
                     then decision.backoffSeconds.value else cfg.retry.backoffBase;
      Verdict(FailedRetryable, Some(now + seconds * SECOND), RetryBackoff, t.status)
  }

  function CommittedEvent(te: Tracked, outcome: CaptureOutcome, attempt: nat, today: Option<int>, now: int,
                          cfg: Settings): Tracked
  {
    var t := Counted(te, outcome, now);
    var v := Judge(t, outcome, attempt, today, now, cfg);
    t.(nextCaptureAt := v.next, cadenceReason := Some(v.reason), status := v.tracking)
  }

  function CommittedJob(job: Job, te: Tracked, outcome: CaptureOutcome, attempt: nat, today: Option<int>, now: int,
                        cfg: Settings): Job
  {
    var t := Counted(te, outcome, now);
    var v := Judge(t, outcome, attempt, today, now, cfg);
    job.(status := v.status, resultCode := Some(outcome.code), completedAt := Some(now), lockExpiresAt := None,
         lastErrorCode := if v.status == Succeeded then job.lastErrorCode else Some(outcome.code),
         nextCaptureAt := if v.status == FailedTerminal then job.nextCaptureAt else v.next,
         consecutiveFailures := t.consecutiveFailures)
  }

  function Commit(s: Store, j: nat, outcome: CaptureOutcome, attempt: nat, today: Option<int>, now: int,
                  cfg: Settings): Store
    requires j < |s.jobs| && FindEvent(s.events, s.jobs[j].key).Some?
  {
    var e := FindEvent(s.events, s.jobs[j].key).value;
    Store(s.events[e := CommittedEvent(s.events[e], outcome, attempt, today, now, cfg)],
          s.jobs[j := CommittedJob(s.jobs[j], s.events[e], outcome, attempt, today, now, cfg)])
  }

  // ---- enrichment, after a capture that found the record --------------------------------------

  /** What enrichment resolved of the fields a schedule depends on; dates are those that parse, and
      `relabelled` says that the provider's own label differs from the stored one. */
  datatype Enrichment = Enrichment(
    startsAt: Option<int>, endsAt: Option<int>, city: Option<string>, eventStatus: Option<Lifecycle>, relabelled: bool)

  predicate ChangesDates(te: Tracked, found: Enrichment) {
    (found.startsAt.Some? && te.timing.startsAt != found.startsAt) || (found.endsAt.Some? && te.timing.endsAt != found.endsAt)
  }

  predicate ChangesStatus(te: Tracked, found: Enrichment) {
    found.eventStatus.Some? && (found.relabelled || te.eventStatus != found.eventStatus)
  }

  /** What was resolved replaces what was known; nothing is erased. */
  function Filled(te: Tracked, found: Enrichment, now: int): Tracked {
    te.(timing := te.timing.(startsAt := if found.startsAt.Some? then found.startsAt else te.timing.startsAt,
                             endsAt := if found.endsAt.Some? then found.endsAt else te.timing.endsAt),
        city := if found.city.Or("") != "" then found.city else te.city,
        eventStatus := if found.eventStatus.Some? then found.eventStatus else te.eventStatus,
        lastStateChangeAt := if ChangesStatus(te, found) then Some(now) else te.lastStateChangeAt)
  }

  predicate Disallowed(te: Tracked, cfg: Settings) {
    cfg.cityAllowlist != {} && te.city.Or("") != "" && te.city.value !in cfg.cityAllowlist
  }

  /** Enrichment recomputes the schedule of a trackable tracker whose dates or status it changed. */
  predicate Reschedules(te: Tracked, found: Enrichment, now: int, cfg: Settings) {
    !Disallowed(Filled(te, found, now), cfg) && (ChangesDates(te, found) || ChangesStatus(te, found)) && IsTrackable(te)
  }

  function EnrichedCadence(te: Tracked, found: Enrichment, today: Option<int>, now: int, cfg: Settings): (Option<int>, Reason) {
    var t := Filled(te, found, now);
    ComputeCadence(now, t.timing, today, t.status, t.eventStatus, t.lastStateChangeAt, cfg.cadence)
  }

  /** Unlike a commit, it leaves the status alone when the schedule ends. */
  function EnrichedEvent(te: Tracked, found: Enrichment, today: Option<int>, now: int, cfg: Settings): Tracked {
    var t := Filled(te, found, now);
    if Disallowed(t, cfg) then t.(status := Stopped, nextCaptureAt := None, cadenceReason := Some(CityNotAllowed))
    else if Reschedules(te, found, now, cfg) then
      var (next, reason) := EnrichedCadence(te, found, today, now, cfg);
      t.(nextCaptureAt := next, cadenceReason := Some(reason))
    else t
  }

  function Enrich(s: Store, key: EventKey, found: Enrichment, today: Option<int>, now: int, cfg: Settings): Store {
    var e := FindEvent(s.events, key);
    if e.None? then s else s.(events := s.events[e.value := EnrichedEvent(s.events[e.value], found, today, now, cfg)])
  }
}
