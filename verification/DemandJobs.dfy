/**
 * The demand refresh queue: one row per unit of work, claimed under a lease and retried in place.
 *
 * A session keeps its own copy of a row from the moment it reads it; a flush writes the columns that
 * changed on that copy, whatever the row says by then.
 */
module DemandJobs {
  import opened Options
  import opened Powers

  datatype JobType = ChannelSnapshot | VideoSnapshot | IdentityDiscovery | CatalogueBackfill | UnknownType
  datatype Key = Windowed(artist: string, jobType: JobType, window: int)
               | Once(artist: string)
               | Reattempt(artist: string, window: int)

  datatype Status = PENDING | RUNNING | SUCCEEDED | FAILED_RETRYABLE | FAILED_TERMINAL

  // What the service call of a job reports.
  datatype Report = NO_RESOLVED_IDENTITY | PROVIDER_ID_NOT_FOUND | VERIFICATION_UNAVAILABLE
                  | QUOTA_EXHAUSTED | RESOLVED | OTHER_REPORT
  datatype Answer = Raised | Replied(report: Report)

  datatype Code = RETRY | MAX_ATTEMPTS | UNKNOWN_JOB_TYPE | Reported(report: Report)

  datatype Job = Job(key: Key, artist: string, jobType: JobType, status: Status, scheduledAt: int,
                     createdAt: int, priority: int, attempts: nat, consecutiveFailures: int,
                     lockExpiresAt: Option<int>, worker: Option<string>,
                     resultCode: Option<Code>, completedAt: Option<int>)

  datatype Settings = Settings(lockTtl: int, maxAttempts: int, backoffBase: int, backoffMax: int, batchSize: int,
                               channelInterval: int, videoInterval: int, catalogueInterval: int,
                               ambiguousInterval: int, unresolvedInterval: int)

  function Min(a: int, b: int): int {
    if a <= b then a else b
  }

  function AtLeast(a: int, b: int): int {
    if a >= b then a else b
  }

  function NewJob(key: Key, artist: string, jobType: JobType, priority: int, now: int): Job {
    Job(key, artist, jobType, PENDING, now, now, priority, 0, 0, None, None, None, None)
  }

  // ---- Claim ------------------------------------------------------------------------------------------

  predicate LeaseExpired(j: Job, now: int) {
    j.lockExpiresAt.Some? && j.lockExpiresAt.value < now
  }

  predicate Claimable(j: Job, now: int) {
    && j.scheduledAt <= now
    && (j.status == PENDING || j.status == FAILED_RETRYABLE || (j.status == RUNNING && LeaseExpired(j, now)))
  }

  function Claimed(cfg: Settings, j: Job, worker: string, now: int): Job {
    j.(status := RUNNING, worker := Some(worker), lockExpiresAt := Some(now + cfg.lockTtl),
       attempts := j.attempts + 1)
  }

  // ---- Outcomes ----------------------------------------------------------------------------------------

  function Backoff(cfg: Settings, attempts: int): int
    requires attempts >= 1
  {
    Min(cfg.backoffBase * Pow2(attempts - 1), cfg.backoffMax)
  }

  function Succeed(j: Job, report: Report, now: int): Job {
    j.(status := SUCCEEDED, resultCode := Some(Reported(report)), completedAt := Some(now),
       consecutiveFailures := 0, lockExpiresAt := None)
  }

  function Terminal(j: Job, code: Code, now: int): Job {
    j.(status := FAILED_TERMINAL, resultCode := Some(code), completedAt := Some(now), lockExpiresAt := None)
  }

  function Fail(cfg: Settings, j: Job, now: int): Job
    requires j.attempts >= 1
  {
    var failed := j.(consecutiveFailures := j.consecutiveFailures + 1);
    if j.attempts >= cfg.maxAttempts then Terminal(failed, MAX_ATTEMPTS, now)
    else failed.(status := FAILED_RETRYABLE, resultCode := Some(RETRY),
                 scheduledAt := now + Backoff(cfg, j.attempts), lockExpiresAt := None)
  }

  function Defer(cfg: Settings, j: Job, report: Report, now: int): Job {
    j.(status := PENDING, resultCode := Some(Reported(report)), attempts := AtLeast(j.attempts - 1, 0),
       scheduledAt := now + cfg.backoffBase, lockExpiresAt := None)
  }

  datatype Outcome = Succeeds | Fails | Defers | Ends(code: Code)

  /**
   * How `execute` reads an answer. `backfillRaises` says that queueing the catalogue job of a newly
   * resolved identity raised, which the failure isolation turns into a failure of this job.
   */
  function OutcomeOf(jobType: JobType, answer: Answer, backfillRaises: bool): Outcome {
    if jobType == UnknownType then Ends(UNKNOWN_JOB_TYPE)
    else if answer.Raised? then Fails
    else if jobType == IdentityDiscovery then
      if answer.report == QUOTA_EXHAUSTED then Defers
      else if answer.report == RESOLVED && backfillRaises then Fails
      else if answer.report == VERIFICATION_UNAVAILABLE then Fails
      else Succeeds
    else if answer.report == NO_RESOLVED_IDENTITY || answer.report == PROVIDER_ID_NOT_FOUND then
      Ends(Reported(answer.report))
    else if answer.report == VERIFICATION_UNAVAILABLE then Fails
    else Succeeds
  }

  function Finished(cfg: Settings, j: Job, outcome: Outcome, report: Report, now: int): Job
    requires j.attempts >= 1
  {
    match outcome
    case Succeeds => Succeed(j, report, now)
    case Fails => Fail(cfg, j, now)
    case Defers => Defer(cfg, j, report, now)
    case Ends(code) => Terminal(j, code, now)
  }

  function ReportOf(answer: Answer): Report {
    if answer.Raised? then OTHER_REPORT else answer.report
  }

  // A provider or network trouble that says nothing about the artist.
  predicate Transient(answer: Answer) {
    answer.Raised? || answer.report == VERIFICATION_UNAVAILABLE
  }

  /**
   * Only an authoritative answer or a spent budget ends a job without success: transient trouble ends it
   * exactly when the attempts are used up, a spent quota never does, and an identity that is missing
   * or gone at the provider does at once, without counting as a failure.
   */
  lemma OnlyAuthorityOrBudgetEnds(cfg: Settings, j: Job, answer: Answer, now: int)
    requires j.attempts >= 1 && j.jobType != UnknownType
    ensures var after := Finished(cfg, j, OutcomeOf(j.jobType, answer, false), ReportOf(answer), now);
            && (Transient(answer) ==> (after.status == FAILED_TERMINAL <==> j.attempts >= cfg.maxAttempts))
            && (Transient(answer) ==> after.consecutiveFailures == j.consecutiveFailures + 1)
            && (answer == Replied(QUOTA_EXHAUSTED) ==> after.status == if j.jobType == IdentityDiscovery then PENDING else SUCCEEDED)
            && (j.jobType != IdentityDiscovery
                && (answer == Replied(NO_RESOLVED_IDENTITY) || answer == Replied(PROVIDER_ID_NOT_FOUND)) ==>
                  after.status == FAILED_TERMINAL && after.consecutiveFailures == j.consecutiveFailures
                  && after.attempts == j.attempts)
            && after.status != RUNNING
  {
  }

  // The columns that `after` changed with respect to `copy`, written over `row`.
  function WriteBack(row: Job, copy: Job, after: Job): Job {
    row.(status := if after.status != copy.status then after.status else row.status,
         scheduledAt := if after.scheduledAt != copy.scheduledAt then after.scheduledAt else row.scheduledAt,
         attempts := if after.attempts != copy.attempts then after.attempts else row.attempts,
         consecutiveFailures := if after.consecutiveFailures != copy.consecutiveFailures
                                then after.consecutiveFailures else row.consecutiveFailures,
         lockExpiresAt := if after.lockExpiresAt != copy.lockExpiresAt then after.lockExpiresAt else row.lockExpiresAt,
         resultCode := if after.resultCode != copy.resultCode then after.resultCode else row.resultCode,
         completedAt := if after.completedAt != copy.completedAt then after.completedAt else row.completedAt,
         worker := if after.worker != copy.worker then after.worker else row.worker)
  }

  // A worker whose copy is the row writes exactly what it computed.
  lemma WriteBackOfOwnRow(copy: Job, after: Job)
    requires after.key == copy.key && after.artist == copy.artist && after.jobType == copy.jobType
    requires after.createdAt == copy.createdAt && after.priority == copy.priority
    ensures WriteBack(copy, copy, after) == after
  {
  }

  /** Retries never come closer together, and never wait longer than the configured maximum. */
  lemma BackoffGrows(cfg: Settings, a: int, b: int)
    requires 1 <= a <= b && cfg.backoffBase >= 0
    ensures Backoff(cfg, a) <= Backoff(cfg, b) <= cfg.backoffMax
  {
    Pow2Grows(a - 1, b - 1);
    ScaleKeepsOrder(cfg.backoffBase, Pow2(a - 1), Pow2(b - 1));
  }

  lemma ScaleKeepsOrder(k: int, a: int, b: int)
    requires k >= 0 && a <= b
    ensures k * a <= k * b
  {
    assert k * (b - a) >= 0;
  }

  /** A deferral undoes its claim: neither the attempt nor a failure is charged. */
  lemma DeferralUndoesTheClaim(cfg: Settings, j: Job, worker: string, report: Report, now: int)
    ensures var after := Defer(cfg, Claimed(cfg, j, worker, now), report, now);
            && after.attempts == j.attempts
            && after.consecutiveFailures == j.consecutiveFailures
            && after.lockExpiresAt == None
            && after.status == PENDING
            && after.completedAt == j.completedAt
  {
  }
}
