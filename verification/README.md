# n-quark: a verified model of its scheduling, accounting and fold logic

This project models the parts of n-quark that hold state over time and proves what they keep, over whole
runs and every interleaving, in Dafny 4.11. `dafny verify dfyconfig.toml` checks all of it.

Five groups of code are modelled, one or more modules each.

- **Capture scheduler** (`Cadence`, `Classification`, `CaptureStore`, `CaptureTables`, `CaptureRuns`,
  `CaptureInvariants`, `CaptureLeases`, `CaptureProgress`, `CaptureWedge`, `CaptureService`,
  `CapturePassRefinement`). A lease-locked job queue. `CaptureStore` gives each database transaction as a
  function on the tables; `CaptureRuns` lets any number of workers interleave them, with reading, capturing,
  committing and enriching as separate steps; `CaptureInvariants` has what all their runs keep, `CaptureLeases`
  says when two workers share a job, `CaptureProgress` and `CaptureWedge` when a tracker is left
  without work and for how long; `CaptureService` is the class that updates the rows, and a pass of it is proved
  to be one of those runs.
- **Demand queue and quota ledger** (`DemandJobs`, `DemandEnqueue`, `DemandRuns`, `DemandShape`, `DemandBudget`,
  `DemandRace`, `DemandScheduling`, `Quota`, `QuotaGates`, `IdentityResolution`). Jobs are retried in place
  by `run_once`, which claims, executes and commits in one transaction. `DemandRuns` interleaves such passes:
  each sees what others committed under what it has itself flushed, selects without a lock, and writes the
  columns that changed on its copies. `DemandShape` has what all their runs keep, `DemandBudget` the law of the retry budget and when
  it is kept, `DemandRace` the races that break it, and `DemandScheduling` the class, a pass of which is proved
  to be one of those runs.
  Quota is double-entry: the rows are proved equal to an account of the calls, and the gates are proved
  against the rows.
- **Canonical fold and read models** (`Projection`, `ReadModels`). The chain walk is characterised on all
  graphs, cyclic ones included, and the aggregations are proved to see entities only through it.
- **Governance and watchlist** (`Governance`, `Supersession`, `Promotion`, `Watchlist`). Commands over
  candidates, handle registry, history and watch targets, with the registry and the graph as oracles.
- **Movement classifier** (`Movement`). Velocities, medians and ratios over the reals, with two-run theorems.

Conventions: instants are integers (reals in `Movement`), ids are strings, string keys such as dedup keys and
`SEARCH:<purpose>` are injective datatypes, and an answer from another service is an input. Methods of classes
are proved equal to a transition function of the old state; the theorems are about those functions. `Options` and
`Powers` hold what several modules share.

## What the code does where its documentation or its promises say otherwise

- Capture commits are not fenced by worker or lease (`CaptureLeases.LateSessionIsShared`).
- A tracker can be left due, trackable and without work. A commit does it exactly when it reschedules onto a
  window already used (`CaptureWedge.CommitWedgesExactlyWhen`), which a targeted capture stamped just before a
  follow-up reaches with default offsets (`CaptureWedge.OverlapWedges`); enrichment does it when it ends the
  schedule, since it leaves the status ACTIVE where a commit would write STOPPED
  (`CaptureWedge.EnrichmentWedges`). Once no worker holds a job of it, nothing but a later targeted
  capture of that event brings the tracker back (`CaptureWedge.WedgeLastsExactlyUntilRescued`).
- Search slices are starvation-free on their own, but `resolve_youtube` also applies
  `youtube_max_searches_per_day`; with the default 50 a purpose below its slice can be refused
  (`QuotaGates.DefaultsCanStarve`), and `QuotaGates.ServedExactlyWhenSlicesFitTheCap` gives the condition.
- `verify_channel` means to meter a zero-unit failed read, but calls `record` without its required `bucket`;
  the call raises, the verification loop treats it as any provider failure, and nothing is metered. The model
  follows the code.
- The comment in `_upsert_identity` says an identity never rebinds to another artist; the next line assigns the
  artist. An artist can hold two RESOLVED channels, and then `enqueue_due` fails on the dedup key
  (`DemandEnqueue.PassFlushesExactlyWhen`), and `run_once` with it.
- With `youtube_verify_top_n` at zero a search with a clear leader is written RESOLVED without any verification
  (`IdentityResolution.HonestExactlyUnlessBlind`).
- `_active_exists` asks for at most one row although the windowed enqueue can leave unfinished catalogue jobs of
  two windows. Queueing a backfill then raises (`DemandEnqueue.BackfillRaisesExactlyWhenTwoWindows`), and an
  identity job that resolved is counted as failed, exactly in that case
  (`DemandShape.ResolvedFailsExactlyWhenTwoWindows`).
- `enqueue_identity_discovery` says it is idempotent while an active job exists; its key carries no window, so it
  never queues a second job for an artist, whatever became of the first (`DemandEnqueue.DiscoveryIsOnceForAll`).
- The demand scheduler stamps a lease on every claim, but `run_once` commits claim and outcome together, so no
  pass ever sees a lease (`DemandShape.NoLeaseIsEverSeen`) and its expiry guards nothing. The claim is a plain
  SELECT followed by column updates: two passes that select one row before either commits both run it, lose a
  failure (`DemandRace.OverlapLosesAFailure`) or revive a finished job (`DemandRace.OverlapRevivesAJob`). The
  budget is kept exactly when every commit finds its rows unfinished with the attempt count it read
  (`DemandBudget.BudgetIsKeptExactlyWhen`).
- `supersede_legacy` can close a cycle (`Supersession.TwoCommandsCanCycle`); the exact condition is
  `Supersession.StaysAcyclicExactlyWhen`. The over-length warning of the fold is blind to a fold onto the empty
  id (`Projection.StopWarningsAreExactWhen`).
- Adding a watched target again while the crawl registry is down stores it without its canonical id and with
  its status unchanged (`Watchlist.ClaimsHoldExactlyWhenNeverCaught`, `Watchlist.AddingTwiceIsCaught`).

## Model

| member | source | states |
|---|---|---|
| `Cadence.FirstFollowUp` | services/crawl-service/crawl_service/cadence.py:80-84 | the follow-up chosen is the first configured instant strictly later than now, and there is none exactly when no follow-up lies ahead |
| `Cadence.ComputeCadence` | services/crawl-service/crawl_service/cadence.py:45-103 | with positive bands every next capture lies strictly in the future |
| `Cadence.CadenceTightens` | services/crawl-service/crawl_service/cadence.py:85-103 | as an upcoming event draws near the delay to the next capture never grows (bands ordered, no on-sale window), and on the last day it is the event-day band |
| `Cadence.CaptureSpendsPotential` | services/crawl-service/crawl_service/cadence.py:63-103 | each scheduled capture uses up one unit of a potential counted from the dates, the smallest band and the follow-ups left |
| `Cadence.CampaignIsBounded` | services/crawl-service/crawl_service/cadence.py:63-103 | an event with a known start, neither cancelled nor postponed, is captured at most floor((A - now) / m) + 1 + number of follow-ups times before the cadence stops, A being its end (or start) and m the smallest band |
| `Cadence.StopsExactlyWhen` | services/crawl-service/crawl_service/lifecycle.py:32-54 | captures of an ordinary event end exactly when it is over, by its end or else its start, or with no start known by its local date, and no follow-up lies ahead |
| `Cadence.UndatedCampaignsAreUnbounded` | services/crawl-service/crawl_service/cadence.py:63-103 | why the bound asks for a start: without one, campaigns of every length exist |
| `Classification.BackoffSeconds` | services/crawl-service/crawl_service/classification.py:58-61 | the backoff is positive and never above the cap |
| `Classification.DecideRetry` | services/crawl-service/crawl_service/classification.py:64-104 | every result is exactly one of success, retry and giving up; a retry carries a positive delay and is within a limit; a failed request is never evidence of absence |
| `CaptureTables.EnrollKeepsTable` | services/crawl-service/crawl_service/service.py:65-98 | enrolment keeps the tables consistent and never resurrects a stopped tracker |
| `CaptureTables.NewJobsOrigin` | services/crawl-service/crawl_service/service.py:107-147 | every job a pass creates comes from its own due tracker, with the tracker's window as its key |
| `CaptureTables.GenerateKeepsTable` | services/crawl-service/crawl_service/service.py:107-147 | a pass that cannot see its own inserts still creates no duplicate window and no second active job for a tracker |
| `CaptureTables.RecoverKeepsTable` | services/crawl-service/crawl_service/service.py:149-163 | recovery keeps locks exactly on RUNNING rows and reactivates nothing that completed |
| `CaptureTables.ClaimKeepsTable` | services/crawl-service/crawl_service/service.py:178-189 | the compare-and-swap claim keeps the tables consistent |
| `CaptureTables.CaptureNowKeepsTable` | services/crawl-service/crawl_service/service.py:457-477 | the targeted insert, which skips the active-job check, still keeps keys unique and the automatic jobs of a tracker single |
| `CaptureTables.CommitKeepsTable` | services/crawl-service/crawl_service/service.py:220-301 | any commit, late ones included, keeps the tables consistent and completed jobs completed |
| `CaptureTables.EnrichKeepsTable` | services/crawl-service/crawl_service/service.py:368-444 | enrichment keeps the tables consistent and makes no stopped tracker trackable |
| `CaptureInvariants.TablesAlwaysConsistent` | services/crawl-service/crawl_service/service.py:107-301 | under any interleaving of workers, crashes and late commits: RUNNING exactly with a lock, unique dedup keys, at most one active job per event not made by capture_now, completed statuses never active again |
| `CaptureInvariants.AttemptsAlwaysCounted` | services/crawl-service/crawl_service/service.py:149-191 | attempt_count is the number of claims, and claims pair with recoveries, in every run |
| `CaptureLeases.LeasesExclude` | services/crawl-service/crawl_service/service.py:165-231 | when workers commit within their leases, no two are ever between claim and commit on one job, each job commits exactly one result, and attempt_count is 1 plus its lock recoveries |
| `CaptureLeases.RecoveryIsSafeExactlyWithinLeases` | services/crawl-service/crawl_service/service.py:149-163 | a recovery keeps exclusion if and only if its clock has not passed the lease of any open session |
| `CaptureLeases.LateSessionIsShared` | services/crawl-service/crawl_service/service.py:220-231 | commits are not fenced: past its lease, a job is held by two workers at once |
| `CaptureProgress.RunStaysUnwedged` | services/crawl-service/crawl_service/service.py:107-301 | non-overlapping passes under a clock that never goes back keep every trackable tracker's current window free or active |
| `CaptureProgress.NoTrackerIsWedged` | services/crawl-service/crawl_service/service.py:107-147 | from an empty database, under a clock that never goes back and with no enrichment that ends a schedule, a due trackable tracker always has a job to work on after the first two transactions of the next pass |
| `CaptureInvariants.CountersAlwaysRefineLogs` | services/crawl-service/crawl_service/service.py:231-299 | consecutive_failures is the trailing run of failures, consecutive_absences the ABSENT results since the last PRESENT with failures neither adding nor resetting, capture_count the PRESENT plus ABSENT results |
| `CaptureInvariants.EveryReachableState` | services/crawl-service/crawl_service/service.py:64-301 | all of the untimed invariants, from the empty database |
| `CaptureWedge.DueTrackerGetsWorkExactlyWhenUnwedged` | services/crawl-service/crawl_service/service.py:107-147 | a pass leaves a due tracker an active job exactly when its current window is unused or some job of it is active |
| `CaptureWedge.CommitWedgesExactlyWhen` | services/crawl-service/crawl_service/service.py:220-301 | a commit wedges its tracker exactly when it schedules it onto a window already used and no other job of it is active |
| `CaptureWedge.OnlyAClockBehindWedges` | services/crawl-service/crawl_service/service.py:220-301 | and then its clock is behind a used window of the tracker |
| `CaptureWedge.UnwedgedExactlyWhenNeverOntoSpent` | services/crawl-service/crawl_service/service.py:107-444 | over every run, whatever its clocks: no tracker is ever wedged if and only if no commit and no enrichment puts one onto a used window with no other job of it active |
| `CaptureWedge.WedgeLastsExactlyUntilRescued` | services/crawl-service/crawl_service/service.py:107-484 | through every run the tracker stays wedged if and only if no targeted capture of it is inserted |
| `CaptureWedge.AbandonedIsLeftAlone` | services/crawl-service/crawl_service/service.py:119-147 | until then no pass creates a job for it and its window stays |
| `CaptureWedge.OverlapWedges` | services/crawl-service/crawl_service/service.py:446-512 | a run from the empty database that wedges: a targeted capture stamped a microsecond before a follow-up is inserted after the pass has created the follow-up, and commits last |
| `CaptureWedge.EnrichmentWedges` | services/crawl-service/crawl_service/service.py:426-442 | and one with no overlap at all: enrichment that ends the schedule leaves the tracker ACTIVE, due at every instant and served by no pass |
| `CaptureService.Claimable` | services/crawl-service/crawl_service/service.py:169-174 | exactly the pending, due rows, ranked by priority and then schedule |
| `CaptureService.ClaimTakesTheBest` | services/crawl-service/crawl_service/service.py:165-191 | no priority inversion: a claimable row left behind ranks behind every row taken, and is left only when the limit is reached |
| `CaptureService.PassCompletesItsClaims` | services/crawl-service/crawl_service/service.py:498-512 | every job a pass claims ends completed, whatever the captures bring |
| `CaptureService.PassLeavesNothingDue` | services/crawl-service/crawl_service/service.py:498-512 | with nobody else running and room in the limit, no tracker is due and no job open after a pass |
| `CaptureService.PassIsIdempotent` | services/crawl-service/crawl_service/service.py:498-512 | the same pass again at once changes nothing |
| `CaptureService.SchedulerService.EnrollEvent` | services/crawl-service/crawl_service/service.py:65-98 | updates the tables exactly as the enrolment transaction |
| `CaptureService.SchedulerService.GenerateDueJobs` | services/crawl-service/crawl_service/service.py:107-147 | the loop over trackers adds exactly the jobs of the generation transaction |
| `CaptureService.SchedulerService.RecoverExpiredLocks` | services/crawl-service/crawl_service/service.py:149-163 | releases exactly the RUNNING rows whose lock is over, and counts them |
| `CaptureService.SchedulerService.ClaimJobs` | services/crawl-service/crawl_service/service.py:165-191 | claims exactly the best claimable rows within the limit |
| `CaptureService.SchedulerService.ClaimSpecific` | services/crawl-service/crawl_service/service.py:486-496 | claims the row exactly when it was pending |
| `CaptureService.SchedulerService.CommitCapture` | services/crawl-service/crawl_service/service.py:220-301 | writes exactly what the commit transaction says of job and tracker |
| `CaptureService.SchedulerService.ApplyEnrichment` | services/crawl-service/crawl_service/service.py:368-444 | writes exactly what the enrichment transaction says of the tracker |
| `CaptureService.SchedulerService.RequestCapture` | services/crawl-service/crawl_service/service.py:446-496 | inserts or finds the one job of the event and minute, and claims it exactly when it is pending; no other row changes |
| `CaptureService.SchedulerService.RunOnce` | services/crawl-service/crawl_service/service.py:498-512 | is recover, generate, claim and process, in that order, with the configured limit when none or zero is given |
| `CapturePassRefinement.PassIsARun` | services/crawl-service/crawl_service/service.py:498-512 | a pass is a run of the interleaved system, so everything proved of runs holds of it |
| `Projection.FoldPathIsTheWalk` | services/analytics-service/analytics_service/projection.py:33-72 | on any graph, cyclic or not, the path is the one repeat-free chain of folds, supersession first, of at most max_hops edges that cannot be continued |
| `Projection.StopWarningsAreExactWhen` | services/analytics-service/analytics_service/projection.py:47-78 | a self-reference, cycle or over-length warning appears exactly when the result still folds further, if and only if no fold leads to the empty id alone |
| `Projection.CanonicalIsTheEnd` | services/analytics-service/analytics_service/projection.py:33-92 | the result has no outgoing fold exactly when the chain is acyclic and within the bound, and then is its end |
| `Projection.PathFoldsTogether` | services/analytics-service/analytics_service/projection.py:33-92 | on such chains every id on the path has the same canonical id |
| `Projection.IdempotentExactlyWhen` | services/analytics-service/analytics_service/projection.py:33-92 | exactly when folding twice is folding once |
| `Projection.SupersededIsNeverCanonical` | services/analytics-service/analytics_service/projection.py:33-92 | nothing folds to an id that folds further |
| `Projection.Canonicalize` | services/analytics-service/analytics_service/projection.py:33-92 | the loop over path, seen and current computes the specified fold |
| `Projection.DedupeCountsOnce` | services/analytics-service/analytics_service/projection.py:128-138 | no canonical entity is counted twice and none is lost |
| `Projection.DedupeIsOrderStable` | services/analytics-service/analytics_service/projection.py:128-138 | a longer list only extends the result |
| `Projection.Canonicalizer.Resolve` | services/analytics-service/analytics_service/projection.py:112-123 | the cached class returns what the pure function returns, after any call sequence |
| `Projection.Canonicalizer.DedupeIds` | services/analytics-service/analytics_service/projection.py:128-138 | the growing list and set compute the specified de-duplication |
| `ReadModels.ScopeEvents` | services/analytics-service/analytics_service/readmodels.py:124-156 | splits the events with order kept: the included ones, and for every other one its id with the first facet it fails, once |
| `ReadModels.TemporalCounts` | services/analytics-service/analytics_service/readmodels.py:159-172 | the four counts are what they are named for and add up to the number of events |
| `ReadModels.GroupBy` | services/analytics-service/analytics_service/readmodels.py:208-217 | buckets hold exactly the events of their key, in order |
| `ReadModels.BucketsConserve` | services/analytics-service/analytics_service/readmodels.py:208-217 | any count of events is the sum over the buckets plus the events without a key |
| `ReadModels.QualityConserves` | services/analytics-service/analytics_service/readmodels.py:411-447 | every additive observation-quality metric is overall the sum over source or region buckets |
| `ReadModels.RegionsConserveEvents` | services/analytics-service/analytics_service/readmodels.py:204-239 | the observed-event counts of the region rows add up to the included events less those without region and city |
| `ReadModels.EventsFeaturing` | services/analytics-service/analytics_service/readmodels.py:261-267 | exactly the events of which some listed id folds to the entity |
| `ReadModels.UniqueCanonical` | services/analytics-service/analytics_service/readmodels.py:182-186 | the distinct canonical entities, each once |
| `ReadModels.RegionalRows` | services/analytics-service/analytics_service/readmodels.py:208-239 | the loop computes the specified row of every region |
| `ReadModels.RegionalSupplyIsFoldInvariant` | services/analytics-service/analytics_service/readmodels.py:208-239 | region rows see entities only through the fold |
| `ReadModels.ActivityIsFoldInvariant` | services/analytics-service/analytics_service/readmodels.py:270-355 | so do artist, venue and organizer activity rows |
| `ReadModels.RowsIgnoreHowIdsAreWritten` | services/analytics-service/analytics_service/readmodels.py:182-355 | replacing ids by their canonical ids, or adding these beside them, any number of times, changes no regional and no activity row |
| `ReadModels.SupersededFeaturesNowhere` | services/analytics-service/analytics_service/readmodels.py:261-267 | a superseded id features in no event |
| `Supersession.StaysAcyclicExactlyWhen` | services/crawl-service/crawl_service/governance.py:360-391 | on an acyclic graph the command leaves an acyclic graph exactly when no chain leads from the canonical id back to the legacy one |
| `Supersession.TwoCommandsCanCycle` | services/crawl-service/crawl_service/governance.py:360-391 | two accepted commands make a cycle, which the fold reports |
| `Governance.CommandsAreLogged` | services/crawl-service/crawl_service/governance.py:149-240 | each command adds at most one history row, with the true previous status and canonical id and the new status |
| `Governance.HistoryReplays` | services/crawl-service/crawl_service/governance.py:81-85 | over every run the history only grows, replaying a candidate's rows gives its status, and each row starts where the one before ended |
| `Governance.OwnersStay` | services/crawl-service/crawl_service/governance.py:167-210 | no run without reversals re-points an owned handle |
| `Governance.ReversalRestores` | services/crawl-service/crawl_service/governance.py:452-481 | reversing with accept's returned values restores status and canonical id, and the handle registry exactly in the three named cases |
| `Governance.RegisteredIsEnumerable` | services/crawl-service/crawl_service/governance.py:304-334 | registering an external artist leaves it enumerable, touches no other row and does nothing the second time |
| `Governance.GovernanceService.AcceptCandidate` | services/crawl-service/crawl_service/governance.py:149-192 | updates candidate, handle and history rows exactly as the accept command |
| `Governance.GovernanceService.RejectCandidate` | services/crawl-service/crawl_service/governance.py:213-226 | updates the rows exactly as the reject command, which keeps the canonical id and logs none |
| `Governance.GovernanceService.UnresolveCandidate` | services/crawl-service/crawl_service/governance.py:228-240 | updates the rows exactly as mark_unresolved |
| `Governance.GovernanceService.ReverseCandidate` | services/crawl-service/crawl_service/governance.py:452-481 | updates the rows exactly as reverse_accept |
| `Governance.GovernanceService.SupersedeLegacy` | services/crawl-service/crawl_service/governance.py:360-391 | updates the supersession row exactly as supersede_legacy |
| `Governance.GovernanceService.UnsupersedeLegacy` | services/crawl-service/crawl_service/governance.py:392-406 | switches an active supersession off and keeps its target |
| `Quota.PoolReconciles` | services/artist-intelligence-service/artist_intelligence_service/quota.py:254-266 | reconciles is always true: the summed general pool is the two bucket readings |
| `Quota.EveryRowIsItsCalls` | services/artist-intelligence-service/artist_intelligence_service/quota.py:154-189 | every bucket row, SEARCH:<purpose> rows included, is exactly the account of the calls charged to it |
| `Quota.DayIsTheLog` | services/artist-intelligence-service/artist_intelligence_service/quota.py:154-189 | the day aggregate counts each call once; its search requests are the SEARCH bucket and its non-search units are general_used |
| `Quota.PurposesSplitSearch` | services/artist-intelligence-service/artist_intelligence_service/quota.py:180-187 | purpose sub-buckets sum to the SEARCH calls less those without such a purpose |
| `Quota.BooksBalance` | services/artist-intelligence-service/artist_intelligence_service/quota.py:154-266 | quota conservation in one statement, successes plus failures equal to requests in every row included |
| `Quota.EachCallIsCountedOnce` | services/artist-intelligence-service/artist_intelligence_service/quota.py:84-87 | with any number of meters recorded at any times, each call is folded in once, in order, or still in its meter |
| `Quota.QuotaMeter.Read` | services/artist-intelligence-service/artist_intelligence_service/quota.py:72-73 | appends one general read |
| `Quota.QuotaMeter.SearchCall` | services/artist-intelligence-service/artist_intelligence_service/quota.py:75-78 | appends one search of one unit, with its purpose |
| `Quota.QuotaMeter.VideoBatchCall` | services/artist-intelligence-service/artist_intelligence_service/quota.py:80-82 | appends one batch read |
| `Quota.QuotaMeter.Drain` | services/artist-intelligence-service/artist_intelligence_service/quota.py:84-87 | hands over every call and leaves the meter empty |
| `Quota.QuotaTables.GetOrCreateBucket` | services/artist-intelligence-service/artist_intelligence_service/quota.py:134-151 | finds the bucket's first row, or appends a blank one |
| `Quota.QuotaTables.RecordMeter` | services/artist-intelligence-service/artist_intelligence_service/quota.py:154-189 | the loop folds every drained call into both sets of rows |
| `QuotaGates.GrantedExactlyWhenItFits` | services/artist-intelligence-service/artist_intelligence_service/quota.py:279-292 | can_spend grants exactly when the rows still fit their budgets once the call is recorded |
| `QuotaGates.GatedSpendingIsBounded` | services/artist-intelligence-service/artist_intelligence_service/quota.py:279-292 | a run that checks and records each spend never passes a bucket budget, the usable pool or the daily calls |
| `QuotaGates.SlicesLeaveTheReserve` | services/artist-intelligence-service/artist_intelligence_service/quota.py:303-316 | floored slices and floored reserve fit the daily calls |
| `QuotaGates.SlicesAreStarvationFree` | services/artist-intelligence-service/artist_intelligence_service/quota.py:319-341 | after any day without borrowing, a search is granted exactly when its purpose is below its own slice |
| `QuotaGates.OrdinarySearchesKeepTheReserve` | services/artist-intelligence-service/artist_intelligence_service/quota.py:332-337 | ordinary searches away from the reset never pass daily minus reserve |
| `QuotaGates.BorrowingStarves` | services/artist-intelligence-service/artist_intelligence_service/quota.py:338-341 | borrowing does starve a purpose below its slice |
| `QuotaGates.ServedExactlyWhenSlicesFitTheCap` | services/artist-intelligence-service/artist_intelligence_service/service.py:414-435 | end to end, no purpose below its slice is ever refused exactly when searching is enabled and the slices together fit under youtube_max_searches_per_day |
| `QuotaGates.DefaultsCanStarve` | services/artist-intelligence-service/artist_intelligence_service/config.py:103-167 | the shipped defaults do not meet that condition |
| `IdentityResolution.RankedIsSorted` | services/artist-intelligence-service/artist_intelligence_service/service.py:150 | ranking is a permutation by falling score |
| `IdentityResolution.ResolvesExactlyToTheClearLeader` | services/artist-intelligence-service/artist_intelligence_service/providers/youtube.py:299-314 | the decision does not depend on candidate order: it resolves to a candidate exactly when that one clears the threshold and beats every other by the margin |
| `IdentityResolution.DemandService.VerifyCandidates` | services/artist-intelligence-service/artist_intelligence_service/service.py:157-175 | the loop asks candidates in order until the gate or the provider stops it, metering one read per answer and nothing for a failure |
| `IdentityResolution.DemandService.SettleIdentity` | services/artist-intelligence-service/artist_intelligence_service/service.py:193-212 | resolves the chosen channel for the artist and retires its pending row |
| `IdentityResolution.DemandService.ResolveYoutube` | services/artist-intelligence-service/artist_intelligence_service/service.py:124-241 | updates quota and identity rows exactly as specified, recording the meter once on every path |
| `IdentityResolution.OvershootIsBounded` | services/artist-intelligence-service/artist_intelligence_service/service.py:157-187 | one call passes the usable pool and the read budget by at most youtube_verify_top_n - 1 units |
| `IdentityResolution.OvershootIsReached` | services/artist-intelligence-service/artist_intelligence_service/service.py:157-187 | and reaches that bound |
| `IdentityResolution.ResolvedMeansVerified` | services/artist-intelligence-service/artist_intelligence_service/service.py:178-215 | a verified-leader result names a plausible candidate the provider confirmed in this call |
| `IdentityResolution.ReasonsTellWhy` | services/artist-intelligence-service/artist_intelligence_service/service.py:217-241 | without a leader the recorded reason and status say exactly what happened: verification cut short, every candidate missing, or no plausible candidate |
| `IdentityResolution.HonestExactlyUnlessBlind` | services/artist-intelligence-service/artist_intelligence_service/service.py:124-241 | a call keeps every resolved channel row verified and every pending row unresolved, exactly unless youtube_verify_top_n is zero and an allowed, successful search has a clear leader |
| `DemandJobs.BackoffGrows` | services/artist-intelligence-service/artist_intelligence_service/scheduler.py:404-417 | retries never come closer together and never wait longer than the maximum |
| `DemandJobs.OnlyAuthorityOrBudgetEnds` | services/artist-intelligence-service/artist_intelligence_service/scheduler.py:262-323 | transient trouble ends a job exactly when its attempts are used up, a spent quota never does, and an authoritative not-found does at once without counting as a failure |
| `DemandEnqueue.PassFlushesExactlyWhen` | services/artist-intelligence-service/artist_intelligence_service/scheduler.py:69-103 | enqueue_due goes through, keys unique, exactly when no unpaused artist has two RESOLVED channels with work missing |
| `DemandEnqueue.RepeatCreatesNothing` | services/artist-intelligence-service/artist_intelligence_service/scheduler.py:69-103 | a repeat inside the same windows creates no job |
| `DemandEnqueue.PausedGetNothing` | services/artist-intelligence-service/artist_intelligence_service/scheduler.py:81-89 | an artist in the paused set gets no job |
| `DemandEnqueue.EnqueueIsBounded` | services/artist-intelligence-service/artist_intelligence_service/scheduler.py:54-57 | T seconds hold at most ceil(T / interval) + 1 jobs per artist and recurring type |
| `DemandEnqueue.EnqueueKeepsTable` | services/artist-intelligence-service/artist_intelligence_service/scheduler.py:69-103 | a pass keeps keys unique and windows true to their creation time |
| `DemandEnqueue.BackfillIsTheOnlyOne` | services/artist-intelligence-service/artist_intelligence_service/scheduler.py:121-136 | a queued backfill is the artist's one active catalogue job |
| `DemandEnqueue.BackfillKeepsTable` | services/artist-intelligence-service/artist_intelligence_service/scheduler.py:121-136 | a queued backfill keeps keys unique and windows true |
| `DemandEnqueue.ReattemptsFailClosed` | services/artist-intelligence-service/artist_intelligence_service/scheduler.py:138-187 | re-attempts are queued only for artists the registry names, not paused and without an identity job under way; with the registry down none is |
| `DemandEnqueue.DiscoveryIsOnceForAll` | services/artist-intelligence-service/artist_intelligence_service/scheduler.py:106-119 | an identity-discovery job is queued at most once per artist for all time |
| `DemandEnqueue.BackfillRaisesExactlyWhenTwoWindows` | services/artist-intelligence-service/artist_intelligence_service/scheduler.py:121-136 | queueing a backfill raises exactly when the artist has unfinished catalogue jobs of two different windows |
| `DemandEnqueue.PassCrowdsExactlyWhen` | services/artist-intelligence-service/artist_intelligence_service/scheduler.py:69-103 | enqueue_due adds one unfinished catalogue job to an artist exactly when it is resolved, not paused and has no row of the current window, finished or not |
| `DemandShape.NoLeaseIsEverSeen` | services/artist-intelligence-service/artist_intelligence_service/scheduler.py:235-259 | in every run, however passes overlap: unique keys, true windows, and no committed row RUNNING or leased, so that no pass ever meets a lease |
| `DemandShape.JobsPerSpanAreBounded` | services/artist-intelligence-service/artist_intelligence_service/scheduler.py:54-136 | the windowed bound over whole runs of any interleaving |
| `DemandShape.ResolvedFailsExactlyWhenTwoWindows` | services/artist-intelligence-service/artist_intelligence_service/scheduler.py:312-318 | in every run, an identity job that resolved is counted as failed exactly when its pass sees unfinished catalogue jobs of the artist from two windows |
| `DemandBudget.WrittenBackLawfullyExactlyWhen` | services/artist-intelligence-service/artist_intelligence_service/scheduler.py:250-259 | a pass that writes its outcome back leaves a row that agrees with its history exactly when the row is still unfinished with the attempt count the pass read |
| `DemandBudget.CommitKeepsLawExactlyWhen` | services/artist-intelligence-service/artist_intelligence_service/scheduler.py:439-452 | and a commit does exactly when that holds of every row it writes |
| `DemandBudget.BudgetIsKeptExactlyWhen` | services/artist-intelligence-service/artist_intelligence_service/scheduler.py:235-452 | over every run of overlapping passes, rows and histories agree throughout if and only if every commit finds its rows so |
| `DemandBudget.ApartPassesKeepTheBudget` | services/artist-intelligence-service/artist_intelligence_service/scheduler.py:235-452 | passes that never select a row another open pass has selected keep it |
| `DemandBudget.RetryBudgetIsKept` | services/artist-intelligence-service/artist_intelligence_service/scheduler.py:404-452 | for passes that do not overlap, with no assumption on leases: a waiting job is charged its failures only, FAILED_RETRYABLE has budget left, failures never pass max_attempts, MAX_ATTEMPTS means the budget was really used, and finished jobs stay finished |
| `DemandRace.OverlapLosesAFailure` | services/artist-intelligence-service/artist_intelligence_service/scheduler.py:238-259 | two passes that select one pending row before either commits: two failures, one attempt charged |
| `DemandRace.OverlapRevivesAJob` | services/artist-intelligence-service/artist_intelligence_service/scheduler.py:238-259 | the same race puts a job that succeeded back to FAILED_RETRYABLE |
| `DemandRace.OverlapIsSafeExactlyWhenApart` | services/artist-intelligence-service/artist_intelligence_service/scheduler.py:238-259 | of two overlapping passes, every continuation keeps the budget if and only if they share no selected row |
| `DemandScheduling.ResolvedFailsExactlyWhenCrowded` | services/artist-intelligence-service/artist_intelligence_service/scheduler.py:312-323 | an identity job that resolved is counted as failed exactly when the artist has more than one active catalogue job, and as succeeded otherwise |
| `DemandScheduling.TwoWindowsAreReached` | services/artist-intelligence-service/artist_intelligence_service/scheduler.py:69-103 | that state is reached from the empty database by two passes in consecutive windows |
| `DemandScheduling.ExecutingIsExecuted` | services/artist-intelligence-service/artist_intelligence_service/scheduler.py:446-449 | executing one job inside a pass gives the pass the table a single session would see |
| `DemandScheduling.PassIsARun` | services/artist-intelligence-service/artist_intelligence_service/scheduler.py:439-452 | a run_once that nobody overlaps is a run of the interleaved system, so everything proved of runs holds of it |
| `DemandScheduling.DemandScheduler.EnqueueDuePass` | services/artist-intelligence-service/artist_intelligence_service/scheduler.py:69-103 | the loops add exactly the missing jobs, in one flush |
| `DemandScheduling.DemandScheduler.EnqueueIdentityDiscovery` | services/artist-intelligence-service/artist_intelligence_service/scheduler.py:106-119 | queues, skips or raises exactly as specified |
| `DemandScheduling.DemandScheduler.EnqueueIdentityReattempts` | services/artist-intelligence-service/artist_intelligence_service/scheduler.py:138-187 | the loop adds exactly the missing re-attempts, in one flush, or raises |
| `DemandScheduling.DemandScheduler.EnqueueCatalogueBackfill` | services/artist-intelligence-service/artist_intelligence_service/scheduler.py:121-136 | queues, skips or raises exactly as specified |
| `DemandScheduling.DemandScheduler.ClaimBatch` | services/artist-intelligence-service/artist_intelligence_service/scheduler.py:235-259 | claims rows no claimable row left out ranks before, within the limit |
| `DemandScheduling.DemandScheduler.MarkFailed` | services/artist-intelligence-service/artist_intelligence_service/scheduler.py:404-417 | retries with backoff below the budget and ends the job at it |
| `DemandScheduling.DemandScheduler.MarkDeferred` | services/artist-intelligence-service/artist_intelligence_service/scheduler.py:419-428 | puts the job back with its attempt refunded |
| `DemandScheduling.DemandScheduler.MarkSucceeded` | services/artist-intelligence-service/artist_intelligence_service/scheduler.py:325-335 | completes the job and clears its failures |
| `DemandScheduling.DemandScheduler.MarkTerminal` | services/artist-intelligence-service/artist_intelligence_service/scheduler.py:430-436 | ends the job with its code |
| `DemandScheduling.DemandScheduler.Execute` | services/artist-intelligence-service/artist_intelligence_service/scheduler.py:262-323 | maps every answer of the service to its outcome, a raise in queueing the backfill included |
| `DemandScheduling.DemandScheduler.ExecuteAll` | services/artist-intelligence-service/artist_intelligence_service/scheduler.py:446-449 | every claimed job is executed, in claim order |
| `DemandScheduling.DemandScheduler.RunOnce` | services/artist-intelligence-service/artist_intelligence_service/scheduler.py:439-452 | enqueue, re-attempt, claim, execute and commit; a raise in either enqueue ends the pass and leaves the table as it was |
| `Promotion.WeakEvidenceIsNotEnough` | services/artist-intelligence-service/artist_intelligence_service/promotion.py:73-101 | a single non-event source without a name match never canonicalises |
| `Promotion.PassIsRegistryBacked` | services/artist-intelligence-service/artist_intelligence_service/promotion.py:158-178 | a whole pass writes no unacknowledged canonical id, changes only its rows and takes no canonical id away |
| `Promotion.ProcessBacklog` | services/artist-intelligence-service/artist_intelligence_service/promotion.py:158-178 | the loop and its counters are the pass |
| `Watchlist.CompletedTargetsAreBacked` | services/artist-intelligence-service/artist_intelligence_service/watchlist.py:246-349 | a completed resolution ends WATCHING or AMBIGUOUS exactly with a canonical id the registry acknowledged in this call, else RESOLUTION_PENDING with none; PAUSED and REJECTED targets are untouched |
| `Watchlist.CreateKeepsKeys` | services/artist-intelligence-service/artist_intelligence_service/watchlist.py:205-242 | intake keeps dedup keys unique |
| `Watchlist.ResolveKeepsKeys` | services/artist-intelligence-service/artist_intelligence_service/watchlist.py:340-355 | re-keying after a resolution keeps dedup keys unique |
| `Watchlist.KeysStayUnique` | services/artist-intelligence-service/artist_intelligence_service/watchlist.py:205-422 | over every run of operator commands, whatever the services answer, dedup keys stay unique |
| `Watchlist.AddBreaksClaimsExactlyInOutage` | services/artist-intelligence-service/artist_intelligence_service/watchlist.py:358-378 | intake leaves a watched target without canonical id exactly when it is added again during a registry outage |
| `Watchlist.ClaimsHoldExactlyWhenNeverCaught` | services/artist-intelligence-service/artist_intelligence_service/watchlist.py:205-422 | over every run from the empty table, every watched target holds a canonical id throughout if and only if no intake is caught by an outage |
| `Watchlist.AddingTwiceIsCaught` | services/artist-intelligence-service/artist_intelligence_service/watchlist.py:358-378 | which happens: an artist added by a registered id, and added again while the registry is down |
| `Watchlist.PausedArtistGetsNoJobs` | services/artist-intelligence-service/artist_intelligence_service/watchlist.py:125-138 | an artist is suspended exactly by a paused target with no active one, and then gets no recurring job |
| `Watchlist.WatchlistService.Create` | services/artist-intelligence-service/artist_intelligence_service/watchlist.py:205-242 | create or merge exactly as specified |
| `Watchlist.WatchlistService.ResolveAt` | services/artist-intelligence-service/artist_intelligence_service/watchlist.py:246-349 | updates target and candidates exactly as specified, partial updates of a raise included |
| `Watchlist.WatchlistService.AddAndResolve` | services/artist-intelligence-service/artist_intelligence_service/watchlist.py:358-378 | is the intake command of the runs |
| `Watchlist.WatchlistService.PauseAt` | services/artist-intelligence-service/artist_intelligence_service/watchlist.py:382-386 | is the pause command of the runs |
| `Watchlist.WatchlistService.RemoveAt` | services/artist-intelligence-service/artist_intelligence_service/watchlist.py:415-422 | is the reject command of the runs |
| `Watchlist.WatchlistService.ResumeAt` | services/artist-intelligence-service/artist_intelligence_service/watchlist.py:389-404 | is the resume command of the runs; a resolution that raises leaves the rows as resolving the queued target does, for the caller to roll back |
| `Movement.AgeBucket` | services/artist-intelligence-service/artist_intelligence_service/movement.py:52-58 | the first configured bound above the age |
| `Movement.MedianIsInTheMiddle` | services/artist-intelligence-service/artist_intelligence_service/movement.py:83-84 | half of the values are at most the median and half at least |
| `Movement.ScaleInvariance` | services/artist-intelligence-service/artist_intelligence_service/movement.py:108-182 | multiplying all view counts of an artist by one positive constant changes no classification, ratio or acceleration |
| `Movement.ShiftInvariance` | services/artist-intelligence-service/artist_intelligence_service/movement.py:65-101 | shifting all timestamps and now together changes no verdict |
| `Movement.OwnSeriesDoesNotMoveTheBaseline` | services/artist-intelligence-service/artist_intelligence_service/movement.py:250-256 | changing a video's own series never changes the baseline it is judged against |
| `Movement.EcosystemVideosDoNotInterfere` | services/artist-intelligence-service/artist_intelligence_service/movement.py:247-256 | a video the artist does not own never moves another video's verdict |
| `Movement.MovementIsEvidenced` | services/artist-intelligence-service/artist_intelligence_service/movement.py:130-182 | a video moves exactly when its ratio reaches the rising bound, breaks out exactly when it is also young, high and accelerating, and a ratio needs observations, a velocity and a cohort with a positive median |
| `Movement.BuildBaselines` | services/artist-intelligence-service/artist_intelligence_service/movement.py:87-101 | the dict holds, per bucket, the velocities of the owned videos of that age, in order |
| `Movement.ArtistMovement` | services/artist-intelligence-service/artist_intelligence_service/movement.py:235-265 | one verdict per video against baselines built once, the count per state, and the cross-channel flag |
| `Movement.StatesConserveVideos` | services/artist-intelligence-service/artist_intelligence_service/movement.py:258-260 | the five counts add up to the videos considered |

## Left out

- CaptureTables.RecoverKeepsTable: reading the RUNNING rows and releasing them is one step, because each database transaction is one atomic step of the model.
- CaptureService.SchedulerService.RunOnce: a pass with enrichment switched off, as it is by default; enrichment is a step of `CaptureRuns` and the method `ApplyEnrichment`.
- CaptureStore.Enrich: the fields that bear on a schedule only; enrichment may follow any capture that found the record, and its result is an input.
- DemandShape.NoLeaseIsEverSeen: a pass may select any set of claimable rows, in any order, which covers every limit and ranking; `DemandScheduling` has those. Deadlocks, statement timeouts and isolation levels above READ COMMITTED are not modelled.
- DemandBudget.RetryBudgetIsKept: a pass that is rolled back leaves no trace in rows or histories, so work its service calls did elsewhere is not counted.
- Governance.HistoryReplays: replays the status column only, because reject logs no canonical id while the candidate keeps its own.
- ReadModels.RegionalRows: rows are keyed by region; the sorted order of the returned list, names and first and last dates are not modelled.
- Movement.ScaleInvariance: view counts only; rounding of reported values and the comment velocity, which no classification reads, are not modelled.
- Movement.ArtistMovement: the highest velocity, the owned and ecosystem tallies and the optional relationship filter are not modelled.
- Watchlist.CompletedTargetsAreBacked: the onboarding call after a backed resolution (candidate and job rows of other tables) is not modelled.
- The post-capture hooks for entity resolution and media, how enrichment resolves its fields, and all graph writes made after a commit.
- The capture tables' canonical ids, source list and city allow-list lookups beyond a membership input; `compute_priority` is an input of the jobs it ranks.
- Time zones and daylight rules: the local day and the quota day are inputs, and `near_provider_reset` is a flag.
- Quota of snapshots, backfills and registry refreshes, which record spend without asking a gate; the reserve of the general pool is reported only.
- Scoring of candidates, parsing of YouTube hints, name normalisation and marker matching: pure text functions, taken as inputs.
- `superseded_folds`, `series_activity`, `commercial_state` and `build_trace`: further projections of the modelled rows.
- `create_entity` and `correct_series`: an accept, which is modelled, followed by graph writes.
- Retry-after headers are non-negative numbers or absent; how they are parsed is not modelled.
- Floating-point rounding: fractions and velocities are reals.
- The frontend, gateway, routing, migrations, configuration loading and HTTP clients.
