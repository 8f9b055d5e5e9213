/** Runs of the capture scheduler: any number of workers and operators, interleaved between database
    transactions. A worker's claim opens a session; `process_job` reads the job, captures outside any
    transaction with an arbitrary result, and commits, closing the session. After a commit that found the
    record it may still enrich the tracker, in a transaction of its own. A crash ends either. */
module CaptureRuns {
  import opened Options
  import opened Cadence
  import opened Classification
  import opened CaptureStore
  import opened CaptureTables

  /** What happened to one job so far. */
  datatype History = History(claims: nat, recoveries: nat, commits: nat)

  /** A worker between claim and commit; `attempt` is set once `process_job` has read the row. */
  datatype Session = Session(job: nat, lease: int, attempt: Option<nat>)

  /** The tables plus what no table records: open sessions, job histories, per-tracker result logs and the
      enrichments still to come. */
  datatype System = System(
    store: Store, sessions: map<nat, Session>, nextSession: nat, history: seq<History>, results: seq<seq<Code>>,
    hooks: map<nat, EventKey>)

  datatype Step =
    | EnrollStep(key: EventKey, city: Option<string>, startsAt: Option<int>, onSaleAt: Option<int>)
    | GenerateStep(now: int)
    | RecoverStep(now: int)
    | ClaimStep(job: nat, worker: string, now: int)
    | ReadStep(session: nat)
    | CommitStep(session: nat, outcome: CaptureOutcome, today: Option<int>, now: int)
    | EnrichStep(session: nat, found: Option<Enrichment>, today: Option<int>, now: int)
    | CrashStep(session: nat)
    | CaptureNowStep(key: EventKey, now: int)

  ghost predicate Shape(y: System) {
    |y.history| == |y.store.jobs| && |y.results| == |y.store.events| &&
    (forall c :: c in y.sessions ==> c < y.nextSession && y.sessions[c].job < |y.store.jobs|)
  }

  ghost predicate Inv(y: System) {
    Shape(y) && TableInv(y.store)
  }

  function Fresh(n: nat): (h: seq<History>)
    ensures |h| == n && forall i :: 0 <= i < n ==> h[i] == History(0, 0, 0)
  {
    seq(n, i => History(0, 0, 0))
  }

  function Recovered(y: System, now: int): seq<History>
    requires |y.history| == |y.store.jobs|
  {
    seq(|y.history|, j requires 0 <= j < |y.history| =>
      if IsExpired(y.store.jobs[j], now) then y.history[j].(recoveries := y.history[j].recoveries + 1) else y.history[j])
  }

  function GrowTo(y: System, store: Store): System
    requires |y.store.jobs| <= |store.jobs|
  {
    y.(store := store, history := y.history + Fresh(|store.jobs| - |y.store.jobs|))
  }

  function NextRecover(y: System, now: int): System
    requires |y.history| == |y.store.jobs|
  {
    y.(store := Recover(y.store, now), history := Recovered(y, now))
  }

  function NextClaim(y: System, j: nat, worker: string, now: int, cfg: Settings): System
    requires j < |y.store.jobs| && |y.history| == |y.store.jobs|
  {
    y.(store := Claim(y.store, j, now, worker, cfg),
       sessions := y.sessions[y.nextSession := Session(j, now + cfg.lockTtlSeconds * SECOND, None)],
       nextSession := y.nextSession + 1,
       history := y.history[j := y.history[j].(claims := y.history[j].claims + 1)])
  }

  function NextRead(y: System, c: nat): System
    requires c in y.sessions && y.sessions[c].job < |y.store.jobs|
  {
    y.(sessions := y.sessions[c := y.sessions[c].(attempt := Some(y.store.jobs[y.sessions[c].job].attemptCount))])
  }

  function NextCommit(y: System, c: nat, outcome: CaptureOutcome, today: Option<int>, now: int, cfg: Settings): System
    requires c in y.sessions && y.sessions[c].attempt.Some? && y.sessions[c].job < |y.store.jobs|
    requires |y.history| == |y.store.jobs| && |y.results| == |y.store.events|
    requires FindEvent(y.store.events, y.store.jobs[y.sessions[c].job].key).Some?
  {
    var j := y.sessions[c].job;
    var e := FindEvent(y.store.events, y.store.jobs[j].key).value;
    y.(store := Commit(y.store, j, outcome, y.sessions[c].attempt.value, today, now, cfg),
       sessions := y.sessions - {c},
       history := y.history[j := y.history[j].(commits := y.history[j].commits + 1)],
       results := y.results[e := y.results[e] + [outcome.code]],
       hooks := if outcome.code == RecordPresent then y.hooks[c := y.store.jobs[j].key] else y.hooks)
  }

  /** Nothing found, or enrichment switched off, changes nothing. */
  function NextEnrich(y: System, c: nat, found: Option<Enrichment>, today: Option<int>, now: int, cfg: Settings): System
    requires c in y.hooks
  {
    y.(store := if found.Some? then Enrich(y.store, y.hooks[c], found.value, today, now, cfg) else y.store,
       hooks := y.hooks - {c})
  }

  /** One transaction (or crash, or read). A step that cannot happen changes nothing. */
  ghost function Next(y: System, step: Step, cfg: Settings): System
    requires Inv(y)
  {
    match step
    case EnrollStep(key, city, startsAt, onSaleAt) =>
      var store := Enroll(y.store, key, city, startsAt, onSaleAt, cfg);
      y.(store := store, results := if |store.events| > |y.store.events| then y.results + [[]] else y.results)
    case GenerateStep(now) => GrowTo(y, Generate(y.store, now, cfg))
    case RecoverStep(now) => NextRecover(y, now)
    case ClaimStep(j, worker, now) =>
      if j < |y.store.jobs| && y.store.jobs[j].status == Pending then NextClaim(y, j, worker, now, cfg) else y
    case ReadStep(c) => if c in y.sessions then NextRead(y, c) else y
    case CommitStep(c, outcome, today, now) =>
      if c in y.sessions && y.sessions[c].attempt.Some? then NextCommit(y, c, outcome, today, now, cfg) else y
    case EnrichStep(c, found, today, now) => if c in y.hooks then NextEnrich(y, c, found, today, now, cfg) else y
    case CrashStep(c) => y.(sessions := y.sessions - {c}, hooks := y.hooks - {c})
    case CaptureNowStep(key, now) => GrowTo(y, InsertCaptureNow(y.store, key, now))
  }

  const Start: System := System(Store([], []), map[], 0, [], [], map[])

  lemma TrackerStepKeepsInv(y: System, step: Step, cfg: Settings)
    requires Inv(y) && (step.EnrollStep? || step.EnrichStep?)
    ensures Inv(Next(y, step, cfg)) && Progressed(y.store, Next(y, step, cfg).store)
  {
    if step.EnrollStep? {
      EnrollKeepsTable(y.store, step.key, step.city, step.startsAt, step.onSaleAt, cfg);
    } else if step.session in y.hooks && step.found.Some? {
      EnrichKeepsTable(y.store, y.hooks[step.session], step.found.value, step.today, step.now, cfg);
    }
  }

  lemma StepKeepsInv(y: System, step: Step, cfg: Settings)
    requires Inv(y)
    ensures Inv(Next(y, step, cfg)) && Progressed(y.store, Next(y, step, cfg).store)
  {
    if step.EnrollStep? || step.EnrichStep? {
      TrackerStepKeepsInv(y, step, cfg);
    } else if step.GenerateStep? {
      GenerateKeepsTable(y.store, step.now, cfg);
    } else if step.RecoverStep? {
      RecoverKeepsTable(y.store, step.now);
    } else if step.CaptureNowStep? {
      CaptureNowKeepsTable(y.store, step.key, step.now);
    } else if step.ClaimStep? {
      if step.job < |y.store.jobs| {
        ClaimKeepsTable(y.store, step.job, step.now, step.worker, cfg);
      }
    } else if step.CommitStep? && step.session in y.sessions && y.sessions[step.session].attempt.Some? {
      CommitKeepsTable(y.store, y.sessions[step.session].job, step.outcome, y.sessions[step.session].attempt.value,
                       step.today, step.now, cfg);
    }
  }

  ghost function Run(y: System, steps: seq<Step>, cfg: Settings): (r: System)
    requires Inv(y)
    ensures Inv(r)
    decreases |steps|
  {
    if steps == [] then y
    else
      StepKeepsInv(y, steps[0], cfg);
      Run(Next(y, steps[0], cfg), steps[1..], cfg)
  }

  lemma RunHead(y: System, steps: seq<Step>, cfg: Settings)
    requires Inv(y) && steps != []
    ensures Inv(Next(y, steps[0], cfg)) && Run(y, steps, cfg) == Run(Next(y, steps[0], cfg), steps[1..], cfg)
  {
    StepKeepsInv(y, steps[0], cfg);
  }

  lemma {:induction false} RunConcat(y: System, a: seq<Step>, b: seq<Step>, cfg: Settings)
    requires Inv(y)
    ensures Run(y, a + b, cfg) == Run(Run(y, a, cfg), b, cfg)
    decreases |a|
  {
    if a == [] {
      assert a + b == b;
    } else {
      StepKeepsInv(y, a[0], cfg);
      assert (a + b)[1..] == a[1..] + b;
      RunConcat(Next(y, a[0], cfg), a[1..], b, cfg);
    }
  }
}
