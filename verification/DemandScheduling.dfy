/**
 * `DemandScheduler` as the code runs it: one session that updates job rows in place. A whole `run_once` is
 * proved to be a run of the interleaved system, with nobody else in between.
 */
module DemandScheduling {
  import opened Options
  import opened DemandJobs
  import opened DemandEnqueue
  import opened DemandRuns
  import opened DemandShape
  import opened DemandBudget
  import DemandRace

  // ---- The claim query -----------------------------------------------------------------------------------

  // ORDER BY priority, scheduled_at
  predicate Better(a: Job, b: Job) {
    a.priority < b.priority || (a.priority == b.priority && a.scheduledAt < b.scheduledAt)
  }

  ghost predicate Rows(jobs: seq<Job>, rows: seq<nat>, now: int) {
    && (forall k :: 0 <= k < |rows| ==> rows[k] < |jobs| && Claimable(jobs[rows[k]], now))
    && (forall k, l :: 0 <= k < l < |rows| ==> rows[k] != rows[l] && !Better(jobs[rows[l]], jobs[rows[k]]))
  }

  ghost predicate NoneBetter(jobs: seq<Job>, rows: seq<nat>, r: nat)
    requires r < |jobs| && forall k :: 0 <= k < |rows| ==> rows[k] < |jobs|
  {
    forall k :: 0 <= k < |rows| ==> !Better(jobs[r], jobs[rows[k]])
  }

  // A legal answer to the query: no claimable row left out ranks before one taken, and rows are left
  // out only when the limit is reached.
  ghost predicate BestRows(jobs: seq<Job>, rows: seq<nat>, now: int, limit: nat) {
    && Rows(jobs, rows, now) && |rows| <= limit
    && forall r :: 0 <= r < |jobs| && Claimable(jobs[r], now) && r !in rows ==>
         |rows| == limit && NoneBetter(jobs, rows, r)
  }

  function ClaimAll(cfg: Settings, jobs: seq<Job>, rows: seq<nat>, worker: string, now: int): seq<Job> {
    seq(|jobs|, j requires 0 <= j < |jobs| => if j in rows then Claimed(cfg, jobs[j], worker, now) else jobs[j])
  }

  // ---- Executing a job on one's own row ----------------------------------------------------------------------

  datatype Execution = Execution(jobs: seq<Job>, outcome: Outcome)

  function Executed(cfg: Settings, jobs: seq<Job>, j: nat, answer: Answer, now: int): Execution
    requires j < |jobs| && jobs[j].attempts >= 1
  {
    var backfilled := if jobs[j].jobType == IdentityDiscovery && answer == Replied(RESOLVED)
                      then Backfill(cfg, jobs, jobs[j].artist, STRONG, now) else AlreadyThere;
    var outcome := OutcomeOf(jobs[j].jobType, answer, backfilled.MultipleRows?);
    var grown := if backfilled.Queued? then backfilled.jobs else jobs;
    Execution(grown[j := Finished(cfg, jobs[j], outcome, ReportOf(answer), now)], outcome)
  }

  // The jobs of a batch, one after the other.
  function ExecutedAll(cfg: Settings, jobs: seq<Job>, rows: seq<nat>, answer: Key -> Answer, now: int): (r: seq<Job>)
    requires forall k :: 0 <= k < |rows| ==> rows[k] < |jobs| && jobs[rows[k]].attempts >= 1
    requires forall k, l :: 0 <= k < l < |rows| ==> rows[k] != rows[l]
    ensures |r| >= |jobs|
    ensures forall i :: 0 <= i < |jobs| && i !in rows ==> r[i] == jobs[i]
    decreases |rows|
  {
    if rows == [] then jobs
    else
      var last := |rows| - 1;
      var before := ExecutedAll(cfg, jobs, rows[..last], answer, now);
      assert rows[last] !in rows[..last];
      Executed(cfg, before, rows[last], answer(before[rows[last]].key), now).jobs
  }

  /**
   * An identity job that resolved is counted as failed exactly when its artist already has more than one
   * active catalogue job; `BackfillRaisesExactlyWhenTwoWindows` says when that is.
   */
  lemma ResolvedFailsExactlyWhenCrowded(cfg: Settings, jobs: seq<Job>, j: nat, now: int)
    requires j < |jobs| && jobs[j].attempts >= 1 && jobs[j].jobType == IdentityDiscovery
    ensures Executed(cfg, jobs, j, Replied(RESOLVED), now).outcome == Fails
       <==> ActiveRows(jobs, jobs[j].artist, CatalogueBackfill) > 1
    ensures Executed(cfg, jobs, j, Replied(RESOLVED), now).outcome != Fails ==>
              Executed(cfg, jobs, j, Replied(RESOLVED), now).outcome == Succeeds
  {
  }

  // ---- A whole pass -----------------------------------------------------------------------------------------------

  // Where a work stands in the view.
  function Index(s: System, w: Work): nat {
    if w.mine then |s.jobs| + w.row else w.row
  }

  function BaseRow(s: System, p: Pass, i: nat): Job
    requires i < |s.jobs| + |p.own|
  {
    if i < |s.jobs| then s.jobs[i] else p.own[i - |s.jobs|]
  }

  // What the pass itself makes of a row it selected.
  function OwnCopy(cfg: Settings, p: Pass, w: Work): Job {
    var claim := ClaimOf(cfg, p, w);
    match w.done
    case None => claim
    case Some(d) => Finished(cfg, claim, d.outcome, d.report, p.at)
  }

  ghost predicate Working(s: System, p: Pass) {
    WorksShape(s, p) && Untouched(s, p) && p.phase == Locked
  }

  lemma ViewOfWork(cfg: Settings, s: System, p: Pass, k: nat)
    requires Working(s, p) && k < |p.works|
    ensures Index(s, p.works[k]) < |s.jobs| + |p.own|
    ensures View(cfg, s, p)[Index(s, p.works[k])] == OwnCopy(cfg, p, p.works[k])
  {
    var w := p.works[k];
    assert WorkShape(s, p, w);
    WorkIsFound(p, k);
    var claim := ClaimOf(cfg, p, w);
    WriteBackOfOwnRow(w.selected, claim);
    if w.done.Some? {
      WriteBackOfOwnRow(claim, Finished(cfg, claim, w.done.value.outcome, w.done.value.report, p.at));
    }
  }

  lemma ViewElsewhere(cfg: Settings, s: System, p: Pass, i: nat)
    requires WorksShape(s, p) && i < |s.jobs| + |p.own|
    requires forall k :: 0 <= k < |p.works| ==> Index(s, p.works[k]) != i
    ensures View(cfg, s, p)[i] == BaseRow(s, p, i)
  {
    var mine, row := i >= |s.jobs|, if i < |s.jobs| then i else i - |s.jobs|;
    var k := WorkOn(p.works, mine, row);
    assert k < |p.works| ==> Index(s, p.works[k]) == i;
  }

  // Executing one work, as the pass sees it.
  function Executing1(cfg: Settings, s: System, p: Pass, k: nat, answer: Answer): Pass
    requires k < |p.works|
  {
    var b := BackfillOf(cfg, s, p, p.works[k], answer);
    p.(works := p.works[k := p.works[k].(done := Some(DoneOf(p.works[k], answer, b)))],
       own := p.own + BackfillRows(View(cfg, s, p), b))
  }

  lemma ExecutingIsWorking(cfg: Settings, s: System, p: Pass, k: nat, answer: Answer)
    requires Working(s, p) && k < |p.works|
    ensures Working(s, Executing1(cfg, s, p, k, answer))
  {
    var b := BackfillOf(cfg, s, p, p.works[k], answer);
    InsertingKeepsWorks(s, p, BackfillRows(View(cfg, s, p), b));
    MarkingKeepsWorks(s, p.(own := p.own + BackfillRows(View(cfg, s, p), b)), k, DoneOf(p.works[k], answer, b));
  }

  lemma ExecutingElsewhere(cfg: Settings, s: System, p: Pass, k: nat, answer: Answer, i: nat)
    requires Working(s, p) && k < |p.works| && i < |s.jobs| + |p.own| && i != Index(s, p.works[k])
    ensures View(cfg, s, Executing1(cfg, s, p, k, answer))[i] == View(cfg, s, p)[i]
  {
    var p' := Executing1(cfg, s, p, k, answer);
    ExecutingIsWorking(cfg, s, p, k, answer);
    if l :| 0 <= l < |p.works| && Index(s, p.works[l]) == i {
      ViewOfWork(cfg, s, p, l);
      ViewOfWork(cfg, s, p', l);
    } else {
      ViewElsewhere(cfg, s, p, i);
      forall l | 0 <= l < |p'.works| ensures Index(s, p'.works[l]) != i {
        assert Index(s, p'.works[l]) == Index(s, p.works[l]);
      }
      ViewElsewhere(cfg, s, p', i);
    }
  }

  lemma ExecutedWork(cfg: Settings, s: System, p: Pass, k: nat, answer: Answer)
    requires Working(s, p) && k < |p.works| && p.works[k].done.None?
    ensures Index(s, p.works[k]) < |View(cfg, s, p)| && View(cfg, s, p)[Index(s, p.works[k])].attempts >= 1
    ensures var j := Index(s, p.works[k]);
            View(cfg, s, Executing1(cfg, s, p, k, answer))[j] == Executed(cfg, View(cfg, s, p), j, answer, p.at).jobs[j]
  {
    ViewOfWork(cfg, s, p, k);
    ExecutingIsWorking(cfg, s, p, k, answer);
    ViewOfWork(cfg, s, Executing1(cfg, s, p, k, answer), k);
  }

  // The rows behind the view are those the job's backfill added.
  lemma ExecutedAdds(cfg: Settings, s: System, p: Pass, k: nat, answer: Answer, i: nat)
    requires Working(s, p) && k < |p.works| && |View(cfg, s, p)| <= i < |View(cfg, s, Executing1(cfg, s, p, k, answer))|
    ensures var b := BackfillOf(cfg, s, p, p.works[k], answer);
            b.Queued? && i < |b.jobs| && View(cfg, s, Executing1(cfg, s, p, k, answer))[i] == b.jobs[i]
  {
    var p' := Executing1(cfg, s, p, k, answer);
    ExecutingIsWorking(cfg, s, p, k, answer);
    forall l | 0 <= l < |p'.works| ensures Index(s, p'.works[l]) != i {
      ViewOfWork(cfg, s, p, l);
    }
    ViewElsewhere(cfg, s, p', i);
  }

  /** What a pass sees after executing a job is what a lone session would make of its table. */
  lemma ExecutingIsExecuted(cfg: Settings, s: System, p: Pass, k: nat, answer: Answer)
    requires Working(s, p) && k < |p.works| && p.works[k].done.None?
    ensures Index(s, p.works[k]) < |View(cfg, s, p)| && View(cfg, s, p)[Index(s, p.works[k])].attempts >= 1
    ensures View(cfg, s, Executing1(cfg, s, p, k, answer))
         == Executed(cfg, View(cfg, s, p), Index(s, p.works[k]), answer, p.at).jobs
  {
    ExecutedWork(cfg, s, p, k, answer);
    ViewOfWork(cfg, s, p, k);
    var view, view' := View(cfg, s, p), View(cfg, s, Executing1(cfg, s, p, k, answer));
    var j := Index(s, p.works[k]);
    var executed := Executed(cfg, view, j, answer, p.at).jobs;
    assert |view'| == |executed|;
    forall i | 0 <= i < |view'| ensures view'[i] == executed[i] {
      if i >= |view| {
        ExecutedAdds(cfg, s, p, k, answer, i);
      } else if i != j {
        ExecutingElsewhere(cfg, s, p, k, answer, i);
      }
    }
  }

  function Indexes(s: System, p: Pass): (rows: seq<nat>)
    ensures |rows| == |p.works|
  {
    seq(|p.works|, k requires 0 <= k < |p.works| => Index(s, p.works[k]))
  }

  ghost predicate IndexesAre(view: seq<Job>, rows: seq<nat>) {
    && (forall k :: 0 <= k < |rows| ==> rows[k] < |view| && view[rows[k]].attempts >= 1)
    && (forall k, l :: 0 <= k < l < |rows| ==> rows[k] != rows[l])
  }

  ghost predicate Alone(s: System, p: nat) {
    && |s.histories| == |s.jobs| && IsOpen(s, p)
    && forall q :: 0 <= q < |s.passes| && s.passes[q].open ==> q == p
  }

  // The lone pass `p` sees `view` and has executed the first `n` of the works on `rows`.
  ghost predicate Midway(cfg: Settings, s: System, p: nat, rows: seq<nat>, n: nat, view: seq<Job>, at: int) {
    && Alone(s, p) && Working(s, s.passes[p]) && Indexes(s, s.passes[p]) == rows && s.passes[p].at == at
    && (forall k :: 0 <= k < |rows| ==> (s.passes[p].works[k].done.None? <==> k >= n))
    && View(cfg, s, s.passes[p]) == view
  }

  lemma ExecuteNext(cfg: Settings, s: System, p: nat, rows: seq<nat>, n: nat, view: seq<Job>, at: int, answer: Key -> Answer)
    returns (step: Step)
    requires Midway(cfg, s, p, rows, n, view, at) && n < |rows|
    ensures Enabled(cfg, s, step) && rows[n] < |view| && view[rows[n]].attempts >= 1
    ensures Midway(cfg, Next(cfg, s, step), p, rows, n + 1,
                   Executed(cfg, view, rows[n], answer(view[rows[n]].key), at).jobs, at)
  {
    var pass := s.passes[p];
    ViewOfWork(cfg, s, pass, n);
    step := Execute(p, n, answer(view[rows[n]].key));
    ExecutingIsExecuted(cfg, s, pass, n, step.answer);
    ExecutingIsWorking(cfg, s, pass, n, step.answer);
    var pass' := Next(cfg, s, step).passes[p];
    assert pass' == Executing1(cfg, s, pass, n, step.answer);
    SameIndexes(cfg, s, Next(cfg, s, step), pass, n, step.answer);
  }

  lemma SameIndexes(cfg: Settings, s: System, s': System, p: Pass, k: nat, answer: Answer)
    requires k < |p.works| && s'.jobs == s.jobs
    ensures Indexes(s', Executing1(cfg, s, p, k, answer)) == Indexes(s, p)
  {
  }

  lemma ExecutedNext(cfg: Settings, view: seq<Job>, rows: seq<nat>, n: nat, answer: Key -> Answer, at: int)
    requires IndexesAre(view, rows) && n < |rows|
    ensures var seen := ExecutedAll(cfg, view, rows[..n], answer, at);
            && rows[n] < |seen| && seen[rows[n]].attempts >= 1
            && ExecutedAll(cfg, view, rows[..n + 1], answer, at)
               == Executed(cfg, seen, rows[n], answer(seen[rows[n]].key), at).jobs
  {
    assert rows[..n + 1][..n] == rows[..n];
    assert rows[n] !in rows[..n];
  }

  ghost predicate RunsTo(cfg: Settings, s: System, steps: seq<Step>, p: nat, rows: seq<nat>, n: nat, view: seq<Job>, at: int) {
    Valid(cfg, s, steps) && Midway(cfg, After(cfg, s, steps), p, rows, n, view, at)
  }

  lemma RunsOn(cfg: Settings, s: System, steps: seq<Step>, p: nat, rows: seq<nat>, n: nat, view: seq<Job>, at: int,
               answer: Key -> Answer) returns (more: seq<Step>)
    requires RunsTo(cfg, s, steps, p, rows, n, view, at) && n < |rows|
    ensures rows[n] < |view| && view[rows[n]].attempts >= 1
    ensures RunsTo(cfg, s, more, p, rows, n + 1, Executed(cfg, view, rows[n], answer(view[rows[n]].key), at).jobs, at)
  {
    var s1 := After(cfg, s, steps);
    var step := ExecuteNext(cfg, s1, p, rows, n, view, at, answer);
    OneStep(cfg, s1, step);
    RunConcat(cfg, s, steps, [step]);
    more := steps + [step];
  }

  lemma {:induction false} ExecutingRuns(cfg: Settings, s: System, p: nat, rows: seq<nat>, view: seq<Job>, at: int,
                                         answer: Key -> Answer, n: nat) returns (steps: seq<Step>)
    requires Midway(cfg, s, p, rows, 0, view, at) && IndexesAre(view, rows) && n <= |rows|
    ensures RunsTo(cfg, s, steps, p, rows, n, ExecutedAll(cfg, view, rows[..n], answer, at), at)
    decreases n
  {
    if n == 0 {
      steps := [];
      assert rows[..0] == [];
    } else {
      var before := ExecutingRuns(cfg, s, p, rows, view, at, answer, n - 1);
      ExecutedNext(cfg, view, rows, n - 1, answer, at);
      steps := RunsOn(cfg, s, before, p, rows, n - 1, ExecutedAll(cfg, view, rows[..n - 1], answer, at), at, answer);
    }
  }

  lemma OneStep(cfg: Settings, s: System, step: Step)
    requires Enabled(cfg, s, step)
    ensures Valid(cfg, s, [step]) && After(cfg, s, [step]) == Next(cfg, s, step)
  {
    DemandRace.Cons(cfg, s, step, []);
    assert [step] + [] == [step];
  }

  lemma CommitNext(cfg: Settings, s: System, p: nat, rows: seq<nat>, view: seq<Job>, at: int)
    requires Midway(cfg, s, p, rows, |rows|, view, at)
    ensures Enabled(cfg, s, Commit(p))
    ensures Idle(Next(cfg, s, Commit(p))) && Next(cfg, s, Commit(p)).jobs == view
  {
  }

  lemma ExecutingCommits(cfg: Settings, s: System, p: nat, rows: seq<nat>, view: seq<Job>, at: int, answer: Key -> Answer)
    returns (steps: seq<Step>)
    requires Midway(cfg, s, p, rows, 0, view, at) && IndexesAre(view, rows)
    ensures Valid(cfg, s, steps) && Idle(After(cfg, s, steps))
    ensures After(cfg, s, steps).jobs == ExecutedAll(cfg, view, rows, answer, at)
  {
    var executing := ExecutingRuns(cfg, s, p, rows, view, at, answer, |rows|);
    var s1 := After(cfg, s, executing);
    assert rows[..|rows|] == rows;
    CommitNext(cfg, s1, p, rows, ExecutedAll(cfg, view, rows, answer, at), at);
    OneStep(cfg, s1, Commit(p));
    RunConcat(cfg, s, executing, [Commit(p)]);
    steps := executing + [Commit(p)];
  }

  // Both enqueues of a pass, if neither raises.
  function QueuedBoth(cfg: Settings, jobs: seq<Job>, now: int, ids: seq<Resolved>, us: seq<Unsettled>,
                      registry: Option<set<string>>, paused: set<string>): Option<seq<Job>>
  {
    match EnqueueDue(cfg, jobs, ids, paused, now)
    case Flushed(due, _) =>
      (match EnqueueReattempts(cfg, due, us, registry, paused, now)
       case Flushed(again, _) => Some(again)
       case _ => None)
    case _ => None
  }

  // The chosen rows claimed and executed.
  function Drained(cfg: Settings, jobs: seq<Job>, rows: seq<nat>, worker: string, now: int, answer: Key -> Answer): seq<Job>
    requires forall k :: 0 <= k < |rows| ==> rows[k] < |jobs|
    requires forall k, l :: 0 <= k < l < |rows| ==> rows[k] != rows[l]
  {
    ExecutedAll(cfg, ClaimAll(cfg, jobs, rows, worker, now), rows, answer, now)
  }

  // ---- A whole pass is a run --------------------------------------------------------------------------------------

  // The lone pass `p` has both enqueues behind it and stands before the query.
  ghost predicate Queueing(cfg: Settings, s: System, p: nat, jobs: seq<Job>) {
    && Shape(cfg, s) && IsOpen(s, p) && (forall q :: 0 <= q < |s.passes| && s.passes[q].open ==> q == p)
    && s.passes[p].phase == Reading && View(cfg, s, s.passes[p]) == jobs
  }

  lemma DueNext(cfg: Settings, s: System, p: nat, jobs: seq<Job>, ids: seq<Resolved>, paused: set<string>)
    requires Queueing(cfg, s, p, jobs) && EnqueueDue(cfg, jobs, ids, paused, s.passes[p].at).Flushed?
    ensures Enabled(cfg, s, EnqueueDueWork(p, ids, paused))
    ensures var e := Next(cfg, s, EnqueueDueWork(p, ids, paused));
            && Queueing(cfg, e, p, EnqueueDue(cfg, jobs, ids, paused, s.passes[p].at).jobs)
            && e.passes[p].at == s.passes[p].at && e.passes[p].worker == s.passes[p].worker
  {
    var step := EnqueueDueWork(p, ids, paused);
    StepKeepsShape(cfg, s, step);
    var e := Next(cfg, s, step);
    GrownView(cfg, s, e, s.passes[p], e.passes[p], EnqueueDue(cfg, jobs, ids, paused, s.passes[p].at).jobs);
  }

  lemma ReattemptNext(cfg: Settings, s: System, p: nat, jobs: seq<Job>, us: seq<Unsettled>, registry: Option<set<string>>,
                      paused: set<string>)
    requires Queueing(cfg, s, p, jobs) && EnqueueReattempts(cfg, jobs, us, registry, paused, s.passes[p].at).Flushed?
    ensures Enabled(cfg, s, QueueReattempts(p, us, registry, paused))
    ensures var e := Next(cfg, s, QueueReattempts(p, us, registry, paused));
            && Queueing(cfg, e, p, EnqueueReattempts(cfg, jobs, us, registry, paused, s.passes[p].at).jobs)
            && e.passes[p].at == s.passes[p].at && e.passes[p].worker == s.passes[p].worker
  {
    var step := QueueReattempts(p, us, registry, paused);
    StepKeepsShape(cfg, s, step);
    var e := Next(cfg, s, step);
    GrownView(cfg, s, e, s.passes[p], e.passes[p], EnqueueReattempts(cfg, jobs, us, registry, paused, s.passes[p].at).jobs);
  }

  // A pass that has selected nothing sees the rows it adds behind those it saw.
  lemma GrownView(cfg: Settings, s: System, e: System, p: Pass, p': Pass, grown: seq<Job>)
    requires p.works == [] && p'.works == [] && e.jobs == s.jobs && View(cfg, s, p) <= grown
    requires p'.own == p.own + grown[|View(cfg, s, p)|..]
    ensures View(cfg, e, p') == grown
  {
    var view, view' := View(cfg, s, p), View(cfg, e, p');
    forall i | 0 <= i < |grown| ensures view'[i] == grown[i] {
      ReadingViewsRows(cfg, e, p', i);
      if i < |view| {
        ReadingViewsRows(cfg, s, p, i);
      }
    }
  }

  lemma QueueingRuns(cfg: Settings, s: System, worker: string, now: int, ids: seq<Resolved>, us: seq<Unsettled>,
                     registry: Option<set<string>>, paused: set<string>) returns (steps: seq<Step>)
    requires Shape(cfg, s) && Idle(s) && QueuedBoth(cfg, s.jobs, now, ids, us, registry, paused).Some?
    ensures Valid(cfg, s, steps)
    ensures var e, p := After(cfg, s, steps), |s.passes|;
            && Queueing(cfg, e, p, QueuedBoth(cfg, s.jobs, now, ids, us, registry, paused).value)
            && e.passes[p].at == now && e.passes[p].worker == worker
  {
    var p := |s.passes|;
    var s1 := Next(cfg, s, Begin(now, worker));
    StepKeepsShape(cfg, s, Begin(now, worker));
    assert View(cfg, s1, s1.passes[p]) == s.jobs;
    DueNext(cfg, s1, p, s.jobs, ids, paused);
    var s2 := Next(cfg, s1, EnqueueDueWork(p, ids, paused));
    ReattemptNext(cfg, s2, p, EnqueueDue(cfg, s.jobs, ids, paused, now).jobs, us, registry, paused);
    OneStep(cfg, s2, QueueReattempts(p, us, registry, paused));
    DemandRace.Cons(cfg, s1, EnqueueDueWork(p, ids, paused), [QueueReattempts(p, us, registry, paused)]);
    steps := [EnqueueDueWork(p, ids, paused)] + [QueueReattempts(p, us, registry, paused)];
    DemandRace.Cons(cfg, s, Begin(now, worker), steps);
    steps := [Begin(now, worker)] + steps;
  }

  // A lone pass selects its rows: none is worked on yet.
  lemma SelectNext(cfg: Settings, s: System, p: nat, jobs: seq<Job>, rows: seq<nat>)
    requires Queueing(cfg, s, p, jobs) && Rows(jobs, rows, s.passes[p].at)
    ensures Enabled(cfg, s, Select(p, rows))
    ensures var e := Next(cfg, s, Select(p, rows));
            && Shape(cfg, e) && Enabled(cfg, e, Lock(p)) && e.jobs == s.jobs && |e.passes| == |s.passes|
            && (forall q :: 0 <= q < |e.passes| && e.passes[q].open ==> q == p)
            && e.passes[p].own == s.passes[p].own && e.passes[p].at == s.passes[p].at && e.passes[p].worker == s.passes[p].worker
            && Indexes(e, e.passes[p]) == rows && Untouched(e, e.passes[p])
            && forall k :: 0 <= k < |rows| ==> e.passes[p].works[k].done.None? && e.passes[p].works[k].selected == jobs[rows[k]]
  {
    StepKeepsShape(cfg, s, Select(p, rows));
    forall k | 0 <= k < |rows| ensures jobs[rows[k]] == WorkAt(s, s.passes[p], rows[k]).selected {
      ReadingViewsRows(cfg, s, s.passes[p], rows[k]);
    }
  }

  // Selecting and locking is the batch claim.
  lemma ClaimingRuns(cfg: Settings, s: System, p: nat, jobs: seq<Job>, rows: seq<nat>) returns (steps: seq<Step>)
    requires Queueing(cfg, s, p, jobs) && Rows(jobs, rows, s.passes[p].at)
    ensures Valid(cfg, s, steps)
    ensures var claimed := ClaimAll(cfg, jobs, rows, s.passes[p].worker, s.passes[p].at);
            Midway(cfg, After(cfg, s, steps), p, rows, 0, claimed, s.passes[p].at) && IndexesAre(claimed, rows)
  {
    SelectNext(cfg, s, p, jobs, rows);
    var s1 := Next(cfg, s, Select(p, rows));
    StepKeepsShape(cfg, s1, Lock(p));
    var e := Next(cfg, s1, Lock(p));
    assert Working(e, e.passes[p]);
    ClaimedView(cfg, s, e, p, jobs, rows);
    OneStep(cfg, s1, Lock(p));
    DemandRace.Cons(cfg, s, Select(p, rows), [Lock(p)]);
    steps := [Select(p, rows)] + [Lock(p)];
  }

  lemma ClaimedView(cfg: Settings, s: System, e: System, p: nat, jobs: seq<Job>, rows: seq<nat>)
    requires Queueing(cfg, s, p, jobs) && Rows(jobs, rows, s.passes[p].at)
    requires p < |e.passes| && e.jobs == s.jobs && Working(e, e.passes[p]) && Indexes(e, e.passes[p]) == rows
    requires e.passes[p].own == s.passes[p].own && e.passes[p].at == s.passes[p].at && e.passes[p].worker == s.passes[p].worker
    requires forall k :: 0 <= k < |rows| ==> e.passes[p].works[k].done.None? && e.passes[p].works[k].selected == jobs[rows[k]]
    ensures View(cfg, e, e.passes[p]) == ClaimAll(cfg, jobs, rows, s.passes[p].worker, s.passes[p].at)
  {
    var pass := e.passes[p];
    var view := View(cfg, e, pass);
    forall i | 0 <= i < |view|
      ensures view[i] == if i in rows then Claimed(cfg, jobs[i], pass.worker, pass.at) else jobs[i]
    {
      if i in rows {
        var k :| 0 <= k < |rows| && rows[k] == i;
        ViewOfWork(cfg, e, pass, k);
      } else {
        forall k | 0 <= k < |pass.works| ensures Index(e, pass.works[k]) != i {
          assert rows[k] in rows;
        }
        ViewElsewhere(cfg, e, pass, i);
        ReadingViewsRows(cfg, s, s.passes[p], i);
      }
    }
  }

  /**
   * A `run_once` that nobody overlaps is a run of the interleaved system, so everything proved of its runs
   * holds of every such pass: the table it leaves is the one the run commits.
   */
  lemma PassIsARun(cfg: Settings, s: System, worker: string, now: int, ids: seq<Resolved>, us: seq<Unsettled>,
                   registry: Option<set<string>>, paused: set<string>, rows: seq<nat>, answer: Key -> Answer)
    returns (steps: seq<Step>)
    requires Shape(cfg, s) && Idle(s) && QueuedBoth(cfg, s.jobs, now, ids, us, registry, paused).Some?
    requires Rows(QueuedBoth(cfg, s.jobs, now, ids, us, registry, paused).value, rows, now)
    ensures Valid(cfg, s, steps) && Idle(After(cfg, s, steps))
    ensures After(cfg, s, steps).jobs
         == Drained(cfg, QueuedBoth(cfg, s.jobs, now, ids, us, registry, paused).value, rows, worker, now, answer)
  {
    var p := |s.passes|;
    var jobs := QueuedBoth(cfg, s.jobs, now, ids, us, registry, paused).value;
    var queueing := QueueingRuns(cfg, s, worker, now, ids, us, registry, paused);
    var s1 := After(cfg, s, queueing);
    var claiming := ClaimingRuns(cfg, s1, p, jobs, rows);
    var s2 := After(cfg, s1, claiming);
    var executing := ExecutingCommits(cfg, s2, p, rows, ClaimAll(cfg, jobs, rows, worker, now), now, answer);
    RunConcat(cfg, s1, claiming, executing);
    RunConcat(cfg, s, queueing, claiming + executing);
    steps := queueing + (claiming + executing);
  }

  /** That state is reached: two passes of one artist in consecutive windows, the first leaving its jobs unclaimed. */
  lemma TwoWindowsAreReached(cfg: Settings, artist: string, now: int) returns (steps: seq<Step>)
    requires cfg.catalogueInterval >= 1
    ensures Valid(cfg, START, steps) && TwoWindows(After(cfg, START, steps).jobs, artist)
  {
    var ids, later := [Resolved.Resolved(artist, 0)], now + cfg.catalogueInterval;
    BackfillCanRaise(cfg, artist, now);
    var first := LonePass(cfg, START, now, ids);
    var s1 := After(cfg, START, first);
    NoLeaseIsEverSeen(cfg, START, first);
    var second := LonePass(cfg, s1, later, ids);
    RunConcat(cfg, START, first, second);
    steps := first + second;
    NoLeaseIsEverSeen(cfg, START, steps);
    BackfillRaisesExactlyWhenTwoWindows(cfg, After(cfg, START, steps).jobs, artist, 0, later);
  }

  // A pass that enqueues and claims nothing.
  lemma LonePass(cfg: Settings, s: System, now: int, ids: seq<Resolved>) returns (steps: seq<Step>)
    requires Shape(cfg, s) && Idle(s) && EnqueueDue(cfg, s.jobs, ids, {}, now).Flushed?
    ensures Valid(cfg, s, steps) && Idle(After(cfg, s, steps))
    ensures After(cfg, s, steps).jobs == EnqueueDue(cfg, s.jobs, ids, {}, now).jobs
  {
    steps := PassIsARun(cfg, s, "", now, ids, [], None, {}, [], _ => Raised);
    var due := EnqueueDue(cfg, s.jobs, ids, {}, now).jobs;
    assert ClaimAll(cfg, due, [], "", now) == due;
  }

  class DemandScheduler {
    const cfg: Settings
    var jobs: seq<Job>

    constructor (settings: Settings)
      ensures cfg == settings && jobs == []
    {
      cfg := settings;
      jobs := [];
    }

    /** `enqueue_due`: rows are added to the session and reach the table in one flush at the end. */
    method EnqueueDuePass(ids: seq<Resolved>, paused: set<string>, now: int) returns (done: Enqueued, skipped: nat)
      modifies this`jobs
      ensures done == EnqueueDue(cfg, old(jobs), ids, paused, now)
      ensures jobs == if done.Flushed? then done.jobs else old(jobs)
      ensures skipped <= |ids|
    {
      var pending: seq<Job> := [];
      skipped := 0;
      for i := 0 to |ids|
        invariant pending == Added(cfg, jobs, ids[..i], paused, now) && skipped <= i
        invariant jobs == old(jobs)
      {
        assert ids[..i + 1][..i] == ids[..i];
        if ids[i].artist in paused {
          skipped := skipped + 1;
        } else {
          ghost var before := pending;
          for k := 0 to |RECURRING|
            invariant pending == before + Wanted(cfg, jobs, ids[i], RECURRING[..k], now)
            invariant jobs == old(jobs)
          {
            assert RECURRING[..k + 1][..k] == RECURRING[..k];
            var t := RECURRING[k];
            var key := KeyFor(cfg, ids[i].artist, t, now);
            if !HasKey(jobs, key) {
              pending := pending + [NewJob(key, ids[i].artist, t, ids[i].priority, now)];
            }
          }
          assert RECURRING[..|RECURRING|] == RECURRING;
        }
      }
      assert ids[..|ids|] == ids;
      if UniqueKeys(jobs + pending) {
        jobs := jobs + pending;
        done := Flushed(jobs, |pending|);
      } else {
        done := IntegrityError;
      }
    }

    // `_active_exists`, as a count of the rows it would find.
    method CountActive(artist: string, t: JobType) returns (active: nat)
      ensures active == ActiveRows(jobs, artist, t)
    {
      active := 0;
      for i := 0 to |jobs|
        invariant active == ActiveRows(jobs[..i], artist, t)
      {
        assert jobs[..i + 1][..i] == jobs[..i];
        if jobs[i].artist == artist && jobs[i].jobType == t && IsActive(jobs[i]) {
          active := active + 1;
        }
      }
      assert jobs[..|jobs|] == jobs;
    }

    method EnqueueIdentityDiscovery(artist: string, priority: int, now: int) returns (done: Backfilled)
      modifies this`jobs
      ensures done == Discover(old(jobs), artist, priority, now)
      ensures jobs == if done.Queued? then done.jobs else old(jobs)
    {
      var active := CountActive(artist, IdentityDiscovery);
      if active > 1 {
        return MultipleRows;
      }
      if active == 1 || HasKey(jobs, Once(artist)) {
        return AlreadyThere;
      }
      jobs := jobs + [NewJob(Once(artist), artist, IdentityDiscovery, priority, now)];
      done := Queued(jobs);
    }

    /** `enqueue_identity_reattempts`: fails closed when the registry is down. */
    method EnqueueIdentityReattempts(us: seq<Unsettled>, registry: Option<set<string>>, paused: set<string>, now: int)
      returns (done: Enqueued)
      modifies this`jobs
      ensures done == EnqueueReattempts(cfg, old(jobs), us, registry, paused, now)
      ensures jobs == if done.Flushed? then done.jobs else old(jobs)
    {
      if us == [] || registry.None? {
        return Flushed(jobs, 0);
      }
      var valid := registry.value;
      var pending: seq<Job> := [];
      for i := 0 to |us|
        invariant jobs == old(jobs)
        invariant pending == Reattempted(cfg, jobs, us[..i], valid, paused, now)
        invariant forall k :: 0 <= k < i ==> !(Eligible(us[k], valid, paused) && ActiveRows(jobs, us[k].artist, IdentityDiscovery) > 1)
      {
        assert us[..i + 1][..i] == us[..i];
        if Eligible(us[i], valid, paused) {
          var active := CountActive(us[i].artist, IdentityDiscovery);
          if active > 1 {
            return TooManyRows;
          }
          var key := ReattemptKey(cfg, us[i], now);
          if active == 0 && !HasKey(jobs, key) {
            pending := pending + [NewJob(key, us[i].artist, IdentityDiscovery, us[i].priority, now)];
          }
        }
      }
      assert us[..|us|] == us;
      if UniqueKeys(jobs + pending) {
        jobs := jobs + pending;
        done := Flushed(jobs, |pending|);
      } else {
        done := IntegrityError;
      }
    }

    method EnqueueCatalogueBackfill(artist: string, priority: int, now: int) returns (done: Backfilled)
      modifies this`jobs
      ensures done == Backfill(cfg, old(jobs), artist, priority, now)
      ensures jobs == if done.Queued? then done.jobs else old(jobs)
    {
      var active := CountActive(artist, CatalogueBackfill);
      var key := KeyFor(cfg, artist, CatalogueBackfill, now);
      if active > 1 {
        return MultipleRows;
      }
      if active == 1 || HasKey(jobs, key) {
        return AlreadyThere;
      }
      jobs := jobs + [NewJob(key, artist, CatalogueBackfill, priority, now)];
      done := Queued(jobs);
    }

    // The claimable row, not yet taken, that no other such row ranks before.
    method NextBest(taken: seq<nat>, now: int) returns (best: Option<nat>)
      requires forall k :: 0 <= k < |taken| ==> taken[k] < |jobs|
      ensures best.None? ==> forall r :: 0 <= r < |jobs| && Claimable(jobs[r], now) ==> r in taken
      ensures best.Some? ==> best.value < |jobs| && Claimable(jobs[best.value], now) && best.value !in taken
      ensures best.Some? ==> forall r :: 0 <= r < |jobs| && Claimable(jobs[r], now) && r !in taken ==>
                               !Better(jobs[r], jobs[best.value])
    {
      best := None;
      for i := 0 to |jobs|
        invariant best.None? ==> forall r :: 0 <= r < i && Claimable(jobs[r], now) ==> r in taken
        invariant best.Some? ==> best.value < i && Claimable(jobs[best.value], now) && best.value !in taken
        invariant best.Some? ==> forall r :: 0 <= r < i && Claimable(jobs[r], now) && r !in taken ==>
                                   !Better(jobs[r], jobs[best.value])
      {
        if Claimable(jobs[i], now) && i !in taken && (best.None? || Better(jobs[i], jobs[best.value])) {
          best := Some(i);
        }
      }
    }

    method ClaimQuery(limit: nat, now: int) returns (rows: seq<nat>)
      ensures BestRows(jobs, rows, now, limit)
    {
      rows := [];
      while |rows| < limit
        invariant Rows(jobs, rows, now) && |rows| <= limit
        invariant forall r :: 0 <= r < |jobs| && Claimable(jobs[r], now) && r !in rows ==> NoneBetter(jobs, rows, r)
        decreases limit - |rows|
      {
        var best := NextBest(rows, now);
        if best.None? {
          return;
        }
        assert NoneBetter(jobs, rows, best.value);
        ghost var before := rows;
        rows := rows + [best.value];
        forall r | 0 <= r < |jobs| && Claimable(jobs[r], now) && r !in rows ensures NoneBetter(jobs, rows, r) {
          assert r !in before;
          assert NoneBetter(jobs, before, r);
        }
      }
    }

    /** `claim`: takes the best rows and stamps each with a lease and an attempt. */
    method ClaimBatch(worker: string, now: int, limit: nat) returns (rows: seq<nat>)
      modifies this`jobs
      ensures BestRows(old(jobs), rows, now, if limit != 0 then limit else AtLeast(cfg.batchSize, 0))
      ensures jobs == ClaimAll(cfg, old(jobs), rows, worker, now)
    {
      rows := ClaimQuery(if limit != 0 then limit else AtLeast(cfg.batchSize, 0), now);
      for k := 0 to |rows|
        invariant |jobs| == |old(jobs)|
        invariant forall j :: 0 <= j < |jobs| ==>
                    jobs[j] == if j in rows[..k] then Claimed(cfg, old(jobs)[j], worker, now) else old(jobs)[j]
      {
        assert rows[k] !in rows[..k];
        jobs := jobs[rows[k] := Claimed(cfg, jobs[rows[k]], worker, now)];
        assert rows[..k + 1] == rows[..k] + [rows[k]];
      }
      assert rows[..|rows|] == rows;
    }

    method MarkSucceeded(j: nat, report: Report, now: int)
      requires j < |jobs|
      modifies this`jobs
      ensures jobs == old(jobs)[j := Succeed(old(jobs)[j], report, now)]
    {
      jobs := jobs[j := jobs[j].(status := SUCCEEDED, resultCode := Some(Reported(report)), completedAt := Some(now),
                                 consecutiveFailures := 0, lockExpiresAt := None)];
    }

    method MarkTerminal(j: nat, code: Code, now: int)
      requires j < |jobs|
      modifies this`jobs
      ensures jobs == old(jobs)[j := Terminal(old(jobs)[j], code, now)]
    {
      jobs := jobs[j := jobs[j].(status := FAILED_TERMINAL, resultCode := Some(code), completedAt := Some(now),
                                 lockExpiresAt := None)];
    }

    method MarkFailed(j: nat, now: int)
      requires j < |jobs| && jobs[j].attempts >= 1
      modifies this`jobs
      ensures jobs == old(jobs)[j := Fail(cfg, old(jobs)[j], now)]
    {
      jobs := jobs[j := jobs[j].(consecutiveFailures := jobs[j].consecutiveFailures + 1)];
      if jobs[j].attempts >= cfg.maxAttempts {
        MarkTerminal(j, MAX_ATTEMPTS, now);
      } else {
        var backoff := Backoff(cfg, jobs[j].attempts);
        jobs := jobs[j := jobs[j].(status := FAILED_RETRYABLE, resultCode := Some(RETRY),
                                   scheduledAt := now + backoff, lockExpiresAt := None)];
      }
    }

    method MarkDeferred(j: nat, report: Report, now: int)
      requires j < |jobs|
      modifies this`jobs
      ensures jobs == old(jobs)[j := Defer(cfg, old(jobs)[j], report, now)]
    {
      jobs := jobs[j := jobs[j].(status := PENDING, resultCode := Some(Reported(report)),
                                 attempts := AtLeast(jobs[j].attempts - 1, 0),
                                 scheduledAt := now + cfg.backoffBase, lockExpiresAt := None)];
    }

    /** `execute` and `_execute_identity`: whatever the service call raised ends in a failure of this job. */
    method Execute(j: nat, answer: Answer, now: int) returns (outcome: Outcome)
      requires j < |jobs| && jobs[j].attempts >= 1
      modifies this`jobs
      ensures Execution(jobs, outcome) == Executed(cfg, old(jobs), j, answer, now)
    {
      var t := jobs[j].jobType;
      if t == UnknownType {
        MarkTerminal(j, UNKNOWN_JOB_TYPE, now);
        return Ends(UNKNOWN_JOB_TYPE);
      }
      if answer.Raised? {
        MarkFailed(j, now);
        return Fails;
      }
      var report := answer.report;
      if t == IdentityDiscovery {
        if report == QUOTA_EXHAUSTED {
          MarkDeferred(j, report, now);
          return Defers;
        }
        if report == RESOLVED {
          var backfilled := EnqueueCatalogueBackfill(jobs[j].artist, STRONG, now);
          if backfilled.MultipleRows? {
            MarkFailed(j, now);
            return Fails;
          }
          MarkSucceeded(j, report, now);
          return Succeeds;
        }
      } else if report == NO_RESOLVED_IDENTITY || report == PROVIDER_ID_NOT_FOUND {
        MarkTerminal(j, Reported(report), now);
        return Ends(Reported(report));
      }
      if report == VERIFICATION_UNAVAILABLE {
        MarkFailed(j, now);
        return Fails;
      }
      MarkSucceeded(j, report, now);
      return Succeeds;
    }

    // The claimed jobs, executed in claim order.
    method ExecuteAll(rows: seq<nat>, answer: Key -> Answer, now: int)
      requires forall k :: 0 <= k < |rows| ==> rows[k] < |jobs| && jobs[rows[k]].attempts >= 1
      requires forall k, l :: 0 <= k < l < |rows| ==> rows[k] != rows[l]
      modifies this`jobs
      ensures jobs == ExecutedAll(cfg, old(jobs), rows, answer, now)
    {
      for k := 0 to |rows|
        invariant jobs == ExecutedAll(cfg, old(jobs), rows[..k], answer, now)
      {
        assert rows[..k + 1][..k] == rows[..k];
        assert rows[k] !in rows[..k];
        var outcome := Execute(rows[k], answer(jobs[rows[k]].key), now);
      }
      assert rows[..|rows|] == rows;
    }

    /**
     * `run_once`: enqueue, re-attempt, claim, execute and commit. A raise in one of the enqueues leaves the
     * table as it was; nothing after them raises.
     */
    method RunOnce(worker: string, now: int, ids: seq<Resolved>, us: seq<Unsettled>, registry: Option<set<string>>,
                   paused: set<string>, answer: Key -> Answer) returns (done: bool, rows: seq<nat>)
      modifies this`jobs
      ensures done <==> QueuedBoth(cfg, old(jobs), now, ids, us, registry, paused).Some?
      ensures !done ==> jobs == old(jobs)
      ensures done ==>
                var queued := QueuedBoth(cfg, old(jobs), now, ids, us, registry, paused).value;
                && BestRows(queued, rows, now, AtLeast(cfg.batchSize, 0))
                && jobs == Drained(cfg, queued, rows, worker, now, answer)
    {
      rows := [];
      var before := jobs;
      var due, skipped := EnqueueDuePass(ids, paused, now);
      if !due.Flushed? {
        return false, [];
      }
      var again := EnqueueIdentityReattempts(us, registry, paused, now);
      if !again.Flushed? {
        jobs := before;
        return false, [];
      }
      rows := ClaimBatch(worker, now, 0);
      ExecuteAll(rows, answer, now);
      done := true;
    }
  }
}
