/**
 * The demand queue as the database sees it: passes of `run_once`, each one transaction, interleaved with
 * each other and with the enqueues of other requests.
 *
 * A pass inserts due work, selects claimable rows, stamps its claims, executes the jobs one by one and
 * commits once. Selecting takes no lock; stamping updates the rows and so waits for every other pass that
 * has updated one of them. Inserting a key waits for every pass that has inserted it. Nothing a pass wrote
 * is visible to others before its commit, and a pass that raises leaves nothing behind.
 */
module DemandRuns {
  import opened Options
  import opened DemandJobs
  import opened DemandEnqueue

  datatype Event = Failure | GaveUp | Deferral | Success | Closure

  // What executing a claimed job came to.
  datatype Done = Done(outcome: Outcome, report: Report)

  // A selected row: one of the table, or one this pass inserted (`mine`), with the copy and the history
  // it had when selected.
  datatype Work = Work(mine: bool, row: nat, selected: Job, seen: seq<Event>, done: Option<Done>)

  datatype Phase = Reading | Selected | Locked

  datatype Pass = Pass(at: int, worker: string, own: seq<Job>, works: seq<Work>, phase: Phase, open: bool)

  datatype System = System(jobs: seq<Job>, histories: seq<seq<Event>>, passes: seq<Pass>)

  datatype Step = QueueDiscovery(artist: string, priority: int, at: int)
                | Begin(at: int, worker: string)
                | EnqueueDueWork(pass: nat, ids: seq<Resolved>, paused: set<string>)
                | QueueReattempts(pass: nat, us: seq<Unsettled>, registry: Option<set<string>>, paused: set<string>)
                | Select(pass: nat, rows: seq<nat>)
                | Lock(pass: nat)
                | Execute(pass: nat, work: nat, answer: Answer)
                | Commit(pass: nat)
                | RollBack(pass: nat)

  const STRONG := 20   // the priority of a backfill queued after a resolution
  const START := System([], [], [])

  // ---- What a pass has written ------------------------------------------------------------------------------

  function ClaimOf(cfg: Settings, p: Pass, w: Work): Job {
    Claimed(cfg, w.selected, p.worker, p.at)
  }

  // The row after the pass's two flushes of it: the claim, and the outcome once there is one.
  function Written(cfg: Settings, p: Pass, w: Work, row: Job): Job {
    var claim := ClaimOf(cfg, p, w);
    var stamped := WriteBack(row, w.selected, claim);
    match w.done
    case None => stamped
    case Some(d) => WriteBack(stamped, claim, Finished(cfg, claim, d.outcome, d.report, p.at))
  }

  function EventOf(cfg: Settings, claim: Job, outcome: Outcome): Event {
    match outcome
    case Succeeds => Success
    case Fails => if claim.attempts >= cfg.maxAttempts then GaveUp else Failure
    case Defers => Deferral
    case Ends(_) => Closure
  }

  function Recorded(cfg: Settings, p: Pass, w: Work, h: seq<Event>): seq<Event> {
    match w.done
    case None => h
    case Some(d) => h + [EventOf(cfg, ClaimOf(cfg, p, w), d.outcome)]
  }

  predicate On(w: Work, mine: bool, row: nat) {
    w.mine == mine && w.row == row
  }

  // The work on a row, or the number of works when there is none.
  function WorkOn(works: seq<Work>, mine: bool, row: nat): (k: nat)
    ensures k <= |works|
    ensures k < |works| ==> On(works[k], mine, row)
    ensures forall i :: 0 <= i < k ==> !On(works[i], mine, row)
    decreases |works|
  {
    if works == [] || On(works[0], mine, row) then 0 else 1 + WorkOn(works[1..], mine, row)
  }

  function RowNow(cfg: Settings, p: Pass, mine: bool, i: nat, row: Job): Job {
    var k := WorkOn(p.works, mine, i);
    if k < |p.works| then Written(cfg, p, p.works[k], row) else row
  }

  function HistoryNow(cfg: Settings, p: Pass, mine: bool, i: nat, h: seq<Event>): seq<Event> {
    var k := WorkOn(p.works, mine, i);
    if k < |p.works| then Recorded(cfg, p, p.works[k], h) else h
  }

  // The table as the pass reads it: what others committed, under its own writes, and its own rows.
  function View(cfg: Settings, s: System, p: Pass): (v: seq<Job>)
    ensures |v| == |s.jobs| + |p.own|
  {
    seq(|s.jobs|, i requires 0 <= i < |s.jobs| => RowNow(cfg, p, false, i, s.jobs[i]))
    + seq(|p.own|, i requires 0 <= i < |p.own| => RowNow(cfg, p, true, i, p.own[i]))
  }

  function HistoriesWith(cfg: Settings, s: System, p: Pass): (v: seq<seq<Event>>)
    ensures |v| == |s.histories| + |p.own|
  {
    seq(|s.histories|, i requires 0 <= i < |s.histories| => HistoryNow(cfg, p, false, i, s.histories[i]))
    + seq(|p.own|, i requires 0 <= i < |p.own| => HistoryNow(cfg, p, true, i, []))
  }

  // ---- Steps ------------------------------------------------------------------------------------------------

  predicate IsOpen(s: System, p: nat) {
    p < |s.passes| && s.passes[p].open
  }

  // No other pass holds one of these keys: inserting them would not wait.
  ghost predicate KeysFree(s: System, p: nat, added: seq<Job>) {
    forall q, i :: 0 <= q < |s.passes| && q != p && s.passes[q].open && 0 <= i < |added| ==>
      !HasKey(s.passes[q].own, added[i].key)
  }

  ghost predicate Shares(p: Pass, q: Pass) {
    exists k, l :: 0 <= k < |p.works| && 0 <= l < |q.works| && !p.works[k].mine && !q.works[l].mine
                   && p.works[k].row == q.works[l].row
  }

  // What an enqueue adds to the rows of its own, and nothing when it raises.
  function NewRows(view: seq<Job>, done: Enqueued): seq<Job> {
    if done.Flushed? && |view| <= |done.jobs| then done.jobs[|view|..] else []
  }

  function DueOf(cfg: Settings, s: System, p: Pass, ids: seq<Resolved>, paused: set<string>): Enqueued {
    EnqueueDue(cfg, View(cfg, s, p), ids, paused, p.at)
  }

  function ReattemptsOf(cfg: Settings, s: System, p: Pass, us: seq<Unsettled>, registry: Option<set<string>>,
                        paused: set<string>): Enqueued
  {
    EnqueueReattempts(cfg, View(cfg, s, p), us, registry, paused, p.at)
  }

  // The catalogue backfill of a resolved identity, and the outcome it leaves the job with.
  function BackfillOf(cfg: Settings, s: System, p: Pass, w: Work, answer: Answer): Backfilled {
    if w.selected.jobType == IdentityDiscovery && answer == Replied(RESOLVED)
    then Backfill(cfg, View(cfg, s, p), w.selected.artist, STRONG, p.at) else AlreadyThere
  }

  function BackfillRows(view: seq<Job>, b: Backfilled): seq<Job> {
    if b.Queued? && |view| <= |b.jobs| then b.jobs[|view|..] else []
  }

  function DoneOf(w: Work, answer: Answer, b: Backfilled): Done {
    Done(OutcomeOf(w.selected.jobType, answer, b.MultipleRows?), ReportOf(answer))
  }

  function WorkAt(s: System, p: Pass, i: nat): Work
    requires i < |s.jobs| + |p.own| && |s.histories| == |s.jobs|
  {
    if i < |s.jobs| then Work(false, i, s.jobs[i], s.histories[i], None)
    else Work(true, i - |s.jobs|, p.own[i - |s.jobs|], [], None)
  }

  ghost predicate Enabled(cfg: Settings, s: System, step: Step) {
    && |s.histories| == |s.jobs|
    && match step
       case QueueDiscovery(artist, _, _) =>
         forall q :: 0 <= q < |s.passes| && s.passes[q].open ==> !HasKey(s.passes[q].own, Once(artist))
       case Begin(_, _) => true
       case EnqueueDueWork(p, ids, paused) =>
         IsOpen(s, p) && s.passes[p].phase == Reading
         && KeysFree(s, p, NewRows(View(cfg, s, s.passes[p]), DueOf(cfg, s, s.passes[p], ids, paused)))
       case QueueReattempts(p, us, registry, paused) =>
         IsOpen(s, p) && s.passes[p].phase == Reading
         && KeysFree(s, p, NewRows(View(cfg, s, s.passes[p]), ReattemptsOf(cfg, s, s.passes[p], us, registry, paused)))
       case Select(p, rows) =>
         IsOpen(s, p) && s.passes[p].phase == Reading
         && (forall k :: 0 <= k < |rows| ==> rows[k] < |s.jobs| + |s.passes[p].own|
                                             && Claimable(View(cfg, s, s.passes[p])[rows[k]], s.passes[p].at))
         && (forall k, l :: 0 <= k < l < |rows| ==> rows[k] != rows[l])
       case Lock(p) =>
         IsOpen(s, p) && s.passes[p].phase == Selected
         && forall q :: 0 <= q < |s.passes| && q != p && s.passes[q].open && s.passes[q].phase == Locked ==>
              !Shares(s.passes[p], s.passes[q])
       case Execute(p, k, answer) =>
         IsOpen(s, p) && s.passes[p].phase == Locked && k < |s.passes[p].works| && s.passes[p].works[k].done.None?
         && KeysFree(s, p, BackfillRows(View(cfg, s, s.passes[p]), BackfillOf(cfg, s, s.passes[p], s.passes[p].works[k], answer)))
       case Commit(p) =>
         IsOpen(s, p) && s.passes[p].phase == Locked
         && forall k :: 0 <= k < |s.passes[p].works| ==> s.passes[p].works[k].done.Some?
       case RollBack(p) => IsOpen(s, p)
  }

  function Put(s: System, p: nat, pass: Pass): System
    requires p < |s.passes|
  {
    s.(passes := s.passes[p := pass])
  }

  // A raise in enqueueing ends the pass; otherwise its new rows are flushed, for itself alone.
  function Inserted(s: System, p: nat, done: Enqueued, added: seq<Job>): System
    requires p < |s.passes|
  {
    Put(s, p, if done.Flushed? then s.passes[p].(own := s.passes[p].own + added) else s.passes[p].(open := false))
  }

  function Selecting(s: System, p: nat, rows: seq<nat>): System
    requires p < |s.passes| && |s.histories| == |s.jobs|
    requires forall k :: 0 <= k < |rows| ==> rows[k] < |s.jobs| + |s.passes[p].own|
  {
    Put(s, p, s.passes[p].(phase := Selected,
                           works := seq(|rows|, k requires 0 <= k < |rows| => WorkAt(s, s.passes[p], rows[k]))))
  }

  function Executing(cfg: Settings, s: System, p: nat, k: nat, answer: Answer): System
    requires p < |s.passes| && k < |s.passes[p].works|
  {
    var pass := s.passes[p];
    var w := pass.works[k];
    var b := BackfillOf(cfg, s, pass, w, answer);
    Put(s, p, pass.(works := pass.works[k := w.(done := Some(DoneOf(w, answer, b)))],
                    own := pass.own + BackfillRows(View(cfg, s, pass), b)))
  }

  function Committing(cfg: Settings, s: System, p: nat): System
    requires p < |s.passes|
  {
    System(View(cfg, s, s.passes[p]), HistoriesWith(cfg, s, s.passes[p]), s.passes[p := s.passes[p].(open := false)])
  }

  function Discovering(s: System, artist: string, priority: int, at: int): System {
    match Discover(s.jobs, artist, priority, at)
    case Queued(jobs) => s.(jobs := jobs, histories := s.histories + [[]])
    case _ => s
  }

  ghost function Next(cfg: Settings, s: System, step: Step): System
    requires Enabled(cfg, s, step)
  {
    match step
    case QueueDiscovery(artist, priority, at) => Discovering(s, artist, priority, at)
    case Begin(at, worker) => s.(passes := s.passes + [Pass(at, worker, [], [], Reading, true)])
    case EnqueueDueWork(p, ids, paused) =>
      var done := DueOf(cfg, s, s.passes[p], ids, paused);
      Inserted(s, p, done, NewRows(View(cfg, s, s.passes[p]), done))
    case QueueReattempts(p, us, registry, paused) =>
      var done := ReattemptsOf(cfg, s, s.passes[p], us, registry, paused);
      Inserted(s, p, done, NewRows(View(cfg, s, s.passes[p]), done))
    case Select(p, rows) => Selecting(s, p, rows)
    case Lock(p) => Put(s, p, s.passes[p].(phase := Locked))
    case Execute(p, k, answer) => Executing(cfg, s, p, k, answer)
    case Commit(p) => Committing(cfg, s, p)
    case RollBack(p) => Put(s, p, s.passes[p].(open := false))
  }

  ghost predicate Valid(cfg: Settings, s: System, steps: seq<Step>)
    decreases |steps|
  {
    steps == [] || (Enabled(cfg, s, steps[0]) && Valid(cfg, Next(cfg, s, steps[0]), steps[1..]))
  }

  ghost function After(cfg: Settings, s: System, steps: seq<Step>): System
    requires Valid(cfg, s, steps)
    decreases |steps|
  {
    if steps == [] then s else After(cfg, Next(cfg, s, steps[0]), steps[1..])
  }
}
