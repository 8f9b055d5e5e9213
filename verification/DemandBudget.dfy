/**
 * The retry budget of the demand queue: what every history of a job leaves in its row, the exact condition
 * under which overlapping passes keep that law, and the race that breaks it.
 */
module DemandBudget {
  import opened Options
  import opened DemandJobs
  import opened DemandEnqueue
  import opened DemandRuns
  import opened DemandShape

  // ---- The law ----------------------------------------------------------------------------------------------

  function Count(h: seq<Event>, e: Event): nat
    decreases |h|
  {
    if h == [] then 0 else Count(h[..|h| - 1], e) + if h[|h| - 1] == e then 1 else 0
  }

  function Failures(h: seq<Event>): nat {
    Count(h, Failure) + Count(h, GaveUp)
  }

  predicate IsFinal(e: Event) {
    e == Success || e == Closure || e == GaveUp
  }

  function StatusAfter(h: seq<Event>): Status {
    if h == [] then PENDING
    else match h[|h| - 1]
      case Failure => FAILED_RETRYABLE
      case Deferral => PENDING
      case Success => SUCCEEDED
      case _ => FAILED_TERMINAL
  }

  /**
   * A committed row and its history: nothing follows a final outcome, the status is the last outcome's, and
   * the attempts are the failures (and the attempt that ended it well or by authority) however many
   * deferrals there were. Unfinished, the job has failures left; given up, it has used them.
   */
  ghost predicate Lawful(cfg: Settings, j: Job, h: seq<Event>) {
    && AtRest(j)
    && (forall i :: 0 <= i < |h| - 1 ==> !IsFinal(h[i]))
    && j.status == StatusAfter(h)
    && j.attempts == Failures(h) + (if h != [] && (h[|h| - 1] == Success || h[|h| - 1] == Closure) then 1 else 0)
    && (IsActive(j) ==> j.consecutiveFailures == Failures(h) && (Failures(h) == 0 || Failures(h) < cfg.maxAttempts))
    && Failures(h) <= AtLeast(cfg.maxAttempts, 1)
    && (j.resultCode == Some(MAX_ATTEMPTS) <==> h != [] && h[|h| - 1] == GaveUp)
    && (h != [] && h[|h| - 1] == GaveUp ==> Failures(h) >= cfg.maxAttempts)
  }

  ghost predicate Law(cfg: Settings, s: System) {
    |s.histories| == |s.jobs| && forall j :: 0 <= j < |s.jobs| ==> Lawful(cfg, s.jobs[j], s.histories[j])
  }

  // What a pass selected was lawful then.
  ghost predicate SelectedLawfully(cfg: Settings, p: Pass) {
    forall k :: 0 <= k < |p.works| ==> Lawful(cfg, p.works[k].selected, p.works[k].seen)
  }

  ghost predicate WorksLawful(cfg: Settings, s: System) {
    forall p :: 0 <= p < |s.passes| && s.passes[p].open ==> SelectedLawfully(cfg, s.passes[p])
  }

  // The row of a work is still unfinished and has the attempt count that the pass read.
  predicate IsFresh(s: System, w: Work) {
    !w.mine ==> w.row < |s.jobs| && IsActive(s.jobs[w.row]) && s.jobs[w.row].attempts == w.selected.attempts
  }

  ghost predicate Fresh(s: System, p: Pass) {
    forall k :: 0 <= k < |p.works| ==> IsFresh(s, p.works[k])
  }

  lemma CountAppend(h: seq<Event>, e: Event, x: Event)
    ensures Count(h + [e], x) == Count(h, x) + if e == x then 1 else 0
  {
    assert (h + [e])[..|h + [e]| - 1] == h;
  }

  // An unfinished lawful row has failed as often as it was attempted, and nothing final behind it.
  lemma {:induction false} UnfinishedRow(cfg: Settings, j: Job, h: seq<Event>)
    requires Lawful(cfg, j, h) && IsActive(j)
    ensures j.attempts == Failures(h) == j.consecutiveFailures && j.resultCode != Some(MAX_ATTEMPTS)
    ensures forall i :: 0 <= i < |h| ==> !IsFinal(h[i])
  {
  }

  // What the two flushes of a finished job write, whatever the row holds by then.
  lemma WrittenColumns(cfg: Settings, p: Pass, w: Work, row: Job)
    requires w.done.Some? && IsActive(w.selected) && AtRest(w.selected)
    ensures var j, outcome := Written(cfg, p, w, row), w.done.value.outcome;
            && AtRest(j)
            && j.attempts == w.selected.attempts + (if outcome == Defers then 0 else 1)
            && j.status == (match outcome
                            case Succeeds => SUCCEEDED
                            case Fails => if j.attempts >= cfg.maxAttempts then FAILED_TERMINAL else FAILED_RETRYABLE
                            case Defers => PENDING
                            case Ends(_) => FAILED_TERMINAL)
  {
  }

  lemma RecordedCounts(cfg: Settings, p: Pass, w: Work, h: seq<Event>)
    requires w.done.Some?
    ensures var e := EventOf(cfg, ClaimOf(cfg, p, w), w.done.value.outcome);
            && Recorded(cfg, p, w, h) == h + [e]
            && Failures(h + [e]) == Failures(h) + if w.done.value.outcome == Fails then 1 else 0
  {
    var e := EventOf(cfg, ClaimOf(cfg, p, w), w.done.value.outcome);
    CountAppend(h, e, Failure);
    CountAppend(h, e, GaveUp);
  }

  lemma StaleWriteIsUnlawful(cfg: Settings, p: Pass, w: Work, row: Job, h: seq<Event>)
    requires w.done.Some? && IsActive(w.selected) && AtRest(w.selected) && Lawful(cfg, row, h)
    requires !IsActive(row) || row.attempts != w.selected.attempts
    ensures !Lawful(cfg, Written(cfg, p, w, row), Recorded(cfg, p, w, h))
  {
    WrittenColumns(cfg, p, w, row);
    RecordedCounts(cfg, p, w, h);
    var h' := Recorded(cfg, p, w, h);
    if !IsActive(row) {
      assert h'[|h'| - 2] == h[|h| - 1] && IsFinal(h[|h| - 1]);
    } else {
      UnfinishedRow(cfg, row, h);
    }
  }

  // A written row: unfinished only with failures left, and given up exactly with the code for it.
  lemma FreshColumns(cfg: Settings, p: Pass, w: Work, row: Job)
    requires w.done.Some? && IsActive(w.selected) && AtRest(w.selected) && IsActive(row)
    requires w.done.value.outcome != Ends(MAX_ATTEMPTS)
    requires row.resultCode != Some(MAX_ATTEMPTS) && w.selected.resultCode != Some(MAX_ATTEMPTS)
    requires row.consecutiveFailures == w.selected.consecutiveFailures
    ensures var j, outcome := Written(cfg, p, w, row), w.done.value.outcome;
            && (outcome == Defers ==> j.consecutiveFailures == row.consecutiveFailures)
            && (outcome == Fails ==> j.consecutiveFailures == row.consecutiveFailures + 1)
            && (j.resultCode == Some(MAX_ATTEMPTS) <==>
                  outcome == Fails && w.selected.attempts + 1 >= cfg.maxAttempts)
  {
  }

  lemma FreshWriteIsLawful(cfg: Settings, p: Pass, w: Work, row: Job, h: seq<Event>)
    requires w.done.Some? && w.done.value.outcome != Ends(MAX_ATTEMPTS)
    requires IsActive(w.selected) && Lawful(cfg, w.selected, w.seen) && Lawful(cfg, row, h)
    requires IsActive(row) && row.attempts == w.selected.attempts
    ensures Lawful(cfg, Written(cfg, p, w, row), Recorded(cfg, p, w, h))
  {
    UnfinishedRow(cfg, row, h);
    UnfinishedRow(cfg, w.selected, w.seen);
    WrittenColumns(cfg, p, w, row);
    FreshColumns(cfg, p, w, row);
    RecordedCounts(cfg, p, w, h);
  }

  /**
   * Writing a finished job back over a lawful row leaves a lawful row exactly when the row is still
   * unfinished and still has the attempt count that was read.
   */
  lemma WrittenBackLawfullyExactlyWhen(cfg: Settings, p: Pass, w: Work, row: Job, h: seq<Event>)
    requires w.done.Some? && w.done.value.outcome != Ends(MAX_ATTEMPTS)
    requires IsActive(w.selected) && Lawful(cfg, w.selected, w.seen) && Lawful(cfg, row, h)
    ensures Lawful(cfg, Written(cfg, p, w, row), Recorded(cfg, p, w, h))
       <==> IsActive(row) && row.attempts == w.selected.attempts
  {
    if IsActive(row) && row.attempts == w.selected.attempts {
      FreshWriteIsLawful(cfg, p, w, row, h);
    } else {
      StaleWriteIsUnlawful(cfg, p, w, row, h);
    }
  }

  // ---- Steps and the law ------------------------------------------------------------------------------------------

  lemma WorkIsFound(p: Pass, k: nat)
    requires k < |p.works|
    requires forall i, l :: 0 <= i < l < |p.works| ==> !On(p.works[i], p.works[l].mine, p.works[l].row)
    ensures WorkOn(p.works, p.works[k].mine, p.works[k].row) == k
  {
    var i := WorkOn(p.works, p.works[k].mine, p.works[k].row);
    assert On(p.works[k], p.works[k].mine, p.works[k].row);
  }

  lemma CommittedRowIsLawful(cfg: Settings, s: System, p: Pass, mine: bool, i: nat, row: Job, h: seq<Event>)
    requires WorksShape(s, p) && SelectedLawfully(cfg, p) && Fresh(s, p)
    requires forall k :: 0 <= k < |p.works| ==> p.works[k].done.Some?
    requires if mine then i < |p.own| && row == p.own[i] && h == [] else i < |s.jobs| && row == s.jobs[i]
    requires Lawful(cfg, row, h)
    ensures Lawful(cfg, RowNow(cfg, p, mine, i, row), HistoryNow(cfg, p, mine, i, h))
  {
    var k := WorkOn(p.works, mine, i);
    if k < |p.works| {
      assert WorkShape(s, p, p.works[k]) && IsFresh(s, p.works[k]);
      WrittenBackLawfullyExactlyWhen(cfg, p, p.works[k], row, h);
    }
  }

  lemma NewIsLawful(cfg: Settings, j: Job)
    requires IsNew(j)
    ensures Lawful(cfg, j, [])
  {
  }

  // A committed row and its history, by where the row comes from.
  lemma CommittedRowAt(cfg: Settings, s: System, p: Pass, j: nat)
    requires |s.histories| == |s.jobs| && j < |s.jobs| + |p.own|
    ensures j < |s.jobs| ==>
              && View(cfg, s, p)[j] == RowNow(cfg, p, false, j, s.jobs[j])
              && HistoriesWith(cfg, s, p)[j] == HistoryNow(cfg, p, false, j, s.histories[j])
    ensures j >= |s.jobs| ==>
              && View(cfg, s, p)[j] == RowNow(cfg, p, true, j - |s.jobs|, p.own[j - |s.jobs|])
              && HistoriesWith(cfg, s, p)[j] == HistoryNow(cfg, p, true, j - |s.jobs|, [])
  {
  }

  lemma CommittedRowsLawful(cfg: Settings, s: System, p: Pass, j: nat)
    requires WorksShape(s, p) && Law(cfg, s) && SelectedLawfully(cfg, p) && Fresh(s, p)
    requires forall i :: 0 <= i < |p.own| ==> IsNew(p.own[i])
    requires (forall k :: 0 <= k < |p.works| ==> p.works[k].done.Some?) && j < |s.jobs| + |p.own|
    ensures Lawful(cfg, View(cfg, s, p)[j], HistoriesWith(cfg, s, p)[j])
  {
    CommittedRowAt(cfg, s, p, j);
    if j < |s.jobs| {
      CommittedRowIsLawful(cfg, s, p, false, j, s.jobs[j], s.histories[j]);
    } else {
      NewIsLawful(cfg, p.own[j - |s.jobs|]);
      CommittedRowIsLawful(cfg, s, p, true, j - |s.jobs|, p.own[j - |s.jobs|], []);
    }
  }

  lemma StaleCommitIsUnlawful(cfg: Settings, s: System, p: nat, k: nat)
    requires Shape(cfg, s) && Law(cfg, s) && WorksLawful(cfg, s) && Enabled(cfg, s, Commit(p))
    requires k < |s.passes[p].works| && !IsFresh(s, s.passes[p].works[k])
    ensures !Law(cfg, Committing(cfg, s, p))
  {
    var pass := s.passes[p];
    var w := pass.works[k];
    assert WorkShape(s, pass, w);
    WorkIsFound(pass, k);
    WrittenBackLawfullyExactlyWhen(cfg, pass, w, s.jobs[w.row], s.histories[w.row]);
    var s' := Committing(cfg, s, p);
    assert s'.jobs[w.row] == Written(cfg, pass, w, s.jobs[w.row]);
    assert s'.histories[w.row] == Recorded(cfg, pass, w, s.histories[w.row]);
  }

  /** A commit keeps the law exactly when every row it writes is fresh. */
  lemma CommitKeepsLawExactlyWhen(cfg: Settings, s: System, p: nat)
    requires Shape(cfg, s) && Law(cfg, s) && WorksLawful(cfg, s) && Enabled(cfg, s, Commit(p))
    ensures Law(cfg, Committing(cfg, s, p)) <==> Fresh(s, s.passes[p])
  {
    if Fresh(s, s.passes[p]) {
      forall j | 0 <= j < |s.jobs| + |s.passes[p].own|
        ensures Lawful(cfg, View(cfg, s, s.passes[p])[j], HistoriesWith(cfg, s, s.passes[p])[j])
      {
        CommittedRowsLawful(cfg, s, s.passes[p], j);
      }
    } else {
      var k :| 0 <= k < |s.passes[p].works| && !IsFresh(s, s.passes[p].works[k]);
      StaleCommitIsUnlawful(cfg, s, p, k);
    }
  }

  predicate FreshStep(s: System, step: Step) {
    step.Commit? ==>
      && step.pass < |s.passes|
      && forall k :: 0 <= k < |s.passes[step.pass].works| ==> IsFresh(s, s.passes[step.pass].works[k])
  }

  lemma StepKeepsLawExactlyWhen(cfg: Settings, s: System, step: Step)
    requires Shape(cfg, s) && Law(cfg, s) && WorksLawful(cfg, s) && Enabled(cfg, s, step)
    ensures Law(cfg, Next(cfg, s, step)) <==> FreshStep(s, step)
  {
    if step.Commit? {
      CommitKeepsLawExactlyWhen(cfg, s, step.pass);
    } else if step.QueueDiscovery? {
      var s' := Discovering(s, step.artist, step.priority, step.at);
      forall j | 0 <= j < |s'.jobs| ensures Lawful(cfg, s'.jobs[j], s'.histories[j]) {
        if j < |s.jobs| {
          assert Lawful(cfg, s.jobs[j], s.histories[j]);
        }
      }
    } else {
      assert Next(cfg, s, step).jobs == s.jobs && Next(cfg, s, step).histories == s.histories;
    }
  }

  lemma SelectingIsLawful(cfg: Settings, s: System, p: nat, rows: seq<nat>)
    requires Shape(cfg, s) && Law(cfg, s) && Enabled(cfg, s, Select(p, rows))
    ensures SelectedLawfully(cfg, Selecting(s, p, rows).passes[p])
  {
    var pass' := Selecting(s, p, rows).passes[p];
    forall k | 0 <= k < |pass'.works| ensures Lawful(cfg, pass'.works[k].selected, pass'.works[k].seen) {
      if rows[k] < |s.jobs| {
        assert Lawful(cfg, s.jobs[rows[k]], s.histories[rows[k]]);
      } else {
        assert IsNew(s.passes[p].own[rows[k] - |s.jobs|]);
      }
    }
  }

  lemma StepKeepsWorksLawful(cfg: Settings, s: System, step: Step)
    requires Shape(cfg, s) && Law(cfg, s) && WorksLawful(cfg, s) && Enabled(cfg, s, step)
    ensures WorksLawful(cfg, Next(cfg, s, step))
  {
    var s' := Next(cfg, s, step);
    if step.Select? {
      SelectingIsLawful(cfg, s, step.pass, step.rows);
    }
    forall p | 0 <= p < |s'.passes| && s'.passes[p].open ensures SelectedLawfully(cfg, s'.passes[p]) {
      if p < |s.passes| && !(step.Select? && step.pass == p) {
        assert SelectedLawfully(cfg, s.passes[p]);
        WorksOnlyMarked(cfg, s, step, p);
      }
    }
  }

  ghost predicate SameSelection(p: Pass, p': Pass) {
    && |p'.works| == |p.works|
    && forall k :: 0 <= k < |p.works| ==>
         p'.works[k].mine == p.works[k].mine && p'.works[k].row == p.works[k].row
         && p'.works[k].selected == p.works[k].selected && p'.works[k].seen == p.works[k].seen
  }

  // Outside its selection, a pass keeps what it selected.
  lemma WorksOnlyMarked(cfg: Settings, s: System, step: Step, p: nat)
    requires Enabled(cfg, s, step) && p < |s.passes| && !(step.Select? && step.pass == p)
    ensures p < |Next(cfg, s, step).passes|
    ensures SameSelection(s.passes[p], Next(cfg, s, step).passes[p])
    ensures Next(cfg, s, step).passes[p].open ==> s.passes[p].open
  {
  }

  // ---- Runs -------------------------------------------------------------------------------------------------------

  ghost predicate AlwaysLawful(cfg: Settings, s: System, steps: seq<Step>)
    requires Valid(cfg, s, steps)
    decreases |steps|
  {
    Law(cfg, s) && (steps == [] || AlwaysLawful(cfg, Next(cfg, s, steps[0]), steps[1..]))
  }

  ghost predicate CommitsFresh(cfg: Settings, s: System, steps: seq<Step>)
    requires Valid(cfg, s, steps)
    decreases |steps|
  {
    steps == [] || (FreshStep(s, steps[0]) && CommitsFresh(cfg, Next(cfg, s, steps[0]), steps[1..]))
  }

  /**
   * The retry budget over every run, however its passes overlap: the law holds throughout exactly when every
   * commit finds the rows it selected still unfinished with the attempt count it read. A claim that
   * compared those two columns would be enough; the code's does not.
   */
  lemma {:induction false} BudgetIsKeptExactlyWhen(cfg: Settings, s: System, steps: seq<Step>)
    requires Shape(cfg, s) && Law(cfg, s) && WorksLawful(cfg, s) && Valid(cfg, s, steps)
    ensures AlwaysLawful(cfg, s, steps) <==> CommitsFresh(cfg, s, steps)
    decreases |steps|
  {
    if steps != [] {
      StepKeepsLawExactlyWhen(cfg, s, steps[0]);
      if FreshStep(s, steps[0]) {
        StepKeepsShape(cfg, s, steps[0]);
        StepKeepsWorksLawful(cfg, s, steps[0]);
        BudgetIsKeptExactlyWhen(cfg, Next(cfg, s, steps[0]), steps[1..]);
      }
    }
  }

  // ---- Passes that share no row --------------------------------------------------------------------------------------

  ghost predicate Untouched(s: System, p: Pass) {
    forall k :: 0 <= k < |p.works| && !p.works[k].mine ==>
      p.works[k].row < |s.jobs| && s.jobs[p.works[k].row] == p.works[k].selected
  }

  ghost predicate Separate(s: System) {
    && (forall p :: 0 <= p < |s.passes| && s.passes[p].open ==> Untouched(s, s.passes[p]))
    && (forall p, q :: 0 <= p < |s.passes| && 0 <= q < |s.passes| && p != q && s.passes[p].open && s.passes[q].open ==>
          !Shares(s.passes[p], s.passes[q]))
  }

  ghost predicate Avoids(q: Pass, rows: seq<nat>) {
    forall k :: 0 <= k < |q.works| && !q.works[k].mine ==> q.works[k].row !in rows
  }

  // A selection avoids the rows that other open passes have selected.
  ghost predicate SelectsApart(s: System, step: Step) {
    step.Select? ==>
      forall q :: 0 <= q < |s.passes| && q != step.pass && s.passes[q].open ==> Avoids(s.passes[q], step.rows)
  }

  ghost predicate AlwaysApart(cfg: Settings, s: System, steps: seq<Step>)
    requires Valid(cfg, s, steps)
    decreases |steps|
  {
    steps == [] || (SelectsApart(s, steps[0]) && AlwaysApart(cfg, Next(cfg, s, steps[0]), steps[1..]))
  }

  lemma SeparateIsFresh(cfg: Settings, s: System, p: nat)
    requires Shape(cfg, s) && Separate(s) && IsOpen(s, p)
    ensures Fresh(s, s.passes[p])
  {
    forall k | 0 <= k < |s.passes[p].works| ensures IsFresh(s, s.passes[p].works[k]) {
      assert WorkShape(s, s.passes[p], s.passes[p].works[k]);
    }
  }

  lemma SelectingStaysSeparate(cfg: Settings, s: System, p: nat, rows: seq<nat>)
    requires Shape(cfg, s) && Separate(s) && Enabled(cfg, s, Select(p, rows)) && SelectsApart(s, Select(p, rows))
    ensures Separate(Selecting(s, p, rows))
  {
    var s' := Selecting(s, p, rows);
    forall q | 0 <= q < |s'.passes| && s'.passes[q].open ensures Untouched(s', s'.passes[q]) {
      if q != p {
        assert Untouched(s, s.passes[q]);
      }
    }
    forall a, b | 0 <= a < |s'.passes| && 0 <= b < |s'.passes| && a != b && s'.passes[a].open && s'.passes[b].open
      ensures !Shares(s'.passes[a], s'.passes[b])
    {
      if a != p && b != p {
        assert !Shares(s.passes[a], s.passes[b]);
      }
    }
  }

  lemma CommittingStaysSeparate(cfg: Settings, s: System, p: nat)
    requires Shape(cfg, s) && Separate(s) && IsOpen(s, p)
    ensures Separate(Committing(cfg, s, p))
  {
    var s' := Committing(cfg, s, p);
    forall q | 0 <= q < |s'.passes| && s'.passes[q].open ensures Untouched(s', s'.passes[q]) {
      var other := s.passes[q];
      assert Untouched(s, other) && !Shares(s.passes[p], other);
      forall k | 0 <= k < |other.works| && !other.works[k].mine
        ensures s'.jobs[other.works[k].row] == other.works[k].selected
      {
        var i := WorkOn(s.passes[p].works, false, other.works[k].row);
        assert i == |s.passes[p].works|;
      }
    }
  }

  // Two passes that select what others do share what those share.
  lemma SameSelectionsShareAlike(p: Pass, q: Pass, p': Pass, q': Pass)
    requires SameSelection(p, p') && SameSelection(q, q') && !Shares(p, q)
    ensures !Shares(p', q')
  {
  }

  // Steps that change neither committed rows nor the selections of passes.
  lemma OtherStepsStaySeparate(cfg: Settings, s: System, step: Step)
    requires Shape(cfg, s) && Separate(s) && Enabled(cfg, s, step) && !step.Select? && !step.Commit?
    ensures Separate(Next(cfg, s, step))
  {
    var s' := Next(cfg, s, step);
    OtherStepsKeepRows(cfg, s, step);
    forall q | 0 <= q < |s'.passes| && s'.passes[q].open
      ensures Untouched(s', s'.passes[q])
      ensures q < |s.passes| ==> s.passes[q].open && SameSelection(s.passes[q], s'.passes[q])
      ensures q >= |s.passes| ==> s'.passes[q].works == []
    {
      if q < |s.passes| {
        WorksOnlyMarked(cfg, s, step, q);
        assert Untouched(s, s.passes[q]);
      }
    }
    forall a, b | 0 <= a < |s'.passes| && 0 <= b < |s'.passes| && a != b && s'.passes[a].open && s'.passes[b].open
      ensures !Shares(s'.passes[a], s'.passes[b])
    {
      if a < |s.passes| && b < |s.passes| {
        SameSelectionsShareAlike(s.passes[a], s.passes[b], s'.passes[a], s'.passes[b]);
      }
    }
  }

  lemma OtherStepsKeepRows(cfg: Settings, s: System, step: Step)
    requires Enabled(cfg, s, step) && !step.Commit?
    ensures s.jobs <= Next(cfg, s, step).jobs
  {
  }

  lemma StepStaysSeparate(cfg: Settings, s: System, step: Step)
    requires Shape(cfg, s) && Separate(s) && Enabled(cfg, s, step) && SelectsApart(s, step)
    ensures Separate(Next(cfg, s, step)) && FreshStep(s, step)
  {
    if step.Select? {
      SelectingStaysSeparate(cfg, s, step.pass, step.rows);
    } else if step.Commit? {
      CommittingStaysSeparate(cfg, s, step.pass);
      SeparateIsFresh(cfg, s, step.pass);
    } else {
      OtherStepsStaySeparate(cfg, s, step);
    }
  }

  lemma {:induction false} ApartCommitsFresh(cfg: Settings, s: System, steps: seq<Step>)
    requires Shape(cfg, s) && Separate(s) && Valid(cfg, s, steps) && AlwaysApart(cfg, s, steps)
    ensures CommitsFresh(cfg, s, steps)
    decreases |steps|
  {
    if steps != [] {
      StepStaysSeparate(cfg, s, steps[0]);
      StepKeepsShape(cfg, s, steps[0]);
      ApartCommitsFresh(cfg, Next(cfg, s, steps[0]), steps[1..]);
    }
  }

  lemma {:induction false} EndIsLawful(cfg: Settings, s: System, steps: seq<Step>)
    requires Valid(cfg, s, steps) && AlwaysLawful(cfg, s, steps)
    ensures Law(cfg, After(cfg, s, steps))
    decreases |steps|
  {
    if steps != [] {
      EndIsLawful(cfg, Next(cfg, s, steps[0]), steps[1..]);
    }
  }

  // ---- Passes that do not overlap ---------------------------------------------------------------------------------------

  ghost predicate Idle(s: System) {
    forall p :: 0 <= p < |s.passes| ==> !s.passes[p].open
  }

  // A pass begins only when the last one has committed or rolled back.
  ghost predicate Serial(cfg: Settings, s: System, steps: seq<Step>)
    requires Valid(cfg, s, steps)
    decreases |steps|
  {
    steps == [] || ((steps[0].Begin? ==> Idle(s)) && Serial(cfg, Next(cfg, s, steps[0]), steps[1..]))
  }

  ghost predicate Lone(s: System) {
    forall p, q :: 0 <= p < |s.passes| && 0 <= q < |s.passes| && s.passes[p].open && s.passes[q].open ==> p == q
  }

  lemma {:induction false} SerialIsApart(cfg: Settings, s: System, steps: seq<Step>)
    requires Lone(s) && Valid(cfg, s, steps) && Serial(cfg, s, steps)
    ensures AlwaysApart(cfg, s, steps)
    decreases |steps|
  {
    if steps != [] {
      var s' := Next(cfg, s, steps[0]);
      assert Lone(s') by {
        forall p, q | 0 <= p < |s'.passes| && 0 <= q < |s'.passes| && s'.passes[p].open && s'.passes[q].open ensures p == q {
          if p < |s.passes| && q < |s.passes| && !steps[0].Select? {
            WorksOnlyMarked(cfg, s, steps[0], p);
            WorksOnlyMarked(cfg, s, steps[0], q);
          }
        }
      }
      SerialIsApart(cfg, s', steps[1..]);
    }
  }

  /** Passes that select no row another open pass has selected keep the law, whatever else they do. */
  lemma ApartPassesKeepTheBudget(cfg: Settings, steps: seq<Step>)
    requires Valid(cfg, START, steps) && AlwaysApart(cfg, START, steps)
    ensures AlwaysLawful(cfg, START, steps) && Law(cfg, After(cfg, START, steps))
  {
    ApartCommitsFresh(cfg, START, steps);
    BudgetIsKeptExactlyWhen(cfg, START, steps);
    EndIsLawful(cfg, START, steps);
  }

  /**
   * The retry budget, over every run of passes that do not overlap, with no assumption on leases or time. A
   * waiting job has been charged its failures and nothing else, however often it was deferred; a
   * retryable one has budget left; no job fails more than `max_attempts` times (once, when that is not
   * positive); one given up for MAX_ATTEMPTS has used the budget; and nothing happens to a finished job.
   */
  lemma RetryBudgetIsKept(cfg: Settings, steps: seq<Step>, j: nat)
    requires Valid(cfg, START, steps) && Serial(cfg, START, steps)
    requires j < |After(cfg, START, steps).jobs|
    ensures var s := After(cfg, START, steps);
            && |s.histories| == |s.jobs|
            && var job, h := s.jobs[j], s.histories[j];
            && (job.status == PENDING || job.status == FAILED_RETRYABLE ==> job.attempts == Failures(h))
            && (job.status == FAILED_RETRYABLE ==> job.attempts < cfg.maxAttempts)
            && Failures(h) <= AtLeast(cfg.maxAttempts, 1)
            && (job.resultCode == Some(MAX_ATTEMPTS) ==> Failures(h) >= cfg.maxAttempts)
            && (forall i :: 0 <= i < |h| - 1 ==> !IsFinal(h[i]))
            && job.status == StatusAfter(h)
  {
    SerialIsApart(cfg, START, steps);
    ApartPassesKeepTheBudget(cfg, steps);
    var s := After(cfg, START, steps);
    var job, h := s.jobs[j], s.histories[j];
    assert Lawful(cfg, job, h);
    if job.status == FAILED_RETRYABLE {
      assert h[|h| - 1] == Failure;
      assert Count(h, Failure) > 0;
    }
  }
}
