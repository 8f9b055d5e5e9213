/**
 * What two overlapping passes can do to each other: the race of the demand queue, run by run, and the proof
 * that sharing a selected row is exactly what makes it possible.
 */
module DemandRace {
  import opened Options
  import opened DemandJobs
  import opened DemandEnqueue
  import opened DemandRuns
  import opened DemandShape
  import opened DemandBudget

  // ---- Letting a pass finish --------------------------------------------------------------------------------

  ghost predicate NoneResolves(answer: nat -> Answer) {
    forall k :: answer(k) != Replied(RESOLVED)
  }

  function Answered(w: Work, answer: Answer): Work {
    if w.done.None? then w.(done := Some(DoneOf(w, answer, AlreadyThere))) else w
  }

  function AnsweredFrom(p: Pass, from: nat, answer: nat -> Answer): Pass {
    p.(works := seq(|p.works|, k requires 0 <= k < |p.works| =>
                      if k < from then p.works[k] else Answered(p.works[k], answer(k))))
  }

  lemma Cons(cfg: Settings, s: System, step: Step, rest: seq<Step>)
    requires Enabled(cfg, s, step) && Valid(cfg, Next(cfg, s, step), rest)
    ensures Valid(cfg, s, [step] + rest) && After(cfg, s, [step] + rest) == After(cfg, Next(cfg, s, step), rest)
  {
    assert ([step] + rest)[1..] == rest;
  }

  ghost predicate SelectsNothing(steps: seq<Step>) {
    forall i :: 0 <= i < |steps| ==> !steps[i].Select?
  }

  lemma {:induction false} ExecuteRest(cfg: Settings, s: System, p: nat, from: nat, answer: nat -> Answer) returns (steps: seq<Step>)
    requires |s.histories| == |s.jobs| && IsOpen(s, p) && s.passes[p].phase == Locked && from <= |s.passes[p].works|
    requires NoneResolves(answer)
    ensures Valid(cfg, s, steps) && SelectsNothing(steps)
    ensures After(cfg, s, steps) == Put(s, p, AnsweredFrom(s.passes[p], from, answer))
    decreases |s.passes[p].works| - from
  {
    var pass := s.passes[p];
    if from == |pass.works| {
      steps := [];
      assert AnsweredFrom(pass, from, answer).works == pass.works;
    } else if pass.works[from].done.Some? {
      steps := ExecuteRest(cfg, s, p, from + 1, answer);
      assert AnsweredFrom(pass, from, answer).works == AnsweredFrom(pass, from + 1, answer).works;
    } else {
      var step := Execute(p, from, answer(from));
      var s' := Executing(cfg, s, p, from, answer(from));
      assert pass.own + [] == pass.own;
      var rest := ExecuteRest(cfg, s', p, from + 1, answer);
      Cons(cfg, s, step, rest);
      steps := [step] + rest;
      assert AnsweredFrom(pass, from, answer).works == AnsweredFrom(s'.passes[p], from + 1, answer).works;
    }
  }

  // The pass as its jobs leave it, and the table it commits.
  function Finishing(p: Pass, answer: nat -> Answer): Pass {
    AnsweredFrom(p, 0, answer).(phase := Locked)
  }

  function FinishedTable(cfg: Settings, s: System, p: nat, answer: nat -> Answer): System
    requires p < |s.passes|
  {
    Committing(cfg, Put(s, p, Finishing(s.passes[p], answer)), p)
  }

  lemma FinishLocked(cfg: Settings, s: System, p: nat, answer: nat -> Answer) returns (steps: seq<Step>)
    requires |s.histories| == |s.jobs| && IsOpen(s, p) && s.passes[p].phase == Locked && NoneResolves(answer)
    ensures Valid(cfg, s, steps) && SelectsNothing(steps)
    ensures After(cfg, s, steps) == FinishedTable(cfg, s, p, answer)
    ensures Enabled(cfg, Put(s, p, Finishing(s.passes[p], answer)), Commit(p))
  {
    var executed := ExecuteRest(cfg, s, p, 0, answer);
    var s' := After(cfg, s, executed);
    assert Valid(cfg, s', [Commit(p)]) && After(cfg, s', [Commit(p)]) == Committing(cfg, s', p) by {
      Cons(cfg, s', Commit(p), []);
      assert [Commit(p)] + [] == [Commit(p)];
    }
    RunConcat(cfg, s, executed, [Commit(p)]);
    steps := executed + [Commit(p)];
  }

  lemma FinishSelected(cfg: Settings, s: System, p: nat, answer: nat -> Answer) returns (steps: seq<Step>)
    requires Enabled(cfg, s, Lock(p)) && NoneResolves(answer)
    ensures Valid(cfg, s, steps) && SelectsNothing(steps)
    ensures After(cfg, s, steps) == FinishedTable(cfg, s, p, answer)
    ensures Enabled(cfg, Put(s, p, Finishing(s.passes[p], answer)), Commit(p))
  {
    var s' := Next(cfg, s, Lock(p));
    var rest := FinishLocked(cfg, s', p, answer);
    Cons(cfg, s, Lock(p), rest);
    steps := [Lock(p)] + rest;
    assert Put(s', p, Finishing(s'.passes[p], answer)) == Put(s, p, Finishing(s.passes[p], answer));
  }

  // ---- The race, from the empty database ------------------------------------------------------------------------

  function FirstJob(artist: string): Job {
    NewJob(Once(artist), artist, IdentityDiscovery, 0, 0)
  }

  function Reader(worker: string, artist: string): Pass {
    Pass(0, worker, [], [Work(false, 0, FirstJob(artist), [], None)], Selected, true)
  }

  function BothRead(artist: string): System {
    System([FirstJob(artist)], [[]], [Reader("first", artist), Reader("second", artist)])
  }

  // One job is queued, and two passes select it before either commits.
  lemma BothCanRead(cfg: Settings, artist: string) returns (steps: seq<Step>)
    ensures Valid(cfg, START, steps) && After(cfg, START, steps) == BothRead(artist)
  {
    var job := FirstJob(artist);
    var blank := Pass(0, "first", [], [], Reading, true);
    var s1 := System([job], [[]], []);
    var s2 := System([job], [[]], [blank]);
    var s3 := System([job], [[]], [blank, blank.(worker := "second")]);
    var s4 := System([job], [[]], [Reader("first", artist), blank.(worker := "second")]);
    assert [] + [job] == [job];
    assert Discover([], artist, 0, 0) == Backfilled.Queued([job]);
    assert Next(cfg, START, QueueDiscovery(artist, 0, 0)) == s1;
    assert Next(cfg, s1, Begin(0, "first")) == s2;
    assert Next(cfg, s2, Begin(0, "second")) == s3;
    Reads(cfg, s3, 0, artist);
    assert Next(cfg, s3, Select(0, [0])) == s4;
    Reads(cfg, s4, 1, artist);
    assert Next(cfg, s4, Select(1, [0])) == BothRead(artist);
    steps := [];
    Cons(cfg, s4, Select(1, [0]), steps);
    steps := [Select(1, [0])] + steps;
    Cons(cfg, s3, Select(0, [0]), steps);
    steps := [Select(0, [0])] + steps;
    Cons(cfg, s2, Begin(0, "second"), steps);
    steps := [Begin(0, "second")] + steps;
    Cons(cfg, s1, Begin(0, "first"), steps);
    steps := [Begin(0, "first")] + steps;
    Cons(cfg, START, QueueDiscovery(artist, 0, 0), steps);
    steps := [QueueDiscovery(artist, 0, 0)] + steps;
  }

  lemma Reads(cfg: Settings, s: System, p: nat, artist: string)
    requires s.jobs == [FirstJob(artist)] && s.histories == [[]] && IsOpen(s, p)
    requires s.passes[p].at == 0 && s.passes[p].own == [] && s.passes[p].works == [] && s.passes[p].phase == Reading
    ensures Enabled(cfg, s, Select(p, [0]))
    ensures Selecting(s, p, [0]).passes[p].works == [Work(false, 0, FirstJob(artist), [], None)]
  {
    ReadingViewsRows(cfg, s, s.passes[p], 0);
  }

  // The row and history after both passes: each worked on the row as it first was.
  function AfterOne(cfg: Settings, worker: string, artist: string, answer: Answer, row: Job): Job {
    Written(cfg, Reader(worker, artist), Answered(Reader(worker, artist).works[0], answer), row)
  }

  function EventAfter(cfg: Settings, worker: string, artist: string, answer: Answer): Event {
    var p := Reader(worker, artist);
    EventOf(cfg, ClaimOf(cfg, p, p.works[0]), DoneOf(p.works[0], answer, AlreadyThere).outcome)
  }

  // A reader of the one job finishes, whatever has become of the row.
  lemma ReaderFinishes(cfg: Settings, s: System, p: nat, worker: string, artist: string, answer: Answer)
    requires |s.jobs| == |s.histories| == 1 && p < |s.passes| && s.passes[p] == Reader(worker, artist)
    ensures FinishedTable(cfg, s, p, _ => answer).jobs == [AfterOne(cfg, worker, artist, answer, s.jobs[0])]
    ensures FinishedTable(cfg, s, p, _ => answer).histories == [s.histories[0] + [EventAfter(cfg, worker, artist, answer)]]
    ensures FinishedTable(cfg, s, p, _ => answer).passes == s.passes[p := Finishing(s.passes[p], _ => answer).(open := false)]
  {
    var pass := Finishing(s.passes[p], _ => answer);
    assert pass.works == [Answered(Reader(worker, artist).works[0], answer)];
    assert WorkOn(pass.works, false, 0) == 0;
  }

  // One reader of the job runs it to its commit; the other still holds its copy.
  lemma ReaderRuns(cfg: Settings, s: System, p: nat, worker: string, artist: string, answer: Answer) returns (steps: seq<Step>)
    requires |s.jobs| == |s.histories| == 1 && p < |s.passes| && s.passes[p] == Reader(worker, artist)
    requires answer != Replied(RESOLVED)
    requires forall q :: 0 <= q < |s.passes| && s.passes[q].open && q != p ==> s.passes[q].phase != Locked
    ensures Valid(cfg, s, steps)
    ensures After(cfg, s, steps).jobs == [AfterOne(cfg, worker, artist, answer, s.jobs[0])]
    ensures After(cfg, s, steps).histories == [s.histories[0] + [EventAfter(cfg, worker, artist, answer)]]
    ensures |After(cfg, s, steps).passes| == |s.passes| && !After(cfg, s, steps).passes[p].open
    ensures forall q :: 0 <= q < |s.passes| && q != p ==> After(cfg, s, steps).passes[q] == s.passes[q]
  {
    steps := FinishSelected(cfg, s, p, _ => answer);
    ReaderFinishes(cfg, s, p, worker, artist, answer);
  }

  lemma RaceEnds(cfg: Settings, artist: string, a: Answer, b: Answer) returns (steps: seq<Step>)
    requires a != Replied(RESOLVED) && b != Replied(RESOLVED)
    ensures Valid(cfg, START, steps)
    ensures After(cfg, START, steps).jobs
         == [AfterOne(cfg, "second", artist, b, AfterOne(cfg, "first", artist, a, FirstJob(artist)))]
    ensures After(cfg, START, steps).histories == [[EventAfter(cfg, "first", artist, a), EventAfter(cfg, "second", artist, b)]]
  {
    var reading := BothCanRead(cfg, artist);
    var s0 := BothRead(artist);
    var first := ReaderRuns(cfg, s0, 0, "first", artist, a);
    var s1 := After(cfg, s0, first);
    var second := ReaderRuns(cfg, s1, 1, "second", artist, b);
    RunConcat(cfg, s0, first, second);
    RunConcat(cfg, START, reading, first + second);
    steps := reading + (first + second);
    assert [] + [EventAfter(cfg, "first", artist, a)] + [EventAfter(cfg, "second", artist, b)]
        == [EventAfter(cfg, "first", artist, a), EventAfter(cfg, "second", artist, b)];
  }

  /**
   * Two passes that read the same pending row both run it: when both fail, the job has failed twice and been
   * charged one attempt.
   */
  lemma OverlapLosesAFailure(cfg: Settings, artist: string)
    ensures exists steps ::
              && Valid(cfg, START, steps)
              && var e := After(cfg, START, steps);
              && |e.jobs| == 1 && |e.histories| == 1
              && e.jobs[0].attempts == 1 && Failures(e.histories[0]) == 2
  {
    var steps := RaceEnds(cfg, artist, Raised, Raised);
    var one, two := EventAfter(cfg, "first", artist, Raised), EventAfter(cfg, "second", artist, Raised);
    assert [one, two] == [one] + [two];
    CountAppend([one], two, Failure);
    CountAppend([one], two, GaveUp);
    assert [one] == [] + [one];
    CountAppend([], one, Failure);
    CountAppend([], one, GaveUp);
  }

  /** The same race revives a finished job: the first pass succeeds, the second fails and puts it back. */
  lemma OverlapRevivesAJob(cfg: Settings, artist: string)
    requires cfg.maxAttempts >= 2
    ensures exists steps ::
              && Valid(cfg, START, steps)
              && var e := After(cfg, START, steps);
              && |e.jobs| == 1 && e.jobs[0].status == FAILED_RETRYABLE
              && e.histories == [[Success, Failure]]
  {
    var steps := RaceEnds(cfg, artist, Replied(OTHER_REPORT), Raised);
  }

  // ---- Sharing a row is exactly the danger -------------------------------------------------------------------------

  lemma {:induction false} SelectingNothingStaysApart(cfg: Settings, s: System, steps: seq<Step>)
    requires Valid(cfg, s, steps) && SelectsNothing(steps)
    ensures AlwaysApart(cfg, s, steps)
    decreases |steps|
  {
    if steps != [] {
      SelectingNothingStaysApart(cfg, Next(cfg, s, steps[0]), steps[1..]);
    }
  }

  function Trouble(k: nat): Answer {
    Raised
  }

  // Two passes are open: `p` has locked its rows and run none of its jobs, `q` has selected.
  ghost predicate Overlapping(cfg: Settings, s: System, p: nat, q: nat) {
    && Shape(cfg, s) && Law(cfg, s) && WorksLawful(cfg, s)
    && p != q && IsOpen(s, p) && IsOpen(s, q) && (forall r :: 0 <= r < |s.passes| && s.passes[r].open ==> r == p || r == q)
    && s.passes[p].phase == Locked && s.passes[q].phase == Selected
    && (forall k :: 0 <= k < |s.passes[p].works| ==> s.passes[p].works[k].done.None?)
    && Untouched(s, s.passes[p]) && Untouched(s, s.passes[q])
  }

  // A job that raised is finished or has one attempt more.
  lemma RaisingMovesTheRow(cfg: Settings, p: Pass, w: Work)
    requires w.done == Some(DoneOf(w, Raised, AlreadyThere))
    ensures var row := Written(cfg, p, w, w.selected); !IsActive(row) || row.attempts == w.selected.attempts + 1
  {
  }

  lemma TroubledWork(p: Pass, k: nat)
    requires k < |p.works|
    ensures Finishing(p, Trouble).works[k] == Answered(p.works[k], Raised)
  {
    var answer: nat -> Answer := Trouble;
    assert answer(k) == Raised;
  }

  // The work of the first pass on a row of the second: both read the row as it still is.
  lemma SharedWork(cfg: Settings, s: System, p: nat, q: nat, k: nat, l: nat)
    requires Overlapping(cfg, s, p, q) && k < |s.passes[p].works| && l < |s.passes[q].works|
    requires !s.passes[p].works[k].mine && !s.passes[q].works[l].mine
    requires s.passes[p].works[k].row == s.passes[q].works[l].row
    ensures var j := s.passes[q].works[l].row;
            j < |s.jobs| && s.jobs[j] == s.passes[p].works[k].selected == s.passes[q].works[l].selected
  {
    assert Untouched(s, s.passes[p]) && Untouched(s, s.passes[q]);
  }

  lemma FinishedWorkOn(p: Pass, k: nat)
    requires k < |p.works|
    requires forall i, l :: 0 <= i < l < |p.works| ==> !On(p.works[i], p.works[l].mine, p.works[l].row)
    ensures WorkOn(Finishing(p, Trouble).works, p.works[k].mine, p.works[k].row) == k
  {
    var p' := Finishing(p, Trouble);
    forall i | 0 <= i < |p.works| ensures p'.works[i].mine == p.works[i].mine && p'.works[i].row == p.works[i].row {
      TroubledWork(p, i);
    }
    WorkIsFound(p', k);
    assert p'.works[k].mine == p.works[k].mine && p'.works[k].row == p.works[k].row;
  }

  lemma FirstMovesTheSharedRow(cfg: Settings, s: System, p: nat, q: nat, k: nat, l: nat)
    requires Overlapping(cfg, s, p, q) && k < |s.passes[p].works| && l < |s.passes[q].works|
    requires !s.passes[p].works[k].mine && !s.passes[q].works[l].mine
    requires s.passes[p].works[k].row == s.passes[q].works[l].row
    ensures !IsFresh(FinishedTable(cfg, s, p, Trouble), s.passes[q].works[l])
  {
    SharedWork(cfg, s, p, q, k, l);
    var pass := Finishing(s.passes[p], Trouble);
    FinishedWorkOn(s.passes[p], k);
    TroubledWork(s.passes[p], k);
    var j := s.passes[q].works[l].row;
    assert FinishedTable(cfg, s, p, Trouble).jobs[j] == RowNow(cfg, pass, false, j, s.jobs[j]);
    RaisingMovesTheRow(cfg, pass, pass.works[k]);
  }

  lemma FinishingKeepsSelections(cfg: Settings, s: System, p: nat, answer: nat -> Answer)
    requires WorksLawful(cfg, s) && IsOpen(s, p)
    ensures WorksLawful(cfg, Put(s, p, Finishing(s.passes[p], answer)))
    ensures Fresh(Put(s, p, Finishing(s.passes[p], answer)), Finishing(s.passes[p], answer)) <==> Fresh(s, s.passes[p])
  {
    var s' := Put(s, p, Finishing(s.passes[p], answer));
    forall r | 0 <= r < |s'.passes| && s'.passes[r].open ensures SelectedLawfully(cfg, s'.passes[r]) {
      assert SelectedLawfully(cfg, s.passes[r]);
    }
    forall k | 0 <= k < |s.passes[p].works|
      ensures s'.passes[p].works[k] == Answered(s.passes[p].works[k], answer(k))
    {
    }
    assert SameSelection(s.passes[p], s'.passes[p]);
    SameSelectionIsAsFresh(s, s', s.passes[p], s'.passes[p]);
  }

  lemma SameSelectionIsAsFresh(s: System, s': System, p: Pass, p': Pass)
    requires s'.jobs == s.jobs && SameSelection(p, p')
    ensures Fresh(s', p') <==> Fresh(s, p)
  {
    if Fresh(s, p) {
      forall k | 0 <= k < |p'.works| ensures IsFresh(s', p'.works[k]) {
        assert IsFresh(s, p.works[k]);
      }
    }
    if Fresh(s', p') {
      forall k | 0 <= k < |p.works| ensures IsFresh(s, p.works[k]) {
        assert IsFresh(s', p'.works[k]);
      }
    }
  }

  lemma CommittingKeepsWorksLawful(cfg: Settings, s: System, p: nat)
    requires WorksLawful(cfg, s) && p < |s.passes|
    ensures WorksLawful(cfg, Committing(cfg, s, p))
  {
  }

  lemma FinishingKeepsInvariants(cfg: Settings, s: System, p: nat, answer: nat -> Answer)
    requires Shape(cfg, s) && Law(cfg, s) && WorksLawful(cfg, s) && IsOpen(s, p)
    requires Enabled(cfg, Put(s, p, Finishing(s.passes[p], answer)), Commit(p))
    requires s.passes[p].phase != Reading && NoneResolves(answer)
    ensures Shape(cfg, FinishedTable(cfg, s, p, answer))
    ensures Law(cfg, FinishedTable(cfg, s, p, answer)) <==> Fresh(s, s.passes[p])
    ensures WorksLawful(cfg, FinishedTable(cfg, s, p, answer))
  {
    var s' := Put(s, p, Finishing(s.passes[p], answer));
    FinishingKeepsShape(cfg, s, p, answer);
    FinishingKeepsSelections(cfg, s, p, answer);
    StepKeepsShape(cfg, s', Commit(p));
    CommitKeepsLawExactlyWhen(cfg, s', p);
    CommittingKeepsWorksLawful(cfg, s', p);
  }

  lemma FinishingKeepsShape(cfg: Settings, s: System, p: nat, answer: nat -> Answer)
    requires Shape(cfg, s) && IsOpen(s, p) && s.passes[p].phase != Reading && NoneResolves(answer)
    ensures Shape(cfg, Put(s, p, Finishing(s.passes[p], answer)))
  {
    var pass := Finishing(s.passes[p], answer);
    forall k | 0 <= k < |pass.works| ensures WorkShape(s, pass, pass.works[k]) {
      assert WorkShape(s, s.passes[p], s.passes[p].works[k]);
    }
    PutKeepsShape(cfg, s, p, pass);
  }

  lemma SecondIsStale(cfg: Settings, s: System, p: nat, q: nat)
    requires Overlapping(cfg, s, p, q) && Shares(s.passes[p], s.passes[q])
    ensures !Fresh(FinishedTable(cfg, s, p, Trouble), s.passes[q])
  {
    var k, l :| 0 <= k < |s.passes[p].works| && 0 <= l < |s.passes[q].works| && !s.passes[p].works[k].mine
                && !s.passes[q].works[l].mine && s.passes[p].works[k].row == s.passes[q].works[l].row;
    FirstMovesTheSharedRow(cfg, s, p, q, k, l);
  }

  lemma FirstIsFresh(cfg: Settings, s: System, p: nat, q: nat)
    requires Overlapping(cfg, s, p, q)
    ensures Fresh(s, s.passes[p])
  {
    forall k | 0 <= k < |s.passes[p].works| ensures IsFresh(s, s.passes[p].works[k]) {
      assert WorkShape(s, s.passes[p], s.passes[p].works[k]);
    }
  }

  ghost predicate Breaks(cfg: Settings, s: System, steps: seq<Step>) {
    Valid(cfg, s, steps) && SelectsNothing(steps) && !Law(cfg, After(cfg, s, steps))
  }

  // The last open pass has selected, and some row has moved since.
  ghost predicate Doomed(cfg: Settings, s: System, q: nat) {
    && Shape(cfg, s) && Law(cfg, s) && WorksLawful(cfg, s) && IsOpen(s, q) && s.passes[q].phase == Selected
    && (forall r :: 0 <= r < |s.passes| && s.passes[r].open ==> r == q) && !Fresh(s, s.passes[q])
  }

  lemma FirstDooms(cfg: Settings, s: System, p: nat, q: nat) returns (steps: seq<Step>)
    requires Overlapping(cfg, s, p, q) && Shares(s.passes[p], s.passes[q])
    ensures Valid(cfg, s, steps) && SelectsNothing(steps) && Doomed(cfg, After(cfg, s, steps), q)
  {
    steps := FinishLocked(cfg, s, p, Trouble);
    FirstIsFresh(cfg, s, p, q);
    FinishingKeepsInvariants(cfg, s, p, Trouble);
    SecondIsStale(cfg, s, p, q);
  }

  lemma DoomedBreaks(cfg: Settings, s: System, q: nat) returns (steps: seq<Step>)
    requires Doomed(cfg, s, q)
    ensures Breaks(cfg, s, steps)
  {
    steps := FinishSelected(cfg, s, q, Trouble);
    FinishingKeepsInvariants(cfg, s, q, Trouble);
  }

  lemma BreaksAfter(cfg: Settings, s: System, first: seq<Step>, second: seq<Step>)
    requires Valid(cfg, s, first) && SelectsNothing(first) && Breaks(cfg, After(cfg, s, first), second)
    ensures Breaks(cfg, s, first + second)
  {
    RunConcat(cfg, s, first, second);
  }

  lemma SharingBreaks(cfg: Settings, s: System, p: nat, q: nat) returns (steps: seq<Step>)
    requires Overlapping(cfg, s, p, q) && Shares(s.passes[p], s.passes[q])
    ensures Breaks(cfg, s, steps)
  {
    var first := FirstDooms(cfg, s, p, q);
    var second := DoomedBreaks(cfg, After(cfg, s, first), q);
    BreaksAfter(cfg, s, first, second);
    steps := first + second;
  }

  // Every continuation whose selections keep apart ends with the budget intact.
  ghost predicate SafeFromHere(cfg: Settings, s: System) {
    forall steps :: Valid(cfg, s, steps) && AlwaysApart(cfg, s, steps) ==> Law(cfg, After(cfg, s, steps))
  }

  /**
   * Of two overlapping passes, the first has claimed its rows and the second has selected: the budget is safe
   * in every continuation, of these and of any later passes that select apart, exactly when the two
   * share no selected row.
   */
  lemma OverlapIsSafeExactlyWhenApart(cfg: Settings, s: System, p: nat, q: nat)
    requires Overlapping(cfg, s, p, q)
    ensures SafeFromHere(cfg, s) <==> !Shares(s.passes[p], s.passes[q])
  {
    if Shares(s.passes[p], s.passes[q]) {
      var steps := SharingBreaks(cfg, s, p, q);
      SelectingNothingStaysApart(cfg, s, steps);
      assert Valid(cfg, s, steps) && AlwaysApart(cfg, s, steps) && !Law(cfg, After(cfg, s, steps));
    } else {
      forall steps | Valid(cfg, s, steps) && AlwaysApart(cfg, s, steps) ensures Law(cfg, After(cfg, s, steps)) {
        ApartCommitsFresh(cfg, s, steps);
        BudgetIsKeptExactlyWhen(cfg, s, steps);
        EndIsLawful(cfg, s, steps);
      }
    }
  }
}
