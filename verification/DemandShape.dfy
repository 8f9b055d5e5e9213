/**
 * What every run of the demand queue keeps, however its passes overlap: one row per dedup key, windows that
 * tell the truth, and no lease that anybody sees.
 */
module DemandShape {
  import opened Options
  import opened DemandJobs
  import opened DemandEnqueue
  import opened DemandRuns

  // Runs compose.
  lemma {:induction false} RunConcat(cfg: Settings, s: System, a: seq<Step>, b: seq<Step>)
    requires Valid(cfg, s, a) && Valid(cfg, After(cfg, s, a), b)
    ensures Valid(cfg, s, a + b) && After(cfg, s, a + b) == After(cfg, After(cfg, s, a), b)
    decreases |a|
  {
    if a == [] {
      assert a + b == b;
    } else {
      assert (a + b)[1..] == a[1..] + b;
      RunConcat(cfg, Next(cfg, s, a[0]), a[1..], b);
    }
  }

  // A committed row: never RUNNING, never leased.
  predicate AtRest(j: Job) {
    j.status != RUNNING && j.lockExpiresAt.None?
  }

  predicate IsNew(j: Job) {
    j.status == PENDING && j.attempts == 0 && j.consecutiveFailures == 0 && j.lockExpiresAt.None? && j.resultCode.None?
  }

  ghost predicate SameIdentity(a: Job, b: Job) {
    a.key == b.key && a.artist == b.artist && a.jobType == b.jobType && a.createdAt == b.createdAt && a.priority == b.priority
  }

  ghost predicate WorkShape(s: System, p: Pass, w: Work) {
    && (if w.mine then w.row < |p.own| && w.selected == p.own[w.row] && w.seen == []
        else w.row < |s.jobs| && SameIdentity(w.selected, s.jobs[w.row]))
    && AtRest(w.selected) && IsActive(w.selected)
    && (w.done.Some? ==> w.done.value.outcome != Ends(MAX_ATTEMPTS))
  }

  ghost predicate OwnShape(cfg: Settings, s: System, p: Pass) {
    && UniqueKeys(p.own)
    && forall i :: 0 <= i < |p.own| ==> IsNew(p.own[i]) && WindowTrue(cfg, p.own[i]) && !HasKey(s.jobs, p.own[i].key)
  }

  ghost predicate WorksShape(s: System, p: Pass) {
    && (forall k :: 0 <= k < |p.works| ==> WorkShape(s, p, p.works[k]))
    && (forall k, l :: 0 <= k < l < |p.works| ==> !On(p.works[k], p.works[l].mine, p.works[l].row))
    && (p.phase == Reading ==> p.works == [])
    && (p.phase != Locked ==> forall k :: 0 <= k < |p.works| ==> p.works[k].done.None?)
  }

  ghost predicate PassShape(cfg: Settings, s: System, p: Pass) {
    OwnShape(cfg, s, p) && WorksShape(s, p)
  }

  ghost predicate Apart(p: Pass, q: Pass) {
    forall i :: 0 <= i < |p.own| ==> !HasKey(q.own, p.own[i].key)
  }

  ghost predicate TableShape(cfg: Settings, s: System) {
    && |s.histories| == |s.jobs| && UniqueKeys(s.jobs) && WindowsTrue(cfg, s.jobs)
    && forall j :: 0 <= j < |s.jobs| ==> AtRest(s.jobs[j])
  }

  ghost predicate Shape(cfg: Settings, s: System) {
    && TableShape(cfg, s)
    && (forall p :: 0 <= p < |s.passes| && s.passes[p].open ==> PassShape(cfg, s, s.passes[p]))
    && (forall p, q :: 0 <= p < |s.passes| && 0 <= q < |s.passes| && p != q && s.passes[p].open && s.passes[q].open ==>
          Apart(s.passes[p], s.passes[q]))
  }

  // Writing keeps what a row is, and an executed job is at rest.
  lemma WrittenRow(cfg: Settings, p: Pass, w: Work, row: Job)
    requires SameIdentity(w.selected, row) && AtRest(w.selected) && IsActive(w.selected)
    ensures SameIdentity(Written(cfg, p, w, row), row)
    ensures w.done.Some? ==> AtRest(Written(cfg, p, w, row))
  {
  }

  lemma ViewRows(cfg: Settings, s: System, p: Pass)
    requires WorksShape(s, p)
    ensures forall i :: 0 <= i < |s.jobs| ==> SameIdentity(View(cfg, s, p)[i], s.jobs[i])
    ensures forall i :: 0 <= i < |p.own| ==> SameIdentity(View(cfg, s, p)[|s.jobs| + i], p.own[i])
  {
    forall i | 0 <= i < |s.jobs| ensures SameIdentity(View(cfg, s, p)[i], s.jobs[i]) {
      var k := WorkOn(p.works, false, i);
      if k < |p.works| {
        assert WorkShape(s, p, p.works[k]);
        WrittenRow(cfg, p, p.works[k], s.jobs[i]);
      }
    }
    forall i | 0 <= i < |p.own| ensures SameIdentity(View(cfg, s, p)[|s.jobs| + i], p.own[i]) {
      var k := WorkOn(p.works, true, i);
      if k < |p.works| {
        assert WorkShape(s, p, p.works[k]);
        WrittenRow(cfg, p, p.works[k], p.own[i]);
      }
    }
  }

  lemma SameKeys(a: seq<Job>, b: seq<Job>)
    requires |a| == |b| && forall i :: 0 <= i < |a| ==> a[i].key == b[i].key
    ensures UniqueKeys(a) <==> UniqueKeys(b)
    ensures forall key :: HasKey(a, key) <==> HasKey(b, key)
  {
    forall key ensures HasKey(a, key) <==> HasKey(b, key) {
      if i :| 0 <= i < |a| && a[i].key == key {
        assert b[i].key == key;
      }
      if i :| 0 <= i < |b| && b[i].key == key {
        assert a[i].key == key;
      }
    }
  }

  lemma KeysOfConcat(a: seq<Job>, b: seq<Job>)
    ensures forall key :: HasKey(a + b, key) <==> HasKey(a, key) || HasKey(b, key)
    ensures UniqueKeys(a + b) ==> UniqueKeys(a) && UniqueKeys(b)
    ensures UniqueKeys(a + b) ==> forall i :: 0 <= i < |b| ==> !HasKey(a, b[i].key)
  {
    forall key ensures HasKey(a + b, key) <==> HasKey(a, key) || HasKey(b, key) {
      if HasKey(a, key) || HasKey(b, key) {
        KeyInConcat(a, b, key);
      }
      if i :| 0 <= i < |a + b| && (a + b)[i].key == key {
        if i < |a| {
          assert a[i].key == key;
        } else {
          assert b[i - |a|].key == key;
        }
      }
    }
    if UniqueKeys(a + b) {
      assert forall i :: 0 <= i < |a| ==> a[i] == (a + b)[i];
      assert forall i :: 0 <= i < |b| ==> b[i] == (a + b)[|a| + i];
    }
  }

  // The view is keyed, and holds the keys of the table and of the pass.
  lemma ViewKeys(cfg: Settings, s: System, p: Pass)
    requires TableShape(cfg, s) && PassShape(cfg, s, p)
    ensures UniqueKeys(View(cfg, s, p))
    ensures forall key :: HasKey(View(cfg, s, p), key) <==> HasKey(s.jobs, key) || HasKey(p.own, key)
  {
    ViewRows(cfg, s, p);
    forall j | j in p.own ensures !HasKey(s.jobs, j.key) {
      var i :| 0 <= i < |p.own| && p.own[i] == j;
    }
    JoinUnique(s.jobs, p.own);
    KeysOfConcat(s.jobs, p.own);
    SameKeys(View(cfg, s, p), s.jobs + p.own);
  }

  // ---- Inserting ----------------------------------------------------------------------------------------------

  // Rows that an enqueue may add.
  ghost predicate Addable(cfg: Settings, view: seq<Job>, added: seq<Job>) {
    && UniqueKeys(view + added)
    && forall i :: 0 <= i < |added| ==> IsNew(added[i]) && WindowTrue(cfg, added[i])
  }

  lemma DueIsAddable(cfg: Settings, view: seq<Job>, ids: seq<Resolved>, paused: set<string>, at: int)
    requires UniqueKeys(view)
    ensures Addable(cfg, view, NewRows(view, EnqueueDue(cfg, view, ids, paused, at)))
  {
    var added := Added(cfg, view, ids, paused, at);
    AddedRows(cfg, view, ids, paused, at);
    if EnqueueDue(cfg, view, ids, paused, at).Flushed? {
      assert NewRows(view, EnqueueDue(cfg, view, ids, paused, at)) == added;
      forall i | 0 <= i < |added| ensures IsNew(added[i]) && WindowTrue(cfg, added[i]) {
        assert added[i] in added;
      }
    } else {
      assert view + [] == view;
    }
  }

  lemma ReattemptsAreAddable(cfg: Settings, view: seq<Job>, us: seq<Unsettled>, registry: Option<set<string>>,
                             paused: set<string>, at: int)
    requires UniqueKeys(view)
    ensures Addable(cfg, view, NewRows(view, EnqueueReattempts(cfg, view, us, registry, paused, at)))
  {
    var done := EnqueueReattempts(cfg, view, us, registry, paused, at);
    var added := NewRows(view, done);
    if done.Flushed? && us != [] && registry.Some? {
      var rows := Reattempted(cfg, view, us, registry.value, paused, at);
      ReattemptRows(cfg, view, us, registry.value, paused, at);
      assert added == rows;
      forall i | 0 <= i < |added| ensures IsNew(added[i]) && WindowTrue(cfg, added[i]) {
        assert added[i] in rows;
      }
    } else {
      assert added == [];
      assert view + [] == view;
    }
  }

  lemma BackfillIsAddable(cfg: Settings, view: seq<Job>, artist: string, priority: int, at: int)
    requires UniqueKeys(view)
    ensures Addable(cfg, view, BackfillRows(view, Backfill(cfg, view, artist, priority, at)))
  {
    var b := Backfill(cfg, view, artist, priority, at);
    if b.Queued? {
      var job := NewJob(KeyFor(cfg, artist, CatalogueBackfill, at), artist, CatalogueBackfill, priority, at);
      assert BackfillRows(view, b) == [job];
      JoinUnique(view, [job]);
    } else {
      assert view + [] == view;
    }
  }

  lemma InsertingKeepsOwn(cfg: Settings, s: System, p: Pass, added: seq<Job>)
    requires TableShape(cfg, s) && PassShape(cfg, s, p) && Addable(cfg, View(cfg, s, p), added)
    ensures OwnShape(cfg, s, p.(own := p.own + added))
  {
    var view := View(cfg, s, p);
    ViewKeys(cfg, s, p);
    KeysOfConcat(view, added);
    forall j | j in added ensures !HasKey(p.own, j.key) {
      var i :| 0 <= i < |added| && added[i] == j;
    }
    JoinUnique(p.own, added);
  }

  lemma InsertingKeepsWorks(s: System, p: Pass, added: seq<Job>)
    requires WorksShape(s, p)
    ensures WorksShape(s, p.(own := p.own + added))
  {
    var p' := p.(own := p.own + added);
    forall k | 0 <= k < |p.works| ensures WorkShape(s, p', p'.works[k]) {
      assert WorkShape(s, p, p.works[k]);
    }
  }

  lemma InsertingStaysApart(s: System, p: nat, q: nat, added: seq<Job>)
    requires p < |s.passes| && q < |s.passes| && p != q && s.passes[q].open
    requires KeysFree(s, p, added)
    requires Apart(s.passes[p], s.passes[q]) && Apart(s.passes[q], s.passes[p])
    ensures Apart(s.passes[p].(own := s.passes[p].own + added), s.passes[q])
    ensures Apart(s.passes[q], s.passes[p].(own := s.passes[p].own + added))
  {
    var grown := s.passes[p].own + added;
    KeysOfConcat(s.passes[p].own, added);
    forall i | 0 <= i < |s.passes[q].own| ensures !HasKey(grown, s.passes[q].own[i].key) {
      assert HasKey(s.passes[q].own, s.passes[q].own[i].key);
    }
  }

  // Replacing one pass by another that is in shape and apart from the rest.
  lemma PutKeepsShape(cfg: Settings, s: System, p: nat, pass: Pass)
    requires Shape(cfg, s) && p < |s.passes|
    requires pass.open ==> PassShape(cfg, s, pass)
    requires pass.open ==> forall q :: 0 <= q < |s.passes| && q != p && s.passes[q].open ==>
               Apart(pass, s.passes[q]) && Apart(s.passes[q], pass)
    ensures Shape(cfg, Put(s, p, pass))
  {
    var s' := Put(s, p, pass);
    forall q | 0 <= q < |s'.passes| && s'.passes[q].open ensures PassShape(cfg, s', s'.passes[q]) {
      if q != p {
        SameTableSameShape(cfg, s, s', s.passes[q]);
      } else {
        SameTableSameShape(cfg, s, s', pass);
      }
    }
  }

  lemma SameTableSameShape(cfg: Settings, s: System, s': System, p: Pass)
    requires PassShape(cfg, s, p) && s'.jobs == s.jobs
    ensures PassShape(cfg, s', p)
  {
    forall k | 0 <= k < |p.works| ensures WorkShape(s', p, p.works[k]) {
      assert WorkShape(s, p, p.works[k]);
    }
  }

  lemma InsertedKeepsShape(cfg: Settings, s: System, p: nat, done: Enqueued, added: seq<Job>)
    requires Shape(cfg, s) && IsOpen(s, p) && Addable(cfg, View(cfg, s, s.passes[p]), added) && KeysFree(s, p, added)
    ensures Shape(cfg, Inserted(s, p, done, added))
  {
    var pass := s.passes[p];
    InsertingKeepsOwn(cfg, s, pass, added);
    InsertingKeepsWorks(s, pass, added);
    forall q | 0 <= q < |s.passes| && q != p && s.passes[q].open
      ensures Apart(pass.(own := pass.own + added), s.passes[q]) && Apart(s.passes[q], pass.(own := pass.own + added))
    {
      InsertingStaysApart(s, p, q, added);
    }
    PutKeepsShape(cfg, s, p, if done.Flushed? then pass.(own := pass.own + added) else pass.(open := false));
  }

  // ---- Selecting, executing, committing ---------------------------------------------------------------------------

  lemma ReadingViewsRows(cfg: Settings, s: System, p: Pass, i: nat)
    requires p.works == [] && i < |s.jobs| + |p.own|
    ensures View(cfg, s, p)[i] == if i < |s.jobs| then s.jobs[i] else p.own[i - |s.jobs|]
  {
  }

  lemma SelectingKeepsShape(cfg: Settings, s: System, p: nat, rows: seq<nat>)
    requires Shape(cfg, s) && Enabled(cfg, s, Select(p, rows))
    ensures Shape(cfg, Selecting(s, p, rows))
  {
    var pass := s.passes[p];
    var pass' := Selecting(s, p, rows).passes[p];
    forall k | 0 <= k < |rows| ensures WorkShape(s, pass', pass'.works[k]) {
      ReadingViewsRows(cfg, s, pass, rows[k]);
      if rows[k] >= |s.jobs| {
        assert IsNew(pass.own[rows[k] - |s.jobs|]);
      } else {
        assert AtRest(s.jobs[rows[k]]);
      }
    }
    PutKeepsShape(cfg, s, p, pass');
  }

  lemma ExecutingIsAddable(cfg: Settings, s: System, p: Pass, w: Work, answer: Answer)
    requires TableShape(cfg, s) && PassShape(cfg, s, p)
    ensures Addable(cfg, View(cfg, s, p), BackfillRows(View(cfg, s, p), BackfillOf(cfg, s, p, w, answer)))
  {
    var view := View(cfg, s, p);
    ViewKeys(cfg, s, p);
    if BackfillOf(cfg, s, p, w, answer).AlreadyThere? {
      assert view + [] == view;
    } else {
      BackfillIsAddable(cfg, view, w.selected.artist, STRONG, p.at);
    }
  }

  lemma MarkingKeepsWorks(s: System, p: Pass, k: nat, done: Done)
    requires WorksShape(s, p) && p.phase == Locked && k < |p.works| && done.outcome != Ends(MAX_ATTEMPTS)
    ensures WorksShape(s, p.(works := p.works[k := p.works[k].(done := Some(done))]))
  {
    var p' := p.(works := p.works[k := p.works[k].(done := Some(done))]);
    forall i | 0 <= i < |p'.works| ensures WorkShape(s, p', p'.works[i]) {
      assert WorkShape(s, p, p.works[i]);
    }
  }

  lemma ExecutedPassShape(cfg: Settings, s: System, p: nat, k: nat, answer: Answer)
    requires Shape(cfg, s) && Enabled(cfg, s, Execute(p, k, answer))
    ensures PassShape(cfg, s, Executing(cfg, s, p, k, answer).passes[p])
  {
    var pass := s.passes[p];
    var w := pass.works[k];
    var b := BackfillOf(cfg, s, pass, w, answer);
    var added := BackfillRows(View(cfg, s, pass), b);
    ExecutingIsAddable(cfg, s, pass, w, answer);
    InsertingKeepsOwn(cfg, s, pass, added);
    InsertingKeepsWorks(s, pass, added);
    MarkingKeepsWorks(s, pass.(own := pass.own + added), k, DoneOf(w, answer, b));
  }

  lemma ExecutingKeepsShape(cfg: Settings, s: System, p: nat, k: nat, answer: Answer)
    requires Shape(cfg, s) && Enabled(cfg, s, Execute(p, k, answer))
    ensures Shape(cfg, Executing(cfg, s, p, k, answer))
  {
    var pass' := Executing(cfg, s, p, k, answer).passes[p];
    var added := BackfillRows(View(cfg, s, s.passes[p]), BackfillOf(cfg, s, s.passes[p], s.passes[p].works[k], answer));
    ExecutedPassShape(cfg, s, p, k, answer);
    forall q | 0 <= q < |s.passes| && q != p && s.passes[q].open
      ensures Apart(pass', s.passes[q]) && Apart(s.passes[q], pass')
    {
      InsertingStaysApart(s, p, q, added);
    }
    PutKeepsShape(cfg, s, p, pass');
  }

  lemma ViewWindows(cfg: Settings, s: System, p: Pass)
    requires TableShape(cfg, s) && PassShape(cfg, s, p)
    ensures WindowsTrue(cfg, View(cfg, s, p))
  {
    var view := View(cfg, s, p);
    ViewRows(cfg, s, p);
    forall i | 0 <= i < |view| ensures WindowTrue(cfg, view[i]) {
      if i < |s.jobs| {
        assert WindowTrue(cfg, s.jobs[i]);
      } else {
        assert WindowTrue(cfg, p.own[i - |s.jobs|]);
        assert SameIdentity(view[|s.jobs| + (i - |s.jobs|)], p.own[i - |s.jobs|]);
      }
    }
  }

  lemma CommittedRowRests(cfg: Settings, s: System, p: Pass, mine: bool, i: nat, row: Job)
    requires WorksShape(s, p) && AtRest(row) && forall k :: 0 <= k < |p.works| ==> p.works[k].done.Some?
    requires if mine then i < |p.own| && row == p.own[i] else i < |s.jobs| && row == s.jobs[i]
    ensures AtRest(RowNow(cfg, p, mine, i, row))
  {
    var k := WorkOn(p.works, mine, i);
    if k < |p.works| {
      assert WorkShape(s, p, p.works[k]);
      WrittenRow(cfg, p, p.works[k], row);
    }
  }

  lemma CommittedRests(cfg: Settings, s: System, p: Pass, j: nat)
    requires WorksShape(s, p) && forall k :: 0 <= k < |p.works| ==> p.works[k].done.Some?
    requires forall i :: 0 <= i < |s.jobs| ==> AtRest(s.jobs[i])
    requires forall i :: 0 <= i < |p.own| ==> IsNew(p.own[i])
    requires j < |s.jobs| + |p.own|
    ensures AtRest(View(cfg, s, p)[j])
  {
    if j < |s.jobs| {
      CommittedRowRests(cfg, s, p, false, j, s.jobs[j]);
    } else {
      CommittedRowRests(cfg, s, p, true, j - |s.jobs|, p.own[j - |s.jobs|]);
    }
  }

  lemma CommittedTable(cfg: Settings, s: System, p: Pass)
    requires TableShape(cfg, s) && PassShape(cfg, s, p)
    requires forall k :: 0 <= k < |p.works| ==> p.works[k].done.Some?
    ensures var jobs := View(cfg, s, p);
            && UniqueKeys(jobs) && WindowsTrue(cfg, jobs)
            && forall j :: 0 <= j < |jobs| ==> AtRest(jobs[j])
  {
    ViewKeys(cfg, s, p);
    ViewWindows(cfg, s, p);
    forall j | 0 <= j < |View(cfg, s, p)| ensures AtRest(View(cfg, s, p)[j]) {
      CommittedRests(cfg, s, p, j);
    }
  }

  // What a commit means for a pass that stays open.
  lemma CommitKeepsOthers(cfg: Settings, s: System, p: nat, q: nat)
    requires Shape(cfg, s) && IsOpen(s, p) && IsOpen(s, q) && p != q
    ensures PassShape(cfg, Committing(cfg, s, p), s.passes[q])
  {
    var s' := Committing(cfg, s, p);
    var pass, other := s.passes[p], s.passes[q];
    ViewKeys(cfg, s, pass);
    ViewRows(cfg, s, pass);
    forall i | 0 <= i < |other.own| ensures !HasKey(s'.jobs, other.own[i].key) {
      assert Apart(other, pass);
      assert !HasKey(s.jobs, other.own[i].key);
    }
    forall k | 0 <= k < |other.works| ensures WorkShape(s', other, other.works[k]) {
      assert WorkShape(s, other, other.works[k]);
    }
  }

  lemma CommittingKeepsShape(cfg: Settings, s: System, p: nat)
    requires Shape(cfg, s) && Enabled(cfg, s, Commit(p))
    ensures Shape(cfg, Committing(cfg, s, p))
  {
    var s' := Committing(cfg, s, p);
    CommittedTable(cfg, s, s.passes[p]);
    forall q | 0 <= q < |s'.passes| && s'.passes[q].open ensures PassShape(cfg, s', s'.passes[q]) {
      CommitKeepsOthers(cfg, s, p, q);
    }
  }

  lemma DiscoveringKeepsOthers(cfg: Settings, s: System, artist: string, priority: int, at: int, q: nat)
    requires Shape(cfg, s) && IsOpen(s, q) && !HasKey(s.passes[q].own, Once(artist))
    ensures PassShape(cfg, Discovering(s, artist, priority, at), s.passes[q])
  {
    var s' := Discovering(s, artist, priority, at);
    var other := s.passes[q];
    if Discover(s.jobs, artist, priority, at).Queued? {
      var job := NewJob(Once(artist), artist, IdentityDiscovery, priority, at);
      KeysOfConcat(s.jobs, [job]);
      forall i | 0 <= i < |other.own| ensures !HasKey(s'.jobs, other.own[i].key) {
        assert !HasKey(s.jobs, other.own[i].key);
        assert !HasKey([job], other.own[i].key);
      }
      forall k | 0 <= k < |other.works| ensures WorkShape(s', other, other.works[k]) {
        assert WorkShape(s, other, other.works[k]);
      }
    }
  }

  lemma DiscoveringKeepsShape(cfg: Settings, s: System, artist: string, priority: int, at: int)
    requires Shape(cfg, s) && Enabled(cfg, s, QueueDiscovery(artist, priority, at))
    ensures Shape(cfg, Discovering(s, artist, priority, at))
  {
    var s' := Discovering(s, artist, priority, at);
    if Discover(s.jobs, artist, priority, at).Queued? {
      DiscoverKeepsTable(cfg, s.jobs, artist, priority, at);
      forall q | 0 <= q < |s'.passes| && s'.passes[q].open ensures PassShape(cfg, s', s'.passes[q]) {
        DiscoveringKeepsOthers(cfg, s, artist, priority, at, q);
      }
    }
  }

  lemma BeginKeepsShape(cfg: Settings, s: System, at: int, worker: string)
    requires Shape(cfg, s)
    ensures Shape(cfg, s.(passes := s.passes + [Pass(at, worker, [], [], Reading, true)]))
  {
    var s' := s.(passes := s.passes + [Pass(at, worker, [], [], Reading, true)]);
    forall q | 0 <= q < |s'.passes| && s'.passes[q].open ensures PassShape(cfg, s', s'.passes[q]) {
      if q < |s.passes| {
        SameTableSameShape(cfg, s, s', s.passes[q]);
      }
    }
  }

  lemma LockKeepsShape(cfg: Settings, s: System, p: nat)
    requires Shape(cfg, s) && IsOpen(s, p) && s.passes[p].phase == Selected
    ensures Shape(cfg, Put(s, p, s.passes[p].(phase := Locked)))
  {
    var pass := s.passes[p].(phase := Locked);
    forall k | 0 <= k < |pass.works| ensures WorkShape(s, pass, pass.works[k]) {
      assert WorkShape(s, s.passes[p], s.passes[p].works[k]);
    }
    PutKeepsShape(cfg, s, p, pass);
  }

  lemma StepKeepsShape(cfg: Settings, s: System, step: Step)
    requires Shape(cfg, s) && Enabled(cfg, s, step)
    ensures Shape(cfg, Next(cfg, s, step))
  {
    match step
    case QueueDiscovery(artist, priority, at) => DiscoveringKeepsShape(cfg, s, artist, priority, at);
    case Begin(at, worker) => BeginKeepsShape(cfg, s, at, worker);
    case EnqueueDueWork(p, ids, paused) =>
      var view := View(cfg, s, s.passes[p]);
      ViewKeys(cfg, s, s.passes[p]);
      DueIsAddable(cfg, view, ids, paused, s.passes[p].at);
      var done := DueOf(cfg, s, s.passes[p], ids, paused);
      InsertedKeepsShape(cfg, s, p, done, NewRows(view, done));
    case QueueReattempts(p, us, registry, paused) =>
      var view := View(cfg, s, s.passes[p]);
      ViewKeys(cfg, s, s.passes[p]);
      ReattemptsAreAddable(cfg, view, us, registry, paused, s.passes[p].at);
      var done := ReattemptsOf(cfg, s, s.passes[p], us, registry, paused);
      InsertedKeepsShape(cfg, s, p, done, NewRows(view, done));
    case Select(p, rows) => SelectingKeepsShape(cfg, s, p, rows);
    case Lock(p) => LockKeepsShape(cfg, s, p);
    case Execute(p, k, answer) => ExecutingKeepsShape(cfg, s, p, k, answer);
    case Commit(p) => CommittingKeepsShape(cfg, s, p);
    case RollBack(p) => PutKeepsShape(cfg, s, p, s.passes[p].(open := false));
  }

  /**
   * Every run, however its passes overlap: one row per dedup key, windows that match their creation time,
   * and no committed row RUNNING or leased, so that the lease a claim stamps is never seen by another
   * pass and its expiry never matters.
   */
  lemma {:induction false} NoLeaseIsEverSeen(cfg: Settings, s: System, steps: seq<Step>)
    requires Shape(cfg, s) && Valid(cfg, s, steps)
    ensures Shape(cfg, After(cfg, s, steps))
    ensures forall j :: 0 <= j < |After(cfg, s, steps).jobs| ==> AtRest(After(cfg, s, steps).jobs[j])
    decreases |steps|
  {
    if steps != [] {
      StepKeepsShape(cfg, s, steps[0]);
      NoLeaseIsEverSeen(cfg, Next(cfg, s, steps[0]), steps[1..]);
    }
  }

  /** The windowed bound, over whole runs: no interleaving of enqueues commits more jobs than windows. */
  lemma JobsPerSpanAreBounded(cfg: Settings, steps: seq<Step>, artist: string, t: JobType, from: int, to: int)
    requires Valid(cfg, START, steps) && from <= to
    ensures var interval := AtLeast(Interval(cfg, t), 1);
            JobsInSpan(After(cfg, START, steps).jobs, artist, t, from, to) <= (to - from + interval - 1) / interval + 1
  {
    NoLeaseIsEverSeen(cfg, START, steps);
    EnqueueIsBounded(cfg, After(cfg, START, steps).jobs, artist, t, from, to);
  }

  lemma ViewRaisesExactlyWhenTwoWindows(cfg: Settings, s: System, p: Pass, artist: string)
    requires TableShape(cfg, s) && PassShape(cfg, s, p)
    ensures Backfill(cfg, View(cfg, s, p), artist, STRONG, p.at) == MultipleRows <==> TwoWindows(View(cfg, s, p), artist)
  {
    ViewKeys(cfg, s, p);
    ViewWindows(cfg, s, p);
    BackfillRaisesExactlyWhenTwoWindows(cfg, View(cfg, s, p), artist, STRONG, p.at);
  }

  lemma ResolvedOutcome(cfg: Settings, s: System, p: Pass, w: Work)
    requires w.selected.jobType == IdentityDiscovery
    ensures DoneOf(w, Replied(RESOLVED), BackfillOf(cfg, s, p, w, Replied(RESOLVED))).outcome == Fails
       <==> Backfill(cfg, View(cfg, s, p), w.selected.artist, STRONG, p.at) == MultipleRows
  {
  }

  /**
   * In every run, an identity job that resolved is counted as failed exactly when its pass sees unfinished
   * catalogue jobs of that artist from two different windows.
   */
  lemma ResolvedFailsExactlyWhenTwoWindows(cfg: Settings, steps: seq<Step>, p: nat, k: nat)
    requires Valid(cfg, START, steps)
    requires var s := After(cfg, START, steps);
             && IsOpen(s, p) && k < |s.passes[p].works| && s.passes[p].works[k].selected.jobType == IdentityDiscovery
    ensures var s := After(cfg, START, steps);
            var pass, w := s.passes[p], s.passes[p].works[k];
            DoneOf(w, Replied(RESOLVED), BackfillOf(cfg, s, pass, w, Replied(RESOLVED))).outcome == Fails
            <==> TwoWindows(View(cfg, s, pass), w.selected.artist)
  {
    NoLeaseIsEverSeen(cfg, START, steps);
    var s := After(cfg, START, steps);
    var w := s.passes[p].works[k];
    ViewRaisesExactlyWhenTwoWindows(cfg, s, s.passes[p], w.selected.artist);
    ResolvedOutcome(cfg, s, s.passes[p], w);
  }
}
