/**
 * Enqueueing demand refresh work: once per artist, job type and cadence window.
 *
 * Sessions do not autoflush, so the existence checks of one `enqueue_due` pass see the rows that were
 * there before the pass; the unique index on the dedup key is what catches a duplicate within it.
 */
module DemandEnqueue {
  import opened Options
  import opened DemandJobs

  // A RESOLVED channel identity, with the priority computed for its artist.
  datatype Resolved = Resolved(artist: string, priority: int)

  const RECURRING := [ChannelSnapshot, VideoSnapshot, CatalogueBackfill]

  function Interval(cfg: Settings, t: JobType): int {
    match t
    case ChannelSnapshot => cfg.channelInterval
    case VideoSnapshot => cfg.videoInterval
    case _ => cfg.catalogueInterval
  }

  function Window(now: int, interval: int): int {
    now / AtLeast(interval, 1)
  }

  function KeyFor(cfg: Settings, artist: string, t: JobType, now: int): Key {
    Windowed(artist, t, Window(now, Interval(cfg, t)))
  }

  // ---- The table ----------------------------------------------------------------------------------------

  predicate HasKey(jobs: seq<Job>, key: Key) {
    exists i :: 0 <= i < |jobs| && jobs[i].key == key
  }

  predicate UniqueKeys(jobs: seq<Job>) {
    forall i, j :: 0 <= i < j < |jobs| ==> jobs[i].key != jobs[j].key
  }

  predicate IsActive(j: Job) {
    j.status == PENDING || j.status == RUNNING || j.status == FAILED_RETRYABLE
  }

  function ActiveRows(jobs: seq<Job>, artist: string, t: JobType): nat
    decreases |jobs|
  {
    if jobs == [] then 0
    else
      var last := jobs[|jobs| - 1];
      ActiveRows(jobs[..|jobs| - 1], artist, t)
      + if last.artist == artist && last.jobType == t && IsActive(last) then 1 else 0
  }

  // ---- enqueue_due -----------------------------------------------------------------------------------------

  function Wanted(cfg: Settings, flushed: seq<Job>, id: Resolved, types: seq<JobType>, now: int): seq<Job>
    decreases |types|
  {
    if types == [] then []
    else
      var before := Wanted(cfg, flushed, id, types[..|types| - 1], now);
      var t := types[|types| - 1];
      var key := KeyFor(cfg, id.artist, t, now);
      if HasKey(flushed, key) then before else before + [NewJob(key, id.artist, t, id.priority, now)]
  }

  function Added(cfg: Settings, flushed: seq<Job>, ids: seq<Resolved>, paused: set<string>, now: int): seq<Job>
    decreases |ids|
  {
    if ids == [] then []
    else
      var id := ids[|ids| - 1];
      var before := Added(cfg, flushed, ids[..|ids| - 1], paused, now);
      if id.artist in paused then before else before + Wanted(cfg, flushed, id, RECURRING, now)
  }

  datatype Enqueued = Flushed(jobs: seq<Job>, created: nat) | IntegrityError | TooManyRows

  function EnqueueDue(cfg: Settings, jobs: seq<Job>, ids: seq<Resolved>, paused: set<string>, now: int): Enqueued {
    var added := Added(cfg, jobs, ids, paused, now);
    if UniqueKeys(jobs + added) then Flushed(jobs + added, |added|) else IntegrityError
  }

  // ---- enqueue_catalogue_backfill ---------------------------------------------------------------------------

  datatype Backfilled = Queued(jobs: seq<Job>) | AlreadyThere | MultipleRows

  // `_active_exists` asks for at most one row and raises when there are several.
  function Backfill(cfg: Settings, jobs: seq<Job>, artist: string, priority: int, now: int): Backfilled {
    var active := ActiveRows(jobs, artist, CatalogueBackfill);
    var key := KeyFor(cfg, artist, CatalogueBackfill, now);
    if active > 1 then MultipleRows
    else if active == 1 || HasKey(jobs, key) then AlreadyThere
    else Queued(jobs + [NewJob(key, artist, CatalogueBackfill, priority, now)])
  }

  // ---- enqueue_identity_discovery and enqueue_identity_reattempts ---------------------------------------------

  function Discover(jobs: seq<Job>, artist: string, priority: int, now: int): Backfilled {
    var active := ActiveRows(jobs, artist, IdentityDiscovery);
    if active > 1 then MultipleRows
    else if active == 1 || HasKey(jobs, Once(artist)) then AlreadyThere
    else Queued(jobs + [NewJob(Once(artist), artist, IdentityDiscovery, priority, now)])
  }

  // An AMBIGUOUS or UNRESOLVED channel identity.
  datatype Unsettled = Unsettled(artist: string, ambiguous: bool, priority: int)

  function ReattemptKey(cfg: Settings, u: Unsettled, now: int): Key {
    Reattempt(u.artist, Window(now, if u.ambiguous then cfg.ambiguousInterval else cfg.unresolvedInterval))
  }

  predicate Eligible(u: Unsettled, valid: set<string>, paused: set<string>) {
    u.artist in valid && u.artist !in paused
  }

  function Reattempted(cfg: Settings, flushed: seq<Job>, us: seq<Unsettled>, valid: set<string>, paused: set<string>,
                       now: int): seq<Job>
    decreases |us|
  {
    if us == [] then []
    else
      var u := us[|us| - 1];
      var before := Reattempted(cfg, flushed, us[..|us| - 1], valid, paused, now);
      if Eligible(u, valid, paused) && ActiveRows(flushed, u.artist, IdentityDiscovery) == 0
         && !HasKey(flushed, ReattemptKey(cfg, u, now))
      then before + [NewJob(ReattemptKey(cfg, u, now), u.artist, IdentityDiscovery, u.priority, now)] else before
  }

  // Some eligible artist has several active identity jobs: the existence check raises.
  predicate Crowded(jobs: seq<Job>, us: seq<Unsettled>, valid: set<string>, paused: set<string>) {
    exists i :: 0 <= i < |us| && Eligible(us[i], valid, paused) && ActiveRows(jobs, us[i].artist, IdentityDiscovery) > 1
  }

  // `registry` is the set of registered artists, or nothing when the registry is down.
  function EnqueueReattempts(cfg: Settings, jobs: seq<Job>, us: seq<Unsettled>, registry: Option<set<string>>,
                             paused: set<string>, now: int): Enqueued
  {
    if us == [] || registry.None? then Flushed(jobs, 0)
    else if Crowded(jobs, us, registry.value, paused) then TooManyRows
    else
      var added := Reattempted(cfg, jobs, us, registry.value, paused, now);
      if UniqueKeys(jobs + added) then Flushed(jobs + added, |added|) else IntegrityError
  }

  lemma {:induction false} ReattemptRows(cfg: Settings, flushed: seq<Job>, us: seq<Unsettled>, valid: set<string>,
                                         paused: set<string>, now: int)
    ensures forall j :: j in Reattempted(cfg, flushed, us, valid, paused, now) ==>
              && j == NewJob(j.key, j.artist, IdentityDiscovery, j.priority, now)
              && j.key.Reattempt? && j.key.artist == j.artist && !HasKey(flushed, j.key)
              && j.artist in valid && j.artist !in paused && ActiveRows(flushed, j.artist, IdentityDiscovery) == 0
    decreases |us|
  {
    if us != [] {
      ReattemptRows(cfg, flushed, us[..|us| - 1], valid, paused, now);
    }
  }

  /**
   * Re-attempts fail closed: a row is added only for an artist the registry names, that is not paused and
   * has no identity job under way; with the registry down nothing is.
   */
  lemma ReattemptsFailClosed(cfg: Settings, jobs: seq<Job>, us: seq<Unsettled>, registry: Option<set<string>>,
                             paused: set<string>, now: int, k: nat)
    requires EnqueueReattempts(cfg, jobs, us, registry, paused, now).Flushed?
    requires |jobs| <= k < |EnqueueReattempts(cfg, jobs, us, registry, paused, now).jobs|
    ensures var j := EnqueueReattempts(cfg, jobs, us, registry, paused, now).jobs[k];
            && registry.Some? && j.artist in registry.value && j.artist !in paused
            && ActiveRows(jobs, j.artist, IdentityDiscovery) == 0
            && j == NewJob(j.key, j.artist, IdentityDiscovery, j.priority, now) && j.key.Reattempt?
  {
    var added := Reattempted(cfg, jobs, us, registry.value, paused, now);
    ReattemptRows(cfg, jobs, us, registry.value, paused, now);
    assert (jobs + added)[k] in added;
  }

  /**
   * A discovery job is queued once for all, not once while one is active: its key carries no window, so no
   * table that kept the row takes another, whatever became of the first.
   */
  lemma DiscoveryIsOnceForAll(jobs: seq<Job>, artist: string, priority: int, now: int, later: seq<Job>,
                              priority2: int, again: int)
    requires Discover(jobs, artist, priority, now).Queued?
    requires forall key :: HasKey(Discover(jobs, artist, priority, now).jobs, key) ==> HasKey(later, key)
    ensures !Discover(later, artist, priority2, again).Queued?
  {
    var queued := [NewJob(Once(artist), artist, IdentityDiscovery, priority, now)];
    assert queued[0].key == Once(artist);
    KeyInConcat(jobs, queued, Once(artist));
  }

  // ---- What a pass adds ----------------------------------------------------------------------------------------

  ghost predicate WantedFor(cfg: Settings, flushed: seq<Job>, ids: seq<Resolved>, paused: set<string>, now: int,
                            artist: string, t: JobType)
  {
    && t in RECURRING && artist !in paused && !HasKey(flushed, KeyFor(cfg, artist, t, now))
    && exists i :: 0 <= i < |ids| && ids[i].artist == artist
  }

  lemma {:induction false} WantedRows(cfg: Settings, flushed: seq<Job>, id: Resolved, types: seq<JobType>, now: int)
    ensures forall j :: j in Wanted(cfg, flushed, id, types, now) ==>
                          && j.jobType in types && !HasKey(flushed, j.key)
                          && j == NewJob(KeyFor(cfg, id.artist, j.jobType, now), id.artist, j.jobType, id.priority, now)
    ensures forall t :: t in types && !HasKey(flushed, KeyFor(cfg, id.artist, t, now)) ==>
                          NewJob(KeyFor(cfg, id.artist, t, now), id.artist, t, id.priority, now)
                          in Wanted(cfg, flushed, id, types, now)
    decreases |types|
  {
    if types != [] {
      var last := |types| - 1;
      WantedRows(cfg, flushed, id, types[..last], now);
      assert types == types[..last] + [types[last]];
    }
  }

  lemma {:induction false} WantedKeysDiffer(cfg: Settings, flushed: seq<Job>, id: Resolved, types: seq<JobType>, now: int)
    requires forall i, j :: 0 <= i < j < |types| ==> types[i] != types[j]
    ensures UniqueKeys(Wanted(cfg, flushed, id, types, now))
    decreases |types|
  {
    if types != [] {
      var last := |types| - 1;
      WantedKeysDiffer(cfg, flushed, id, types[..last], now);
      WantedRows(cfg, flushed, id, types[..last], now);
    }
  }

  lemma {:induction false} AddedRows(cfg: Settings, flushed: seq<Job>, ids: seq<Resolved>, paused: set<string>, now: int)
    ensures forall j :: j in Added(cfg, flushed, ids, paused, now) ==>
                          && WantedFor(cfg, flushed, ids, paused, now, j.artist, j.jobType)
                          && j == NewJob(KeyFor(cfg, j.artist, j.jobType, now), j.artist, j.jobType, j.priority, now)
    decreases |ids|
  {
    if ids != [] {
      var last := |ids| - 1;
      var id := ids[last];
      AddedRows(cfg, flushed, ids[..last], paused, now);
      WantedRows(cfg, flushed, id, RECURRING, now);
      var before := Added(cfg, flushed, ids[..last], paused, now);
      forall j | j in Added(cfg, flushed, ids, paused, now)
        ensures WantedFor(cfg, flushed, ids, paused, now, j.artist, j.jobType)
        ensures j == NewJob(KeyFor(cfg, j.artist, j.jobType, now), j.artist, j.jobType, j.priority, now)
      {
        if j in before {
          var i :| 0 <= i < |ids[..last]| && ids[..last][i].artist == j.artist;
          assert ids[i].artist == j.artist;
        } else {
          assert ids[last].artist == j.artist;
        }
      }
    }
  }

  /** A paused artist gets nothing, and a second pass in the same windows adds nothing. */
  lemma PausedGetNothing(cfg: Settings, jobs: seq<Job>, ids: seq<Resolved>, paused: set<string>, now: int, artist: string)
    requires artist in paused
    ensures forall j :: j in Added(cfg, jobs, ids, paused, now) ==> j.artist != artist
  {
    AddedRows(cfg, jobs, ids, paused, now);
  }

  // Two identities of one artist that are both due would write one key twice.
  ghost predicate SharedDue(cfg: Settings, jobs: seq<Job>, ids: seq<Resolved>, paused: set<string>, now: int) {
    exists i, j, t :: 0 <= i < j < |ids| && ids[i].artist == ids[j].artist && ids[i].artist !in paused
                      && t in RECURRING && !HasKey(jobs, KeyFor(cfg, ids[i].artist, t, now))
  }

  lemma JoinUnique(a: seq<Job>, b: seq<Job>)
    requires UniqueKeys(a) && UniqueKeys(b)
    requires forall j :: j in b ==> !HasKey(a, j.key)
    ensures UniqueKeys(a + b)
  {
    forall i, j | 0 <= i < j < |a + b| ensures (a + b)[i].key != (a + b)[j].key {
      if i < |a| <= j {
        assert (a + b)[j] in b;
        assert a[i].key == (a + b)[i].key;
      }
    }
  }

  lemma {:induction false} AddedKeysDiffer(cfg: Settings, jobs: seq<Job>, ids: seq<Resolved>, paused: set<string>, now: int)
    requires !SharedDue(cfg, jobs, ids, paused, now)
    ensures UniqueKeys(Added(cfg, jobs, ids, paused, now))
    decreases |ids|
  {
    if ids != [] {
      var last := |ids| - 1;
      var id := ids[last];
      assert !SharedDue(cfg, jobs, ids[..last], paused, now) by {
        assert forall i :: 0 <= i < last ==> ids[..last][i] == ids[i];
      }
      AddedKeysDiffer(cfg, jobs, ids[..last], paused, now);
      if id.artist !in paused {
        var before := Added(cfg, jobs, ids[..last], paused, now);
        var wanted := Wanted(cfg, jobs, id, RECURRING, now);
        AddedRows(cfg, jobs, ids[..last], paused, now);
        WantedRows(cfg, jobs, id, RECURRING, now);
        WantedKeysDiffer(cfg, jobs, id, RECURRING, now);
        forall j | j in wanted ensures !HasKey(before, j.key) {
          forall k | 0 <= k < |before| ensures before[k].key != j.key {
            assert before[k] in before;
          }
        }
        JoinUnique(before, wanted);
      }
    }
  }

  lemma RepeatedAcross(a: seq<Job>, b: seq<Job>, key: Key)
    requires HasKey(a, key) && HasKey(b, key)
    ensures !UniqueKeys(a + b)
  {
    var i :| 0 <= i < |a| && a[i].key == key;
    var j :| 0 <= j < |b| && b[j].key == key;
    assert (a + b)[i].key == (a + b)[|a| + j].key;
  }

  lemma RepeatedBefore(a: seq<Job>, b: seq<Job>)
    requires !UniqueKeys(a)
    ensures !UniqueKeys(a + b)
  {
    var i, j :| 0 <= i < j < |a| && a[i].key == a[j].key;
    assert (a + b)[i].key == (a + b)[j].key;
  }

  lemma WantedHasKey(cfg: Settings, flushed: seq<Job>, id: Resolved, t: JobType, now: int)
    requires t in RECURRING && !HasKey(flushed, KeyFor(cfg, id.artist, t, now))
    ensures HasKey(Wanted(cfg, flushed, id, RECURRING, now), KeyFor(cfg, id.artist, t, now))
  {
    WantedRows(cfg, flushed, id, RECURRING, now);
    var wanted := Wanted(cfg, flushed, id, RECURRING, now);
    var k :| 0 <= k < |wanted| && wanted[k] == NewJob(KeyFor(cfg, id.artist, t, now), id.artist, t, id.priority, now);
    assert wanted[k].key == KeyFor(cfg, id.artist, t, now);
  }

  lemma KeyInConcat(a: seq<Job>, b: seq<Job>, key: Key)
    requires HasKey(a, key) || HasKey(b, key)
    ensures HasKey(a + b, key)
  {
    if HasKey(a, key) {
      var k :| 0 <= k < |a| && a[k].key == key;
      assert (a + b)[k].key == key;
    } else {
      var k :| 0 <= k < |b| && b[k].key == key;
      assert (a + b)[|a| + k].key == key;
    }
  }

  lemma {:induction false} AddedHasEveryWanted(cfg: Settings, jobs: seq<Job>, ids: seq<Resolved>, paused: set<string>,
                                               now: int, i: nat, t: JobType)
    requires i < |ids| && ids[i].artist !in paused && t in RECURRING
    requires !HasKey(jobs, KeyFor(cfg, ids[i].artist, t, now))
    ensures HasKey(Added(cfg, jobs, ids, paused, now), KeyFor(cfg, ids[i].artist, t, now))
    decreases |ids|
  {
    var last := |ids| - 1;
    var before := Added(cfg, jobs, ids[..last], paused, now);
    var wanted := Wanted(cfg, jobs, ids[last], RECURRING, now);
    if i < last {
      AddedHasEveryWanted(cfg, jobs, ids[..last], paused, now, i, t);
    } else {
      WantedHasKey(cfg, jobs, ids[i], t, now);
    }
    KeyInConcat(before, wanted, KeyFor(cfg, ids[i].artist, t, now));
  }

  lemma {:induction false} SharedKeyRepeats(cfg: Settings, jobs: seq<Job>, ids: seq<Resolved>, paused: set<string>, now: int,
                                            i: nat, j: nat, t: JobType)
    requires i < j < |ids| && ids[i].artist == ids[j].artist && ids[i].artist !in paused && t in RECURRING
    requires !HasKey(jobs, KeyFor(cfg, ids[i].artist, t, now))
    ensures !UniqueKeys(Added(cfg, jobs, ids, paused, now))
    decreases |ids|
  {
    var last := |ids| - 1;
    var before := Added(cfg, jobs, ids[..last], paused, now);
    var wanted := Wanted(cfg, jobs, ids[last], RECURRING, now);
    assert Added(cfg, jobs, ids, paused, now) == if ids[last].artist in paused then before else before + wanted;
    if j < last {
      SharedKeyRepeats(cfg, jobs, ids[..last], paused, now, i, j, t);
      RepeatedBefore(before, wanted);
    } else {
      AddedHasEveryWanted(cfg, jobs, ids[..last], paused, now, i, t);
      WantedHasKey(cfg, jobs, ids[last], t, now);
      RepeatedAcross(before, wanted, KeyFor(cfg, ids[i].artist, t, now));
    }
  }

  /**
   * A pass goes through, keeping the dedup keys unique, exactly when no unpaused artist has two
   * RESOLVED channels with work missing in the current window; otherwise the flush fails.
   */
  lemma PassFlushesExactlyWhen(cfg: Settings, jobs: seq<Job>, ids: seq<Resolved>, paused: set<string>, now: int)
    requires UniqueKeys(jobs)
    ensures EnqueueDue(cfg, jobs, ids, paused, now).Flushed? <==> !SharedDue(cfg, jobs, ids, paused, now)
  {
    var added := Added(cfg, jobs, ids, paused, now);
    if SharedDue(cfg, jobs, ids, paused, now) {
      var i, j, t :| 0 <= i < j < |ids| && ids[i].artist == ids[j].artist && ids[i].artist !in paused
                     && t in RECURRING && !HasKey(jobs, KeyFor(cfg, ids[i].artist, t, now));
      SharedKeyRepeats(cfg, jobs, ids, paused, now, i, j, t);
      var a, b :| 0 <= a < b < |added| && added[a].key == added[b].key;
      assert (jobs + added)[|jobs| + a].key == (jobs + added)[|jobs| + b].key;
    } else {
      AddedKeysDiffer(cfg, jobs, ids, paused, now);
      AddedRows(cfg, jobs, ids, paused, now);
      JoinUnique(jobs, added);
    }
  }

  ghost predicate SameWindows(cfg: Settings, a: int, b: int) {
    forall t :: t in RECURRING ==> Window(a, Interval(cfg, t)) == Window(b, Interval(cfg, t))
  }

  /** Repeating a pass inside the same windows, over any table that kept its rows, creates nothing. */
  lemma RepeatCreatesNothing(cfg: Settings, jobs: seq<Job>, ids: seq<Resolved>, paused: set<string>, now: int,
                             later: seq<Job>, pausedLater: set<string>, again: int)
    requires EnqueueDue(cfg, jobs, ids, paused, now).Flushed? && SameWindows(cfg, now, again)
    requires forall key :: HasKey(EnqueueDue(cfg, jobs, ids, paused, now).jobs, key) ==> HasKey(later, key)
    requires paused <= pausedLater
    ensures Added(cfg, later, ids, pausedLater, again) == []
  {
    var added := Added(cfg, later, ids, pausedLater, again);
    if added != [] {
      AddedRows(cfg, later, ids, pausedLater, again);
      var j := added[0];
      assert j in added;
      var i :| 0 <= i < |ids| && ids[i].artist == j.artist;
      KeyIsThereAfterwards(cfg, jobs, ids, paused, now, i, j.jobType);
    }
  }

  lemma KeyIsThereAfterwards(cfg: Settings, jobs: seq<Job>, ids: seq<Resolved>, paused: set<string>, now: int,
                             i: nat, t: JobType)
    requires i < |ids| && ids[i].artist !in paused && t in RECURRING
    ensures HasKey(jobs + Added(cfg, jobs, ids, paused, now), KeyFor(cfg, ids[i].artist, t, now))
  {
    var added := Added(cfg, jobs, ids, paused, now);
    var key := KeyFor(cfg, ids[i].artist, t, now);
    if !HasKey(jobs, key) {
      AddedHasEveryWanted(cfg, jobs, ids, paused, now, i, t);
    }
    KeyInConcat(jobs, added, key);
  }

  // ---- How many jobs a stretch of time can hold ---------------------------------------------------------------

  predicate InSpan(j: Job, artist: string, t: JobType, from: int, to: int) {
    j.key.Windowed? && j.key.artist == artist && j.key.jobType == t && from <= j.createdAt <= to
  }

  function JobsInSpan(jobs: seq<Job>, artist: string, t: JobType, from: int, to: int): nat
    decreases |jobs|
  {
    if jobs == [] then 0
    else JobsInSpan(jobs[..|jobs| - 1], artist, t, from, to)
         + if InSpan(jobs[|jobs| - 1], artist, t, from, to) then 1 else 0
  }

  // A key tells the truth: of a recurring job, its artist, its type and the window it was created in.
  ghost predicate WindowTrue(cfg: Settings, j: Job) {
    if j.key.Windowed? then j.key == KeyFor(cfg, j.artist, j.jobType, j.createdAt) else j.jobType == IdentityDiscovery
  }

  ghost predicate WindowsTrue(cfg: Settings, jobs: seq<Job>) {
    forall i :: 0 <= i < |jobs| ==> WindowTrue(cfg, jobs[i])
  }

  ghost function Windows(jobs: seq<Job>, artist: string, t: JobType, from: int, to: int): set<int> {
    set i | 0 <= i < |jobs| && InSpan(jobs[i], artist, t, from, to) :: jobs[i].key.window
  }

  lemma WindowsGrow(before: seq<Job>, last: Job, artist: string, t: JobType, from: int, to: int)
    ensures Windows(before + [last], artist, t, from, to)
         == Windows(before, artist, t, from, to) + if InSpan(last, artist, t, from, to) then {last.key.window} else {}
  {
    var jobs := before + [last];
    forall w | w in Windows(before, artist, t, from, to) ensures w in Windows(jobs, artist, t, from, to) {
      var i :| 0 <= i < |before| && InSpan(before[i], artist, t, from, to) && before[i].key.window == w;
      assert jobs[i] == before[i];
    }
    if InSpan(last, artist, t, from, to) {
      assert jobs[|before|] == last;
    }
  }

  lemma NewWindow(before: seq<Job>, last: Job, artist: string, t: JobType, from: int, to: int)
    requires UniqueKeys(before + [last]) && InSpan(last, artist, t, from, to)
    ensures last.key.window !in Windows(before, artist, t, from, to)
  {
    forall i | 0 <= i < |before| && InSpan(before[i], artist, t, from, to)
      ensures before[i].key.window != last.key.window
    {
      assert (before + [last])[i].key != (before + [last])[|before|].key;
    }
  }

  lemma {:induction false} OneJobPerWindow(jobs: seq<Job>, artist: string, t: JobType, from: int, to: int)
    requires UniqueKeys(jobs)
    ensures JobsInSpan(jobs, artist, t, from, to) == |Windows(jobs, artist, t, from, to)|
    decreases |jobs|
  {
    if jobs != [] {
      var before := jobs[..|jobs| - 1];
      var last := jobs[|jobs| - 1];
      OneJobPerWindow(before, artist, t, from, to);
      assert jobs == before + [last];
      WindowsGrow(before, last, artist, t, from, to);
      if InSpan(last, artist, t, from, to) {
        NewWindow(before, last, artist, t, from, to);
      }
    }
  }

  lemma {:induction false} RangeHolds(s: set<int>, lo: int, hi: int)
    requires forall x :: x in s ==> lo <= x <= hi
    ensures |s| <= AtLeast(hi - lo + 1, 0)
    decreases hi - lo
  {
    if lo > hi {
      assert forall x :: x !in s;
    } else {
      RangeHolds(s - {hi}, lo, hi - 1);
      if hi in s {
        assert s == (s - {hi}) + {hi};
      } else {
        assert s - {hi} == s;
      }
    }
  }

  lemma WindowsOfSpan(from: int, to: int, interval: int)
    requires from <= to && interval >= 1
    ensures to / interval - from / interval <= (to - from + interval - 1) / interval
  {
    var q, r := from / interval, from % interval;
    var q', r' := to / interval, to % interval;
    assert to - from == (q' - q) * interval + (r' - r);
    var up := (to - from + interval - 1) / interval;
    assert up * interval >= to - from;
    if q' - q > up {
      MoreIsLonger(q' - q, up, interval);
    }
  }

  lemma MoreIsLonger(a: int, b: int, k: int)
    requires a > b && k >= 1
    ensures a * k >= b * k + k
  {
    assert (a - b - 1) * k >= 0;
  }

  lemma WindowGrows(a: int, b: int, interval: int)
    requires a <= b && interval >= 1
    ensures a / interval <= b / interval
  {
    if a / interval > b / interval {
      MoreIsLonger(a / interval, b / interval, interval);
    }
  }

  /**
   * However often work is enqueued, a stretch of T seconds holds at most ceil(T / interval) + 1
   * recurring jobs per artist and job type.
   */
  lemma EnqueueIsBounded(cfg: Settings, jobs: seq<Job>, artist: string, t: JobType, from: int, to: int)
    requires UniqueKeys(jobs) && WindowsTrue(cfg, jobs) && from <= to
    ensures var interval := AtLeast(Interval(cfg, t), 1);
            JobsInSpan(jobs, artist, t, from, to) <= (to - from + interval - 1) / interval + 1
  {
    var interval := AtLeast(Interval(cfg, t), 1);
    OneJobPerWindow(jobs, artist, t, from, to);
    var windows := Windows(jobs, artist, t, from, to);
    forall w | w in windows ensures from / interval <= w <= to / interval {
      var i :| 0 <= i < |jobs| && InSpan(jobs[i], artist, t, from, to) && jobs[i].key.window == w;
      assert WindowTrue(cfg, jobs[i]);
      WindowGrows(from, jobs[i].createdAt, interval);
      WindowGrows(jobs[i].createdAt, to, interval);
    }
    RangeHolds(windows, from / interval, to / interval);
    WindowGrows(from, to, interval);
    WindowsOfSpan(from, to, interval);
  }

  // ---- Every enqueue keeps the table in shape -------------------------------------------------------------------

  lemma EnqueueKeepsTable(cfg: Settings, jobs: seq<Job>, ids: seq<Resolved>, paused: set<string>, now: int)
    requires UniqueKeys(jobs) && WindowsTrue(cfg, jobs)
    requires EnqueueDue(cfg, jobs, ids, paused, now).Flushed?
    ensures UniqueKeys(EnqueueDue(cfg, jobs, ids, paused, now).jobs)
    ensures WindowsTrue(cfg, EnqueueDue(cfg, jobs, ids, paused, now).jobs)
  {
    var added := Added(cfg, jobs, ids, paused, now);
    AddedRows(cfg, jobs, ids, paused, now);
    forall i | 0 <= i < |jobs + added| ensures WindowTrue(cfg, (jobs + added)[i]) {
      if i >= |jobs| {
        assert (jobs + added)[i] in added;
      }
    }
  }

  lemma AppendKeepsTable(cfg: Settings, jobs: seq<Job>, job: Job)
    requires UniqueKeys(jobs) && WindowsTrue(cfg, jobs) && !HasKey(jobs, job.key) && WindowTrue(cfg, job)
    ensures UniqueKeys(jobs + [job]) && WindowsTrue(cfg, jobs + [job])
  {
    JoinUnique(jobs, [job]);
  }

  lemma BackfillKeepsTable(cfg: Settings, jobs: seq<Job>, artist: string, priority: int, now: int)
    requires UniqueKeys(jobs) && WindowsTrue(cfg, jobs)
    requires Backfill(cfg, jobs, artist, priority, now).Queued?
    ensures UniqueKeys(Backfill(cfg, jobs, artist, priority, now).jobs)
    ensures WindowsTrue(cfg, Backfill(cfg, jobs, artist, priority, now).jobs)
  {
    AppendKeepsTable(cfg, jobs, NewJob(KeyFor(cfg, artist, CatalogueBackfill, now), artist, CatalogueBackfill, priority, now));
  }

  lemma DiscoverKeepsTable(cfg: Settings, jobs: seq<Job>, artist: string, priority: int, now: int)
    requires UniqueKeys(jobs) && WindowsTrue(cfg, jobs) && Discover(jobs, artist, priority, now).Queued?
    ensures UniqueKeys(Discover(jobs, artist, priority, now).jobs)
    ensures WindowsTrue(cfg, Discover(jobs, artist, priority, now).jobs)
  {
    AppendKeepsTable(cfg, jobs, NewJob(Once(artist), artist, IdentityDiscovery, priority, now));
  }

  /** A queued backfill is the artist's one active catalogue job. */
  lemma BackfillIsTheOnlyOne(cfg: Settings, jobs: seq<Job>, artist: string, priority: int, now: int)
    requires Backfill(cfg, jobs, artist, priority, now).Queued?
    ensures ActiveRows(Backfill(cfg, jobs, artist, priority, now).jobs, artist, CatalogueBackfill) == 1
  {
    AppendActive(jobs, NewJob(KeyFor(cfg, artist, CatalogueBackfill, now), artist, CatalogueBackfill, priority, now), artist);
  }

  lemma AppendActive(jobs: seq<Job>, job: Job, artist: string)
    requires job.artist == artist && job.jobType == CatalogueBackfill && IsActive(job)
    ensures ActiveRows(jobs + [job], artist, CatalogueBackfill) == ActiveRows(jobs, artist, CatalogueBackfill) + 1
  {
    assert (jobs + [job])[..|jobs + [job]| - 1] == jobs;
  }

  // A pass for one artist in a window of its own leaves one more active catalogue row.
  lemma PassAddsActive(cfg: Settings, jobs: seq<Job>, artist: string, now: int)
    requires UniqueKeys(jobs) && !HasKey(jobs, KeyFor(cfg, artist, CatalogueBackfill, now))
    ensures var pass := EnqueueDue(cfg, jobs, [Resolved(artist, 0)], {}, now);
            && pass.Flushed? && UniqueKeys(pass.jobs)
            && ActiveRows(pass.jobs, artist, CatalogueBackfill) >= ActiveRows(jobs, artist, CatalogueBackfill) + 1
            && (jobs == [] ==> forall j :: j in pass.jobs ==> j.createdAt == now && j.key == KeyFor(cfg, j.artist, j.jobType, now))
  {
    var ids := [Resolved(artist, 0)];
    var added := Added(cfg, jobs, ids, {}, now);
    var key := KeyFor(cfg, artist, CatalogueBackfill, now);
    PassFlushesExactlyWhen(cfg, jobs, ids, {}, now);
    AddedHasEveryWanted(cfg, jobs, ids, {}, now, 0, CatalogueBackfill);
    AddedRows(cfg, jobs, ids, {}, now);
    var k :| 0 <= k < |added| && added[k].key == key;
    assert added[k] in added;
    OneActive(added, artist, k);
    ActiveRowsAdd(jobs, added, artist);
  }

  predicate ActiveCatalogue(j: Job, artist: string) {
    j.artist == artist && j.jobType == CatalogueBackfill && IsActive(j)
  }

  // Unfinished catalogue jobs of two different windows.
  ghost predicate TwoWindows(jobs: seq<Job>, artist: string) {
    exists i, j :: 0 <= i < j < |jobs| && ActiveCatalogue(jobs[i], artist) && ActiveCatalogue(jobs[j], artist)
                   && jobs[i].key.Windowed? && jobs[j].key.Windowed? && jobs[i].key.window != jobs[j].key.window
  }

  lemma {:induction false} NoneActive(jobs: seq<Job>, artist: string)
    requires forall i :: 0 <= i < |jobs| ==> !ActiveCatalogue(jobs[i], artist)
    ensures ActiveRows(jobs, artist, CatalogueBackfill) == 0
    decreases |jobs|
  {
    if jobs != [] {
      NoneActive(jobs[..|jobs| - 1], artist);
    }
  }

  lemma {:induction false} TwoActive(jobs: seq<Job>, artist: string)
    ensures ActiveRows(jobs, artist, CatalogueBackfill) > 1 <==>
              exists i, j :: 0 <= i < j < |jobs| && ActiveCatalogue(jobs[i], artist) && ActiveCatalogue(jobs[j], artist)
    decreases |jobs|
  {
    if jobs != [] {
      var last := |jobs| - 1;
      var before := jobs[..last];
      TwoActive(before, artist);
      if i, j :| 0 <= i < j < |jobs| && ActiveCatalogue(jobs[i], artist) && ActiveCatalogue(jobs[j], artist) {
        if j < last {
          assert before[i] == jobs[i] && before[j] == jobs[j];
        } else {
          OneActive(before, artist, i);
        }
      }
      if ActiveRows(jobs, artist, CatalogueBackfill) > 1 {
        if ActiveRows(before, artist, CatalogueBackfill) > 1 {
          var i, j :| 0 <= i < j < |before| && ActiveCatalogue(before[i], artist) && ActiveCatalogue(before[j], artist);
          assert jobs[i] == before[i] && jobs[j] == before[j];
        } else {
          var i := SomeActive(before, artist);
          assert jobs[i] == before[i] && ActiveCatalogue(jobs[last], artist);
        }
      }
    }
  }

  lemma {:induction false} SomeActive(jobs: seq<Job>, artist: string) returns (i: nat)
    requires ActiveRows(jobs, artist, CatalogueBackfill) > 0
    ensures i < |jobs| && ActiveCatalogue(jobs[i], artist)
    decreases |jobs|
  {
    i := |jobs| - 1;
    if !ActiveCatalogue(jobs[i], artist) {
      i := SomeActive(jobs[..i], artist);
    }
  }

  /**
   * Queueing a backfill raises exactly when the artist has unfinished catalogue jobs of two different
   * windows: the windowed enqueue does not look for active jobs, the backfill's check does.
   */
  lemma BackfillRaisesExactlyWhenTwoWindows(cfg: Settings, jobs: seq<Job>, artist: string, priority: int, now: int)
    requires UniqueKeys(jobs) && WindowsTrue(cfg, jobs)
    ensures Backfill(cfg, jobs, artist, priority, now) == MultipleRows <==> TwoWindows(jobs, artist)
    ensures TwoWindows(jobs, artist) <==> ActiveRows(jobs, artist, CatalogueBackfill) > 1
  {
    TwoActive(jobs, artist);
    if i, j :| 0 <= i < j < |jobs| && ActiveCatalogue(jobs[i], artist) && ActiveCatalogue(jobs[j], artist) {
      assert WindowTrue(cfg, jobs[i]) && WindowTrue(cfg, jobs[j]);
      assert jobs[i].key != jobs[j].key;
    }
  }

  lemma {:induction false} AtMostOneOfAKey(jobs: seq<Job>, artist: string, key: Key)
    requires UniqueKeys(jobs) && forall i :: 0 <= i < |jobs| && ActiveCatalogue(jobs[i], artist) ==> jobs[i].key == key
    ensures ActiveRows(jobs, artist, CatalogueBackfill) <= 1
  {
    TwoActive(jobs, artist);
  }

  /**
   * What a pass of `enqueue_due` does to that count: it adds one exactly for an artist that is resolved, not
   * paused and without a row for the current window. So an artist comes to have two when an earlier
   * window's job is unfinished as the next window opens.
   */
  lemma PassCrowdsExactlyWhen(cfg: Settings, jobs: seq<Job>, ids: seq<Resolved>, paused: set<string>, now: int, artist: string)
    requires UniqueKeys(jobs) && EnqueueDue(cfg, jobs, ids, paused, now).Flushed?
    ensures ActiveRows(EnqueueDue(cfg, jobs, ids, paused, now).jobs, artist, CatalogueBackfill)
         == ActiveRows(jobs, artist, CatalogueBackfill)
            + if WantedFor(cfg, jobs, ids, paused, now, artist, CatalogueBackfill) then 1 else 0
  {
    var added := Added(cfg, jobs, ids, paused, now);
    var key := KeyFor(cfg, artist, CatalogueBackfill, now);
    ActiveRowsAdd(jobs, added, artist);
    AddedRows(cfg, jobs, ids, paused, now);
    forall i | 0 <= i < |added| && ActiveCatalogue(added[i], artist)
      ensures added[i].key == key && WantedFor(cfg, jobs, ids, paused, now, artist, CatalogueBackfill)
    {
      assert added[i] in added;
    }
    RepeatsShow(jobs, added);
    AtMostOneOfAKey(added, artist, key);
    if WantedFor(cfg, jobs, ids, paused, now, artist, CatalogueBackfill) {
      var i :| 0 <= i < |ids| && ids[i].artist == artist;
      AddedHasEveryWanted(cfg, jobs, ids, paused, now, i, CatalogueBackfill);
      var k :| 0 <= k < |added| && added[k].key == key;
      assert added[k] in added;
      OneActive(added, artist, k);
    } else {
      NoneActive(added, artist);
    }
  }

  lemma RepeatsShow(a: seq<Job>, b: seq<Job>)
    requires UniqueKeys(a + b)
    ensures UniqueKeys(b)
  {
    assert forall i :: 0 <= i < |b| ==> (a + b)[|a| + i] == b[i];
  }

  /**
   * The windowed enqueue does not look for active jobs, so an unfinished catalogue job of the last
   * window and a new one can be active together; queueing a backfill then raises.
   */
  lemma BackfillCanRaise(cfg: Settings, artist: string, now: int)
    requires cfg.catalogueInterval >= 1
    ensures var ids := [Resolved(artist, 0)];
            var first := EnqueueDue(cfg, [], ids, {}, now);
            first.Flushed? &&
            var second := EnqueueDue(cfg, first.jobs, ids, {}, now + cfg.catalogueInterval);
            second.Flushed? &&
            Backfill(cfg, second.jobs, artist, 0, now + cfg.catalogueInterval) == MultipleRows
  {
    PassAddsActive(cfg, [], artist, now);
    var first := EnqueueDue(cfg, [], [Resolved(artist, 0)], {}, now).jobs;
    NextWindowIsNew(cfg, first, artist, now);
    PassAddsActive(cfg, first, artist, now + cfg.catalogueInterval);
  }

  lemma NextWindow(now: int, interval: int)
    requires interval >= 1
    ensures (now + interval) / interval == now / interval + 1
  {
    var q, r := (now + interval) / interval, (now + interval) % interval;
    assert (q - 1) * interval + r == now;
    WindowIsQuotient(now, q - 1, r, interval);
  }

  lemma WindowIsQuotient(now: int, q: int, r: int, interval: int)
    requires interval >= 1 && 0 <= r < interval && now == q * interval + r
    ensures now / interval == q
  {
    var p := now / interval;
    if p > q {
      MoreIsLonger(p, q, interval);
    } else if p < q {
      MoreIsLonger(q, p, interval);
    }
  }

  lemma NextWindowIsNew(cfg: Settings, jobs: seq<Job>, artist: string, now: int)
    requires cfg.catalogueInterval >= 1
    requires forall j :: j in jobs ==> j.createdAt == now && j.key == KeyFor(cfg, j.artist, j.jobType, now)
    ensures !HasKey(jobs, KeyFor(cfg, artist, CatalogueBackfill, now + cfg.catalogueInterval))
  {
    NextWindow(now, cfg.catalogueInterval);
    forall i | 0 <= i < |jobs| ensures jobs[i].key != KeyFor(cfg, artist, CatalogueBackfill, now + cfg.catalogueInterval) {
      assert jobs[i] in jobs;
    }
  }

  lemma {:induction false} OneActive(jobs: seq<Job>, artist: string, k: nat)
    requires k < |jobs| && jobs[k].artist == artist && jobs[k].jobType == CatalogueBackfill && IsActive(jobs[k])
    ensures ActiveRows(jobs, artist, CatalogueBackfill) >= 1
    decreases |jobs|
  {
    if k < |jobs| - 1 {
      OneActive(jobs[..|jobs| - 1], artist, k);
    }
  }

  lemma {:induction false} ActiveRowsAdd(a: seq<Job>, b: seq<Job>, artist: string)
    ensures ActiveRows(a + b, artist, CatalogueBackfill)
         == ActiveRows(a, artist, CatalogueBackfill) + ActiveRows(b, artist, CatalogueBackfill)
    decreases |b|
  {
    if b == [] {
      assert a + b == a;
    } else {
      ActiveRowsAdd(a, b[..|b| - 1], artist);
      assert (a + b)[..|a + b| - 1] == a + b[..|b| - 1];
    }
  }
}
