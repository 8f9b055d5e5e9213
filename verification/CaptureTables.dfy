/** What every transaction of the capture scheduler keeps true of its two tables, whoever calls it and
    whenever: no assumption on clocks, leases or the status of the job being committed. */
module CaptureTables {
  import opened Options
  import opened Cadence
  import opened Classification
  import opened CaptureStore

  ghost predicate EventsUnique(events: seq<Tracked>) {
    forall i, j :: 0 <= i < j < |events| ==> events[i].key != events[j].key
  }

  ghost predicate JobsHaveEvents(s: Store) {
    forall j :: 0 <= j < |s.jobs| ==> FindEvent(s.events, s.jobs[j].key).Some?
  }

  ghost predicate DedupUnique(jobs: seq<Job>) {
    forall i, j :: 0 <= i < j < |jobs| ==> jobs[i].key != jobs[j].key || jobs[i].window != jobs[j].window
  }

  predicate IsRegularActive(job: Job) {
    IsActive(job) && !job.window.CaptureNow?
  }

  ghost predicate OneActive(jobs: seq<Job>) {
    forall i, j :: 0 <= i < j < |jobs| && IsRegularActive(jobs[i]) && IsRegularActive(jobs[j]) ==>
      jobs[i].key != jobs[j].key
  }

  ghost predicate LockIffRunning(jobs: seq<Job>) {
    forall j :: 0 <= j < |jobs| ==> (jobs[j].status == Running <==> jobs[j].lockExpiresAt.Some?)
  }

  ghost predicate TableInv(s: Store) {
    EventsUnique(s.events) && JobsHaveEvents(s) && DedupUnique(s.jobs) && OneActive(s.jobs) &&
    LockIffRunning(s.jobs)
  }

  /** What a row may become: a completed job is never active again, a stopped tracker never trackable again,
      and no row changes its dedup key. */
  ghost predicate Progressed(old_: Store, new_: Store) {
    |old_.jobs| <= |new_.jobs| && |old_.events| <= |new_.events| &&
    (forall j :: 0 <= j < |old_.jobs| ==>
      new_.jobs[j].key == old_.jobs[j].key && new_.jobs[j].window == old_.jobs[j].window &&
      (IsCompleted(old_.jobs[j]) ==> IsCompleted(new_.jobs[j])) &&
      old_.jobs[j].attemptCount <= new_.jobs[j].attemptCount) &&
    (forall e :: 0 <= e < |old_.events| ==>
      new_.events[e].key == old_.events[e].key &&
      (IsTrackable(new_.events[e]) ==> IsTrackable(old_.events[e])))
  }

  /** Lookups depend on keys alone. */
  lemma {:induction false} FindEventByKeys(a: seq<Tracked>, b: seq<Tracked>, key: EventKey)
    requires |a| == |b| && forall i :: 0 <= i < |a| ==> a[i].key == b[i].key
    ensures FindEvent(a, key) == FindEvent(b, key)
  {
    if a != [] {
      FindEventByKeys(a[..|a| - 1], b[..|b| - 1], key);
    }
  }

  lemma JobsKeepEvents(s: Store, events: seq<Tracked>)
    requires JobsHaveEvents(s)
    requires |s.events| <= |events| && forall i :: 0 <= i < |s.events| ==> events[i].key == s.events[i].key
    ensures JobsHaveEvents(s.(events := events))
  {
  }

  lemma EnrollKeepsTable(s: Store, key: EventKey, city: Option<string>, startsAt: Option<int>, onSaleAt: Option<int>,
                         cfg: Settings)
    requires TableInv(s)
    ensures TableInv(Enroll(s, key, city, startsAt, onSaleAt, cfg))
    ensures Progressed(s, Enroll(s, key, city, startsAt, onSaleAt, cfg))
  {
    JobsKeepEvents(s, Enroll(s, key, city, startsAt, onSaleAt, cfg).events);
  }

  lemma EnrichKeepsTable(s: Store, key: EventKey, found: Enrichment, today: Option<int>, now: int, cfg: Settings)
    requires TableInv(s)
    ensures TableInv(Enrich(s, key, found, today, now, cfg)) && Progressed(s, Enrich(s, key, found, today, now, cfg))
  {
    JobsKeepEvents(s, Enrich(s, key, found, today, now, cfg).events);
  }

  ghost predicate CreatedFor(job: Job, events: seq<Tracked>, flushed: seq<Job>, now: int, cfg: Settings) {
    exists e :: 0 <= e < |events| && NewJob(events[e], flushed, now, cfg) == Some(job)
  }

  /** Every created job comes from its own tracker. */
  lemma {:induction false} NewJobsOrigin(events: seq<Tracked>, flushed: seq<Job>, now: int, cfg: Settings)
    requires EventsUnique(events)
    ensures forall k :: 0 <= k < |NewJobs(events, flushed, now, cfg)| ==>
              CreatedFor(NewJobs(events, flushed, now, cfg)[k], events, flushed, now, cfg)
    ensures forall k, l :: 0 <= k < l < |NewJobs(events, flushed, now, cfg)| ==>
              NewJobs(events, flushed, now, cfg)[k].key != NewJobs(events, flushed, now, cfg)[l].key
    ensures forall e :: 0 <= e < |events| && NewJob(events[e], flushed, now, cfg).Some? ==>
              NewJob(events[e], flushed, now, cfg).value in NewJobs(events, flushed, now, cfg)
  {
    if events != [] {
      var n := |events| - 1;
      var front := events[..n];
      NewJobsOrigin(front, flushed, now, cfg);
      var before, all := NewJobs(front, flushed, now, cfg), NewJobs(events, flushed, now, cfg);
      var last := NewJob(events[n], flushed, now, cfg);
      forall k | 0 <= k < |all|
        ensures CreatedFor(all[k], events, flushed, now, cfg)
      {
        if k < |before| {
          assert CreatedFor(before[k], front, flushed, now, cfg);
          var e :| 0 <= e < |front| && NewJob(front[e], flushed, now, cfg) == Some(before[k]);
          assert events[e] == front[e];
        }
      }
      forall k, l | 0 <= k < l < |all| ensures all[k].key != all[l].key {
        if l == |before| {
          assert CreatedFor(before[k], front, flushed, now, cfg);
          var e :| 0 <= e < |front| && NewJob(front[e], flushed, now, cfg) == Some(before[k]);
          assert events[e].key != events[n].key;
        }
      }
      forall e | 0 <= e < |events| && NewJob(events[e], flushed, now, cfg).Some?
        ensures NewJob(events[e], flushed, now, cfg).value in all
      {
        if e < n {
          assert front[e] == events[e];
          assert NewJob(front[e], flushed, now, cfg).value in before;
        } else {
          assert all[|before|] == last.value;
        }
      }
    }
  }

  /** Although a pass does not see its own inserts, it never creates a duplicate window or a second
      active job for a tracker. */
  lemma GenerateKeepsTable(s: Store, now: int, cfg: Settings)
    requires TableInv(s)
    ensures TableInv(Generate(s, now, cfg)) && Progressed(s, Generate(s, now, cfg))
  {
    var r := Generate(s, now, cfg);
    var added := NewJobs(s.events, s.jobs, now, cfg);
    NewJobsOrigin(s.events, s.jobs, now, cfg);
    JobsKeepEvents(s, r.events);
    forall k | 0 <= k < |added|
      ensures !HasDedup(s.jobs, added[k].key, added[k].window) && !HasActive(s.jobs, added[k].key)
      ensures FindEvent(r.events, added[k].key).Some?
      ensures added[k].lockExpiresAt.None? && added[k].status == Pending
    {
      assert CreatedFor(added[k], s.events, s.jobs, now, cfg);
      var e :| 0 <= e < |s.events| && NewJob(s.events[e], s.jobs, now, cfg) == Some(added[k]);
      assert r.events[e].key == added[k].key;
    }
    forall i, j | 0 <= i < j < |r.jobs|
      ensures r.jobs[i].key != r.jobs[j].key || r.jobs[i].window != r.jobs[j].window
      ensures IsRegularActive(r.jobs[i]) && IsRegularActive(r.jobs[j]) ==> r.jobs[i].key != r.jobs[j].key
    {
      if |s.jobs| <= j {
        assert r.jobs[j] == added[j - |s.jobs|];
        if |s.jobs| <= i {
          assert r.jobs[i] == added[i - |s.jobs|];
        } else {
          assert r.jobs[i] == s.jobs[i];
        }
      }
    }
  }

  /** Steps that only move rows along: dedup keys stay, nothing is activated, locks follow RUNNING. */
  lemma MovingRowsKeepsTable(s: Store, r: Store)
    requires TableInv(s) && |r.jobs| == |s.jobs| && |r.events| == |s.events|
    requires forall e :: 0 <= e < |s.events| ==> r.events[e].key == s.events[e].key
    requires forall j :: 0 <= j < |s.jobs| ==>
               r.jobs[j].key == s.jobs[j].key && r.jobs[j].window == s.jobs[j].window &&
               (IsActive(r.jobs[j]) ==> IsActive(s.jobs[j])) &&
               (r.jobs[j].status == Running <==> r.jobs[j].lockExpiresAt.Some?)
    ensures TableInv(r)
  {
    JobsKeepEvents(s, r.events);
    forall j | 0 <= j < |r.jobs| ensures FindEvent(r.events, r.jobs[j].key).Some? {
      assert FindEvent(r.events, s.jobs[j].key).Some?;
    }
  }

  lemma RecoverKeepsTable(s: Store, now: int)
    requires TableInv(s)
    ensures TableInv(Recover(s, now)) && Progressed(s, Recover(s, now))
  {
    MovingRowsKeepsTable(s, Recover(s, now));
  }

  lemma ClaimKeepsTable(s: Store, j: nat, now: int, worker: string, cfg: Settings)
    requires TableInv(s) && j < |s.jobs|
    ensures TableInv(Claim(s, j, now, worker, cfg)) && Progressed(s, Claim(s, j, now, worker, cfg))
  {
    MovingRowsKeepsTable(s, Claim(s, j, now, worker, cfg));
  }

  lemma CaptureNowKeepsTable(s: Store, key: EventKey, now: int)
    requires TableInv(s)
    ensures TableInv(InsertCaptureNow(s, key, now)) && Progressed(s, InsertCaptureNow(s, key, now))
  {
  }

  /** Also for a late commit, whatever has become of the job meanwhile. */
  lemma CommitKeepsTable(s: Store, j: nat, outcome: CaptureOutcome, attempt: nat, today: Option<int>, now: int, cfg: Settings)
    requires TableInv(s) && j < |s.jobs|
    ensures TableInv(Commit(s, j, outcome, attempt, today, now, cfg))
    ensures Progressed(s, Commit(s, j, outcome, attempt, today, now, cfg))
    ensures IsCompleted(Commit(s, j, outcome, attempt, today, now, cfg).jobs[j])
  {
    MovingRowsKeepsTable(s, Commit(s, j, outcome, attempt, today, now, cfg));
  }

  /** A job abandoned by a crash becomes claimable once its lease has ended, and the claim succeeds. */
  lemma AbandonedJobIsReclaimed(s: Store, j: nat, lease: int, now: int, worker: string, cfg: Settings)
    requires TableInv(s) && j < |s.jobs|
    requires s.jobs[j].status == Running && s.jobs[j].lockExpiresAt == Some(lease)
    ensures lease < now ==>
              Recover(s, now).jobs[j].status == Pending &&
              Claim(Recover(s, now), j, now, worker, cfg).jobs[j] ==
                ClaimedJob(s.jobs[j].(status := Pending, workerId := None, lockExpiresAt := None), now, worker, cfg)
    ensures now <= lease ==>
              Recover(s, now).jobs[j] == s.jobs[j] && Claim(Recover(s, now), j, now, worker, cfg) == Recover(s, now)
  {
  }
}
