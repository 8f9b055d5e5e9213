/** `SchedulerService` itself: its methods updating the two tables in place, each proved against the
    transaction it is in `CaptureStore`, and what a whole `run_once` pass achieves. */
module CaptureService {
  import opened Options
  import opened Cadence
  import opened Classification
  import opened CaptureStore
  import opened CaptureTables
  import opened CaptureInvariants
  import opened CaptureProgress

  // ---- the claim query: pending rows by priority, then schedule ---------------------------------

  /** ORDER BY priority DESC, scheduled_at ASC. */
  predicate Before(a: Job, b: Job) {
    a.priority > b.priority || (a.priority == b.priority && a.scheduledAt <= b.scheduledAt)
  }

  predicate Within(ids: seq<nat>, n: nat) {
    forall k :: 0 <= k < |ids| ==> ids[k] < n
  }

  function Insert(jobs: seq<Job>, rows: seq<nat>, j: nat): seq<nat>
    requires j < |jobs| && Within(rows, |jobs|)
  {
    if rows == [] then [j]
    else if Before(jobs[rows[0]], jobs[j]) then [rows[0]] + Insert(jobs, rows[1..], j)
    else [j] + rows
  }

  ghost predicate RankedRows(jobs: seq<Job>, rows: seq<nat>) {
    Within(rows, |jobs|) &&
    (forall k, l :: 0 <= k < l < |rows| ==> rows[k] != rows[l] && Before(jobs[rows[k]], jobs[rows[l]]))
  }

  lemma {:induction false} InsertMembers(jobs: seq<Job>, rows: seq<nat>, j: nat)
    requires j < |jobs| && Within(rows, |jobs|)
    ensures forall r :: r in Insert(jobs, rows, j) <==> r in rows || r == j
  {
    if rows != [] && Before(jobs[rows[0]], jobs[j]) {
      InsertMembers(jobs, rows[1..], j);
      assert forall r :: r in rows <==> r == rows[0] || r in rows[1..];
    }
  }

  lemma HeadRanksFirst(jobs: seq<Job>, rows: seq<nat>, r: nat)
    requires RankedRows(jobs, rows) && rows != [] && r in rows[1..]
    ensures r != rows[0] && Before(jobs[rows[0]], jobs[r])
  {
    var i :| 0 <= i < |rows[1..]| && rows[1..][i] == r;
    assert rows[i + 1] == r;
  }

  lemma PrependKeepsRanking(jobs: seq<Job>, head: nat, rows: seq<nat>)
    requires RankedRows(jobs, rows) && head < |jobs|
    requires forall l :: 0 <= l < |rows| ==> rows[l] != head && Before(jobs[head], jobs[rows[l]])
    ensures RankedRows(jobs, [head] + rows)
  {
  }

  lemma {:induction false} InsertKeepsRanking(jobs: seq<Job>, rows: seq<nat>, j: nat)
    requires j < |jobs| && RankedRows(jobs, rows) && j !in rows
    ensures forall r :: r in Insert(jobs, rows, j) <==> r in rows || r == j
    ensures RankedRows(jobs, Insert(jobs, rows, j))
  {
    InsertMembers(jobs, rows, j);
    if rows != [] && Before(jobs[rows[0]], jobs[j]) {
      var rest := Insert(jobs, rows[1..], j);
      InsertKeepsRanking(jobs, rows[1..], j);
      forall l | 0 <= l < |rest| ensures rest[l] != rows[0] && Before(jobs[rows[0]], jobs[rest[l]]) {
        assert rest[l] in rest;
        if rest[l] != j {
          HeadRanksFirst(jobs, rows, rest[l]);
        }
      }
      PrependKeepsRanking(jobs, rows[0], rest);
    } else {
      forall l | 0 <= l < |rows| ensures rows[l] != j && Before(jobs[j], jobs[rows[l]]) {
        if l > 0 {
          assert Before(jobs[rows[0]], jobs[rows[l]]);
        }
      }
      PrependKeepsRanking(jobs, j, rows);
    }
  }

  /** The claimable rows among the first `n`: pending, due, best first. */
  function Claimable(jobs: seq<Job>, n: nat, now: int): (rows: seq<nat>)
    requires n <= |jobs|
    ensures forall r :: r in rows <==> 0 <= r < n && jobs[r].status == Pending && jobs[r].scheduledAt <= now
    ensures RankedRows(jobs, rows)
  {
    if n == 0 then []
    else
      var rows := Claimable(jobs, n - 1, now);
      if jobs[n - 1].status == Pending && jobs[n - 1].scheduledAt <= now then
        InsertKeepsRanking(jobs, rows, n - 1);
        Insert(jobs, rows, n - 1)
      else rows
  }

  function ClaimAll(s: Store, ids: seq<nat>, now: int, worker: string, cfg: Settings): Store {
    s.(jobs := seq(|s.jobs|, j requires 0 <= j < |s.jobs| =>
      if j in ids then ClaimedJob(s.jobs[j], now, worker, cfg) else s.jobs[j]))
  }

  function AtMost(rows: seq<nat>, limit: int): seq<nat> {
    if limit <= 0 then [] else if limit < |rows| then rows[..limit] else rows
  }

  /** No priority inversion: whatever a claim leaves behind ranks behind everything it took. */
  lemma ClaimTakesTheBest(jobs: seq<Job>, now: int, limit: int, taken: nat, left: nat)
    requires taken in AtMost(Claimable(jobs, |jobs|, now), limit)
    requires left < |jobs| && jobs[left].status == Pending && jobs[left].scheduledAt <= now
    requires left !in AtMost(Claimable(jobs, |jobs|, now), limit)
    ensures Before(jobs[taken], jobs[left])
    ensures |AtMost(Claimable(jobs, |jobs|, now), limit)| == limit
  {
  }

  function ExpiredCount(jobs: seq<Job>, now: int): nat {
    if jobs == [] then 0
    else ExpiredCount(jobs[..|jobs| - 1], now) + if IsExpired(jobs[|jobs| - 1], now) then 1 else 0
  }

  /** Due trackers hold an active job, and every active job is one of `mine`. */
  ghost predicate PassCovers(s: Store, mine: seq<nat>, now: int, cfg: Settings) {
    (forall e :: 0 <= e < |s.events| && IsDue(s.events[e], now, cfg) ==> HasActive(s.jobs, s.events[e].key)) &&
    (forall j :: 0 <= j < |s.jobs| && IsActive(s.jobs[j]) ==> j in mine)
  }

  lemma CommitKeepsCover(s: Store, mine: seq<nat>, outcome: CaptureOutcome, attempt: nat, today: Option<int>,
                         now: int, cfg: Settings)
    requires TableInv(s) && mine != [] && mine[0] < |s.jobs| && cfg.Positive()
    requires PassCovers(s, mine, now, cfg)
    ensures PassCovers(Commit(s, mine[0], outcome, attempt, today, now, cfg), mine[1..], now, cfg)
  {
    var j := mine[0];
    var r := Commit(s, j, outcome, attempt, today, now, cfg);
    var e := FindEvent(s.events, s.jobs[j].key).value;
    assert !IsDue(r.events[e], now, cfg);
    forall f | 0 <= f < |r.events| && IsDue(r.events[f], now, cfg) ensures HasActive(r.jobs, r.events[f].key) {
      assert f != e && r.events[f] == s.events[f] && s.events[f].key != s.events[e].key;
      var i :| 0 <= i < |s.jobs| && s.jobs[i].key == s.events[f].key && IsActive(s.jobs[i]);
      assert r.jobs[i] == s.jobs[i];
    }
    forall i | 0 <= i < |r.jobs| && IsActive(r.jobs[i]) ensures i in mine[1..] {
      assert i != j && s.jobs[i] == r.jobs[i] && i in mine;
    }
  }

  /** No lease that a recovery at `now` would leave running. */
  ghost predicate NobodyElseRunning(jobs: seq<Job>, now: int) {
    forall j :: 0 <= j < |jobs| && jobs[j].status == Running ==> IsExpired(jobs[j], now)
  }

  lemma ClaimCoversPass(s: Store, ids: seq<nat>, now: int, worker: string, cfg: Settings)
    requires TableInv(s) && Unwedged(s, now) && NobodyElseRunning(s.jobs, now)
    requires var g := Generate(Recover(s, now), now, cfg); ids == Claimable(g.jobs, |g.jobs|, now)
    ensures PassCovers(ClaimAll(Generate(Recover(s, now), now, cfg), ids, now, worker, cfg), ids, now, cfg)
  {
    var g := Generate(Recover(s, now), now, cfg);
    var r := ClaimAll(g, ids, now, worker, cfg);
    forall e | 0 <= e < |r.events| && IsDue(r.events[e], now, cfg) ensures HasActive(r.jobs, r.events[e].key) {
      assert r.events[e].key == s.events[e].key && IsDue(s.events[e], now, cfg);
      DueTrackerIsServed(s, now, now, e, cfg);
      var j :| 0 <= j < |g.jobs| && g.jobs[j].key == s.events[e].key && IsActive(g.jobs[j]);
      assert r.jobs[j].key == g.jobs[j].key && IsActive(r.jobs[j]);
    }
    GenerateStaysUnwedgedAfterRecovery(s, now, cfg);
    forall j | 0 <= j < |r.jobs| && IsActive(r.jobs[j]) ensures j in ids {
      if j < |s.jobs| {
        assert g.jobs[j] == RecoverJob(s.jobs[j], now);
      } else {
        NewJobsArePending(s.events, Recover(s, now).jobs, now, cfg);
      }
      assert g.jobs[j].scheduledAt <= now;
    }
  }

  lemma GenerateStaysUnwedgedAfterRecovery(s: Store, now: int, cfg: Settings)
    requires Unwedged(s, now)
    ensures Unwedged(Generate(Recover(s, now), now, cfg), now)
  {
    SchedulesUntouched(s, Recover(s, now), now, now);
    GenerateStaysUnwedged(Recover(s, now), now, now, cfg);
  }

  /** Claiming a batch is claiming each of its rows in turn. */
  lemma ClaimAllKeepsTable(s: Store, ids: seq<nat>, now: int, worker: string, cfg: Settings)
    requires TableInv(s)
    requires forall j :: j in ids ==> 0 <= j < |s.jobs| && s.jobs[j].status == Pending
    ensures TableInv(ClaimAll(s, ids, now, worker, cfg))
  {
    MovingRowsKeepsTable(s, ClaimAll(s, ids, now, worker, cfg));
  }

  // ---- one pass of run_once -----------------------------------------------------------------------

  /** `limit or default`: a limit left out, or zero, means the configured one. */
  function LimitOf(limit: Option<int>, cfg: Settings): int {
    if limit.Or(0) != 0 then limit.value else cfg.maxJobs
  }

  function Claimed(s: Store, now: int, limit: int, cfg: Settings): seq<nat> {
    var g := Generate(Recover(s, now), now, cfg);
    AtMost(Claimable(g.jobs, |g.jobs|, now), limit)
  }

  /** Committing a batch in order; `capture` is the source's answer for each job and `today` the local
      day it is judged on. */
  ghost function CommitAll(s: Store, ids: seq<nat>, capture: nat -> CaptureOutcome, today: nat -> Option<int>, now: int,
                           cfg: Settings): (r: Store)
    requires TableInv(s) && Within(ids, |s.jobs|)
    ensures TableInv(r) && |r.jobs| == |s.jobs|
    decreases |ids|
  {
    if ids == [] then s
    else
      var j := ids[0];
      CommitKeepsTable(s, j, capture(j), s.jobs[j].attemptCount, today(j), now, cfg);
      CommitAll(Commit(s, j, capture(j), s.jobs[j].attemptCount, today(j), now, cfg), ids[1..], capture, today, now, cfg)
  }

  lemma ClaimedBatchIsSound(s: Store, worker: string, now: int, limit: int, cfg: Settings)
    requires TableInv(s)
    ensures var g := Generate(Recover(s, now), now, cfg);
            var ids := Claimed(s, now, limit, cfg);
            var c := ClaimAll(g, ids, now, worker, cfg);
            TableInv(g) && TableInv(c) && Within(ids, |c.jobs|) && (limit >= 0 ==> |ids| <= limit)
  {
    RecoverKeepsTable(s, now);
    GenerateKeepsTable(Recover(s, now), now, cfg);
    ClaimAllKeepsTable(Generate(Recover(s, now), now, cfg), Claimed(s, now, limit, cfg), now, worker, cfg);
  }

  ghost function Pass(s: Store, worker: string, now: int, limit: int, capture: nat -> CaptureOutcome,
                      today: nat -> Option<int>, cfg: Settings): (r: Store)
    requires TableInv(s)
    ensures TableInv(r)
  {
    ClaimedBatchIsSound(s, worker, now, limit, cfg);
    var ids := Claimed(s, now, limit, cfg);
    CommitAll(ClaimAll(Generate(Recover(s, now), now, cfg), ids, now, worker, cfg), ids, capture, today, now, cfg)
  }

  lemma {:induction false} CommitAllCompletes(s: Store, ids: seq<nat>, capture: nat -> CaptureOutcome,
                                              today: nat -> Option<int>, now: int, cfg: Settings)
    requires TableInv(s) && Within(ids, |s.jobs|)
    ensures Progressed(s, CommitAll(s, ids, capture, today, now, cfg))
    ensures forall j :: j in ids ==> IsCompleted(CommitAll(s, ids, capture, today, now, cfg).jobs[j])
    decreases |ids|
  {
    if ids != [] {
      var j := ids[0];
      CommitKeepsTable(s, j, capture(j), s.jobs[j].attemptCount, today(j), now, cfg);
      CommitAllCompletes(Commit(s, j, capture(j), s.jobs[j].attemptCount, today(j), now, cfg), ids[1..], capture, today, now, cfg);
    }
  }

  lemma {:induction false} CommitAllSettles(s: Store, ids: seq<nat>, capture: nat -> CaptureOutcome,
                                            today: nat -> Option<int>, now: int, cfg: Settings)
    requires TableInv(s) && Within(ids, |s.jobs|) && cfg.Positive()
    ensures Unwedged(s, now) ==> Unwedged(CommitAll(s, ids, capture, today, now, cfg), now)
    ensures PassCovers(s, ids, now, cfg) ==> PassCovers(CommitAll(s, ids, capture, today, now, cfg), [], now, cfg)
    decreases |ids|
  {
    if ids != [] {
      var j := ids[0];
      CommitKeepsTable(s, j, capture(j), s.jobs[j].attemptCount, today(j), now, cfg);
      if Unwedged(s, now) {
        CommitStaysUnwedged(s, now, j, capture(j), s.jobs[j].attemptCount, today(j), now, cfg);
      }
      if PassCovers(s, ids, now, cfg) {
        CommitKeepsCover(s, ids, capture(j), s.jobs[j].attemptCount, today(j), now, cfg);
      }
      CommitAllSettles(Commit(s, j, capture(j), s.jobs[j].attemptCount, today(j), now, cfg), ids[1..], capture, today, now, cfg);
    }
  }

  /** Every job a pass claims ends completed, whatever the captures bring. */
  lemma PassCompletesItsClaims(s: Store, worker: string, now: int, limit: int, capture: nat -> CaptureOutcome,
                               today: nat -> Option<int>, cfg: Settings)
    requires TableInv(s)
    ensures forall j :: j in Claimed(s, now, limit, cfg) ==>
              0 <= j < |Pass(s, worker, now, limit, capture, today, cfg).jobs| &&
              IsCompleted(Pass(s, worker, now, limit, capture, today, cfg).jobs[j])
  {
    ClaimedBatchIsSound(s, worker, now, limit, cfg);
    var ids := Claimed(s, now, limit, cfg);
    CommitAllCompletes(ClaimAll(Generate(Recover(s, now), now, cfg), ids, now, worker, cfg), ids, capture, today, now, cfg);
  }

  lemma RoomyBatchCovers(s: Store, worker: string, now: int, limit: int, cfg: Settings)
    requires TableInv(s) && Unwedged(s, now) && NobodyElseRunning(s.jobs, now)
    requires |Claimed(s, now, limit, cfg)| < limit
    ensures var ids := Claimed(s, now, limit, cfg);
            var c := ClaimAll(Generate(Recover(s, now), now, cfg), ids, now, worker, cfg);
            Unwedged(c, now) && PassCovers(c, ids, now, cfg)
  {
    var g := Generate(Recover(s, now), now, cfg);
    var ids := Claimed(s, now, limit, cfg);
    GenerateStaysUnwedgedAfterRecovery(s, now, cfg);
    SchedulesUntouched(g, ClaimAll(g, ids, now, worker, cfg), now, now);
    ClaimCoversPass(s, ids, now, worker, cfg);
  }

  ghost predicate NothingOpen(s: Store, now: int, cfg: Settings) {
    (forall e :: 0 <= e < |s.events| ==> !IsDue(s.events[e], now, cfg)) &&
    (forall j :: 0 <= j < |s.jobs| ==> IsCompleted(s.jobs[j]))
  }

  lemma CoveredBatchLeavesNothingOpen(c: Store, ids: seq<nat>, capture: nat -> CaptureOutcome,
                                      today: nat -> Option<int>, now: int, cfg: Settings)
    requires TableInv(c) && Within(ids, |c.jobs|) && cfg.Positive()
    requires Unwedged(c, now) && PassCovers(c, ids, now, cfg)
    ensures var r := CommitAll(c, ids, capture, today, now, cfg);
            Unwedged(r, now) && NothingOpen(r, now, cfg)
  {
    CommitAllSettles(c, ids, capture, today, now, cfg);
  }

  /** When nobody else holds a lease and the limit leaves room, nothing is due or open after a pass: every
      due tracker has been captured and either rescheduled to strictly later or stopped. */
  lemma PassLeavesNothingDue(s: Store, worker: string, now: int, limit: int, capture: nat -> CaptureOutcome,
                             today: nat -> Option<int>, cfg: Settings)
    requires TableInv(s) && Unwedged(s, now) && NobodyElseRunning(s.jobs, now) && cfg.Positive()
    requires |Claimed(s, now, limit, cfg)| < limit
    ensures var r := Pass(s, worker, now, limit, capture, today, cfg);
            Unwedged(r, now) && NothingOpen(r, now, cfg)
  {
    ClaimedBatchIsSound(s, worker, now, limit, cfg);
    RoomyBatchCovers(s, worker, now, limit, cfg);
    var ids := Claimed(s, now, limit, cfg);
    CoveredBatchLeavesNothingOpen(ClaimAll(Generate(Recover(s, now), now, cfg), ids, now, worker, cfg), ids, capture,
                                  today, now, cfg);
  }

  lemma {:induction false} NothingNewWhenNothingDue(events: seq<Tracked>, flushed: seq<Job>, now: int, cfg: Settings)
    requires forall e :: 0 <= e < |events| ==> !IsDue(events[e], now, cfg)
    ensures NewJobs(events, flushed, now, cfg) == []
  {
    if events != [] {
      NothingNewWhenNothingDue(events[..|events| - 1], flushed, now, cfg);
    }
  }

  /** Running the same pass again at once changes nothing at all. */
  lemma PassIsIdempotent(s: Store, worker: string, now: int, limit: int, capture: nat -> CaptureOutcome,
                         today: nat -> Option<int>, cfg: Settings)
    requires TableInv(s) && Unwedged(s, now) && NobodyElseRunning(s.jobs, now) && cfg.Positive()
    requires |Claimed(s, now, limit, cfg)| < limit
    ensures var r := Pass(s, worker, now, limit, capture, today, cfg);
            Claimed(r, now, limit, cfg) == [] && Pass(r, worker, now, limit, capture, today, cfg) == r
  {
    PassLeavesNothingDue(s, worker, now, limit, capture, today, cfg);
    var r := Pass(s, worker, now, limit, capture, today, cfg);
    IdleStepsChangeNothing(r, worker, now, cfg);
    assert |Claimable(r.jobs, |r.jobs|, now)| == 0;
  }

  lemma {:induction false} NothingClaimable(jobs: seq<Job>, n: nat, now: int)
    requires n <= |jobs| && forall j :: 0 <= j < n ==> IsCompleted(jobs[j])
    ensures Claimable(jobs, n, now) == []
  {
    if n > 0 {
      NothingClaimable(jobs, n - 1, now);
    }
  }

  lemma IdleStepsChangeNothing(r: Store, worker: string, now: int, cfg: Settings)
    requires NothingOpen(r, now, cfg)
    ensures Recover(r, now) == r && Generate(r, now, cfg) == r && ClaimAll(r, [], now, worker, cfg) == r
    ensures Claimable(r.jobs, |r.jobs|, now) == []
  {
    assert Recover(r, now).jobs == r.jobs;
    NothingNewWhenNothingDue(r.events, r.jobs, now, cfg);
    assert Generate(r, now, cfg).events == r.events;
    assert ClaimAll(r, [], now, worker, cfg).jobs == r.jobs;
    NothingClaimable(r.jobs, |r.jobs|, now);
  }

  class SchedulerService {
    const cfg: Settings
    var events: seq<Tracked>
    var jobs: seq<Job>

    ghost function Tables(): Store
      reads this
    {
      Store(events, jobs)
    }

    constructor (cfg: Settings)
      ensures this.cfg == cfg && Tables() == Store([], [])
    {
      this.cfg := cfg;
      events, jobs := [], [];
    }

    method FindTracked(key: EventKey) returns (e: Option<nat>)
      ensures e == FindEvent(events, key)
    {
      var i := |events|;
      assert events[..i] == events;
      while i > 0
        invariant 0 <= i <= |events|
        invariant FindEvent(events, key) == FindEvent(events[..i], key)
      {
        assert events[..i][..i - 1] == events[..i - 1];
        if events[i - 1].key == key {
          return Some(i - 1);
        }
        i := i - 1;
      }
      e := None;
    }

    method EnrollEvent(key: EventKey, city: Option<string>, startsAt: Option<int>, onSaleAt: Option<int>)
      returns (id: Option<nat>)
      modifies this`events
      ensures Tables() == Enroll(old(Tables()), key, city, startsAt, onSaleAt, cfg)
      ensures id.Some? ==> id.value < |events| && events[id.value].key == key
      ensures id.None? ==> Tables() == old(Tables())
    {
      if key.source !in cfg.sources {
        return None;
      }
      if cfg.cityAllowlist != {} && city.Some? && city.value !in cfg.cityAllowlist {
        return None;
      }
      var existing := FindTracked(key);
      if existing.Some? {
        var te := events[existing.value];
        if te.city.None? {
          te := te.(city := city);
        }
        if te.timing.startsAt.None? {
          te := te.(timing := te.timing.(startsAt := startsAt));
        }
        events := events[existing.value := te];
        return existing;
      }
      if |events| >= cfg.maxTracked {
        return None;
      }
      events := events + [NewTracked(key, city, startsAt, onSaleAt)];
      return Some(|events| - 1);
    }

    /** One pass over the trackers; `created` are the new rows. */
    method GenerateDueJobs(now: int) returns (created: nat)
      modifies this
      ensures Tables() == Generate(old(Tables()), now, cfg)
      ensures created == |jobs| - |old(jobs)|
    {
      var flushed, pending := jobs, [];
      ghost var before := events;
      var i := 0;
      while i < |events|
        invariant 0 <= i <= |events| == |before| && jobs == flushed
        invariant forall k :: 0 <= k < i ==> events[k] == Prioritised(before[k], flushed, now, cfg)
        invariant forall k :: i <= k < |events| ==> events[k] == before[k]
        invariant pending == NewJobs(before[..i], flushed, now, cfg)
      {
        assert before[..i + 1][..i] == before[..i];
        var te := events[i];
        if IsDue(te, now, cfg) {
          var window := WindowOf(te);
          if !HasDedup(flushed, te.key, window) && !HasActive(flushed, te.key) {
            var score := cfg.score(te, now);
            events := events[i := te.(priority := score)];
            pending := pending + [Job(te.key, window, Pending, score, te.nextCaptureAt.Or(now), None, None, None, 0,
                                      te.consecutiveFailures, None, None, None, None)];
          }
        }
        i := i + 1;
      }
      assert before[..i] == before;
      jobs := flushed + pending;
      created := |pending|;
    }

    method RecoverExpiredLocks(now: int) returns (n: nat)
      modifies this`jobs
      ensures Tables() == Recover(old(Tables()), now)
      ensures n == ExpiredCount(old(jobs), now)
    {
      ghost var before := jobs;
      n := 0;
      var j := 0;
      while j < |jobs|
        invariant 0 <= j <= |jobs| == |before|
        invariant forall k :: 0 <= k < j ==> jobs[k] == RecoverJob(before[k], now)
        invariant forall k :: j <= k < |jobs| ==> jobs[k] == before[k]
        invariant n == ExpiredCount(before[..j], now)
      {
        assert before[..j + 1][..j] == before[..j];
        if IsExpired(jobs[j], now) {
          jobs := jobs[j := jobs[j].(status := Pending, workerId := None, lockExpiresAt := None)];
          n := n + 1;
        }
        j := j + 1;
      }
      assert before[..j] == before;
    }

    method ClaimJobs(now: int, worker: string, limit: int) returns (claimed: seq<nat>)
      modifies this`jobs
      ensures claimed == AtMost(Claimable(old(jobs), |old(jobs)|, now), limit)
      ensures Tables() == ClaimAll(old(Tables()), claimed, now, worker, cfg)
    {
      ghost var before := Tables();
      var due := Claimable(jobs, |jobs|, now);
      claimed := [];
      var i := 0;
      while i < |due| && |claimed| < limit
        invariant 0 <= i <= |due| && claimed == due[..i] && (limit >= 0 ==> i <= limit) && (limit < 0 ==> i == 0)
        invariant |jobs| == |before.jobs|
        invariant forall j :: 0 <= j < |jobs| ==>
          jobs[j] == if j in claimed then ClaimedJob(before.jobs[j], now, worker, cfg) else before.jobs[j]
      {
        var j := due[i];
        assert j in due && j !in claimed;
        if jobs[j].status == Pending {
          jobs := jobs[j := ClaimedJob(jobs[j], now, worker, cfg)];
          claimed := claimed + [j];
        }
        i := i + 1;
      }
      assert Tables() == ClaimAll(before, claimed, now, worker, cfg);
    }

    method ClaimSpecific(j: nat, now: int, worker: string) returns (won: bool)
      requires j < |jobs|
      modifies this`jobs
      ensures won == (old(jobs)[j].status == Pending)
      ensures Tables() == Claim(old(Tables()), j, now, worker, cfg)
    {
      won := jobs[j].status == Pending;
      if won {
        jobs := jobs[j := ClaimedJob(jobs[j], now, worker, cfg)];
      }
    }

    /** The row updates of the second transaction of `process_job`, counters first, then the schedule. */
    method Settle(row: Job, tracked: Tracked, outcome: CaptureOutcome, attempt: nat, today: Option<int>, now: int)
      returns (job: Job, te: Tracked)
      ensures te == CommittedEvent(tracked, outcome, attempt, today, now, cfg)
      ensures job == CommittedJob(row, tracked, outcome, attempt, today, now, cfg)
    {
      var decision := DecideRetry(outcome.code, attempt, outcome.retryAfter, cfg.retry);
      job := row.(resultCode := Some(outcome.code), completedAt := Some(now), lockExpiresAt := None);
      te := tracked.(lastAttemptAt := Some(now), lastCaptureStatus := Some(outcome.code));
      var next: Option<int> := None;
      var reason := Terminal;
      if outcome.code == RecordPresent {
        te := te.(consecutiveFailures := 0, consecutiveAbsences := 0, lastSuccessAt := Some(now),
                  lastRecordPresentAt := Some(now), captureCount := te.captureCount + 1);
        if outcome.shadow.Some? && !outcome.shadow.value.noop && outcome.shadow.value.persisted {
          te := te.(distinctStateCount := te.distinctStateCount + 1);
        }
        if outcome.shadow.Some? && outcome.shadow.value.transitions > 0 {
          te := te.(transitionCount := te.transitionCount + outcome.shadow.value.transitions,
                    lastStateChangeAt := Some(now));
        }
        job := job.(status := Succeeded);
      } else if outcome.code == RecordAbsent {
        te := te.(consecutiveFailures := 0, consecutiveAbsences := te.consecutiveAbsences + 1,
                  captureCount := te.captureCount + 1, lastSuccessAt := Some(now));
        job := job.(status := Succeeded);
      } else {
        te := te.(consecutiveFailures := te.consecutiveFailures + 1);
        job := job.(status := if decision.terminal then FailedTerminal else FailedRetryable,
                    lastErrorCode := Some(outcome.code));
      }
      assert te == Counted(tracked, outcome, now);
      if job.status == Succeeded {
        var c := ComputeCadence(now, te.timing, today, te.status, te.eventStatus, te.lastStateChangeAt, cfg.cadence);
        next, reason := c.0, c.1;
      } else if job.status == FailedTerminal {
        te := te.(status := if decision.needsReview then NeedsReview else Stopped);
      } else {
        var seconds := decision.backoffSeconds.Or(0);
        next := Some(now + (if seconds != 0 then seconds else cfg.retry.backoffBase) * SECOND);
        reason := RetryBackoff;
      }
      te := te.(nextCaptureAt := next, cadenceReason := Some(reason));
      if job.status in {Succeeded, FailedRetryable} {
        job := job.(nextCaptureAt := next);
        if next.None? && job.status == Succeeded {
          te := te.(status := Stopped);
        }
      }
      job := job.(consecutiveFailures := te.consecutiveFailures);
    }

    method CommitCapture(j: nat, outcome: CaptureOutcome, attempt: nat, today: Option<int>, now: int)
      requires j < |jobs| && FindEvent(events, jobs[j].key).Some?
      modifies this
      ensures Tables() == Commit(old(Tables()), j, outcome, attempt, today, now, cfg)
    {
      var e := FindTracked(jobs[j].key);
      var job, te := Settle(jobs[j], events[e.value], outcome, attempt, today, now);
      events, jobs := events[e.value := te], jobs[j := job];
    }

    /** The fields of `_apply_enrichment`, in its order. */
    method FillFields(tracked: Tracked, found: Enrichment, now: int) returns (te: Tracked, changed: bool)
      ensures te == Filled(tracked, found, now) && changed == (ChangesDates(tracked, found) || ChangesStatus(tracked, found))
    {
      te, changed := tracked, false;
      if found.startsAt.Some? && te.timing.startsAt != found.startsAt {
        te, changed := te.(timing := te.timing.(startsAt := found.startsAt)), true;
      }
      if found.endsAt.Some? && te.timing.endsAt != found.endsAt {
        te, changed := te.(timing := te.timing.(endsAt := found.endsAt)), true;
      }
      if found.city.Or("") != "" {
        te := te.(city := found.city);
      }
      if found.eventStatus.Some? {
        var statusChanged := found.relabelled || te.eventStatus != found.eventStatus;
        te := te.(eventStatus := found.eventStatus);
        if statusChanged {
          te, changed := te.(lastStateChangeAt := Some(now)), true;
        }
      }
    }

    /** `_apply_enrichment`, for a resolution that is not empty. */
    method ApplyEnrichment(key: EventKey, found: Enrichment, today: Option<int>, now: int)
      modifies this`events
      ensures Tables() == Enrich(old(Tables()), key, found, today, now, cfg)
    {
      var e := FindTracked(key);
      if e.None? {
        return;
      }
      var te, changed := FillFields(events[e.value], found, now);
      if Disallowed(te, cfg) {
        te := te.(status := Stopped, nextCaptureAt := None, cadenceReason := Some(CityNotAllowed));
      } else if changed && IsTrackable(te) {
        var c := ComputeCadence(now, te.timing, today, te.status, te.eventStatus, te.lastStateChangeAt, cfg.cadence);
        te := te.(nextCaptureAt := c.0, cadenceReason := Some(c.1));
      }
      events := events[e.value := te];
    }

    /** A targeted capture: insert or find the minute's job, then claim it. Of the requests within one minute
        only one wins, since the claim takes the found row only while it is pending. */
    method RequestCapture(key: EventKey, now: int, worker: string) returns (claimed: Option<nat>)
      modifies this`jobs
      ensures FindEvent(events, key).None? ==> claimed.None? && jobs == old(jobs)
      ensures FindEvent(events, key).Some? ==>
                var asked := InsertCaptureNow(old(Tables()), key, now);
                var row := FindJob(asked.jobs, key, CaptureNow(MinuteOf(now)));
                && row.Some? && Tables() == Claim(asked, row.value, now, worker, cfg)
                && claimed == if asked.jobs[row.value].status == Pending then row else None
    {
      var e := FindTracked(key);
      if e.None? {
        return None;
      }
      var j := 0;
      while j < |jobs| && !(jobs[j].key == key && jobs[j].window == CaptureNow(MinuteOf(now)))
        invariant 0 <= j <= |jobs|
        invariant forall k :: 0 <= k < j ==> jobs[k].key != key || jobs[k].window != CaptureNow(MinuteOf(now))
      {
        j := j + 1;
      }
      if j == |jobs| {
        jobs := jobs + [CaptureNowJob(events[e.value], now)];
      }
      assert FindJob(jobs, key, CaptureNow(MinuteOf(now))) == Some(j);
      var won := ClaimSpecific(j, now, worker);
      claimed := if won then Some(j) else None;
    }

    method ProcessClaimed(ids: seq<nat>, capture: nat -> CaptureOutcome, today: nat -> Option<int>, now: int)
      requires TableInv(Tables()) && Within(ids, |jobs|)
      modifies this
      ensures Tables() == CommitAll(old(Tables()), ids, capture, today, now, cfg)
    {
      ghost var batch := Tables();
      var i := 0;
      while i < |ids|
        invariant 0 <= i <= |ids| && TableInv(Tables()) && |jobs| == |batch.jobs|
        invariant CommitAll(batch, ids, capture, today, now, cfg) ==
                  CommitAll(Tables(), ids[i..], capture, today, now, cfg)
      {
        assert ids[i..][0] == ids[i] && ids[i..][1..] == ids[i + 1..];
        var j := ids[i];
        CommitKeepsTable(Tables(), j, capture(j), jobs[j].attemptCount, today(j), now, cfg);
        CommitCapture(j, capture(j), jobs[j].attemptCount, today(j), now);
        i := i + 1;
      }
    }

    /** One pass: recover, generate, claim, then process each claimed job. */
    method RunOnce(worker: string, now: int, limit: Option<int>, capture: nat -> CaptureOutcome, today: nat -> Option<int>)
      returns (recovered: nat, created: nat, claimed: seq<nat>)
      requires TableInv(Tables())
      modifies this
      ensures Tables() == Pass(old(Tables()), worker, now, LimitOf(limit, cfg), capture, today, cfg)
      ensures claimed == Claimed(old(Tables()), now, LimitOf(limit, cfg), cfg)
      ensures recovered == ExpiredCount(old(jobs), now) && created == |jobs| - |old(jobs)|
    {
      ClaimedBatchIsSound(Tables(), worker, now, LimitOf(limit, cfg), cfg);
      recovered := RecoverExpiredLocks(now);
      created := GenerateDueJobs(now);
      claimed := ClaimJobs(now, worker, LimitOf(limit, cfg));
      ProcessClaimed(claimed, capture, today, now);
    }
  }
}
