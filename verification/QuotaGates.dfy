/**
 * The spending gates over the quota rows: `can_spend`, the per-purpose search
 * slices, and what a run of gated spending can and cannot exceed.
 *
 * Fractions are reals, so `int(daily * fraction)` is exact truncation.
 */
module QuotaGates {
  import opened Options
  import opened Quota

  datatype Settings = Settings(
    dailyUnits: int, fractionRead: real, fractionBatch: real, targetUtilization: real,
    searchDailyCalls: int, maxSearchesPerDay: int, searchEnabled: bool,
    sliceUnresolved: real, sliceDiscovery: real, sliceAmbiguity: real, sliceReserve: real,
    allocationEnforced: bool, verifyTopN: nat)

  const UNRESOLVED := "unresolved"
  const DISCOVERY := "discovery"
  const AMBIGUITY := "ambiguity"

  // Python's int(): toward zero.
  function Truncate(x: real): int {
    if x >= 0.0 then x.Floor else -((-x).Floor)
  }

  function Share(total: int, fraction: real): int {
    Truncate(total as real * fraction)
  }

  function BucketBudget(cfg: Settings, b: Bucket): int {
    match b
    case Search => cfg.searchDailyCalls
    case GeneralRead => Share(cfg.dailyUnits, cfg.fractionRead)
    case VideoBatch => Share(cfg.dailyUnits, cfg.fractionBatch)
    case SearchFor(_) => Share(cfg.dailyUnits, 0.0)
  }

  function UsableUnits(cfg: Settings): int {
    Share(cfg.dailyUnits, cfg.targetUtilization)
  }

  function Slice(cfg: Settings, purpose: string): int {
    Share(cfg.searchDailyCalls,
          if purpose == UNRESOLVED then cfg.sliceUnresolved
          else if purpose == DISCOVERY then cfg.sliceDiscovery
          else if purpose == AMBIGUITY then cfg.sliceAmbiguity
          else 0.0)
  }

  function SearchReserve(cfg: Settings): int {
    Share(cfg.searchDailyCalls, cfg.sliceReserve)
  }

  predicate CanSpend(cfg: Settings, l: Ledger, b: Bucket, units: int) {
    if b == Search then SearchCalls(l) + units <= cfg.searchDailyCalls
    else if Row(l.rows, b).units + units > BucketBudget(cfg, b) then false
    else if GeneralUsed(l) + units > UsableUnits(cfg) then false
    else true
  }

  predicate CanSpendSearch(cfg: Settings, l: Ledger, purpose: string, units: int,
                           othersHaveBacklog: bool, nearReset: bool, highPriority: bool)
  {
    if !cfg.allocationEnforced then CanSpend(cfg, l, Search, units)
    else if !CanSpend(cfg, l, Search, units) then false
    else if !highPriority && !nearReset
            && SearchCalls(l) + units > cfg.searchDailyCalls - SearchReserve(cfg) then false
    else if PurposeCalls(l, purpose) + units <= Slice(cfg, purpose) then true
    else nearReset || !othersHaveBacklog
  }

  function Max(a: int, b: int): int {
    if a < b then b else a
  }

  // ---- Gated spending is bounded ----------------------------------------------------------------

  // Each spend passes the gate for at least what it records, before anything else is recorded.
  ghost predicate Gated(cfg: Settings, l: Ledger, calls: seq<QuotaCall>, checked: seq<int>)
    requires |calls| == |checked|
    decreases |calls|
  {
    calls == [] ||
    var last := |calls| - 1;
    && Gated(cfg, l, calls[..last], checked[..last])
    && Metered(calls[last])
    && (if calls[last].bucket == Search then 1 else calls[last].units) <= checked[last]
    && CanSpend(cfg, FoldAll(l, calls[..last]), calls[last].bucket, checked[last])
  }

  /**
   * However long the run, no bucket passes its budget and the general pool does not pass its
   * usable units, unless it already stood higher before the run.
   */
  lemma {:induction false} GatedSpendingIsBounded(cfg: Settings, l: Ledger, calls: seq<QuotaCall>, checked: seq<int>)
    requires |calls| == |checked| && Gated(cfg, l, calls, checked)
    ensures var end := FoldAll(l, calls);
            && SearchCalls(end) <= Max(SearchCalls(l), cfg.searchDailyCalls)
            && Row(end.rows, GeneralRead).units
               <= Max(Row(l.rows, GeneralRead).units, BucketBudget(cfg, GeneralRead))
            && Row(end.rows, VideoBatch).units
               <= Max(Row(l.rows, VideoBatch).units, BucketBudget(cfg, VideoBatch))
            && GeneralUsed(end) <= Max(GeneralUsed(l), UsableUnits(cfg))
    decreases |calls|
  {
    if calls != [] {
      var last := |calls| - 1;
      GatedSpendingIsBounded(cfg, l, calls[..last], checked[..last]);
      SpendMoves(FoldAll(l, calls[..last]), calls[last]);
    }
  }

  lemma SpendMoves(l: Ledger, c: QuotaCall)
    requires Metered(c)
    ensures var end := FoldCall(l, c);
            && SearchCalls(end) == SearchCalls(l) + (if c.bucket == Search then 1 else 0)
            && Row(end.rows, GeneralRead).units
               == Row(l.rows, GeneralRead).units + (if c.bucket == GeneralRead then c.units else 0)
            && Row(end.rows, VideoBatch).units
               == Row(l.rows, VideoBatch).units + (if c.bucket == VideoBatch then c.units else 0)
            && GeneralUsed(end) == GeneralUsed(l) + (if c.bucket == Search then 0 else c.units)
  {
    FoldRow(l.rows, c, Search);
    FoldRow(l.rows, c, GeneralRead);
    FoldRow(l.rows, c, VideoBatch);
    BumpPool(l.rows, c.bucket, c, true);
    if HasPurpose(c) {
      BumpPool(Bump(l.rows, c.bucket, c, true), SearchFor(c.purpose.value), c, false);
    }
  }

  /**
   * The gate grants a metered call exactly when the rows, once it is recorded, still fit: the calls of
   * the day for a search, and both the bucket's budget and the usable pool for a read or a batch.
   */
  lemma GrantedExactlyWhenItFits(cfg: Settings, l: Ledger, c: QuotaCall)
    requires Metered(c) && (c.bucket == Search ==> c.units == 1)
    ensures var end := FoldCall(l, c);
            CanSpend(cfg, l, c.bucket, c.units) <==>
              if c.bucket == Search then SearchCalls(end) <= cfg.searchDailyCalls
              else Row(end.rows, c.bucket).units <= BucketBudget(cfg, c.bucket) && GeneralUsed(end) <= UsableUnits(cfg)
  {
    SpendMoves(l, c);
  }

  // ---- Search slices ------------------------------------------------------------------------------

  // One step of a day: a search for a purpose, with the caller's flags, or any other metered call.
  datatype Spend = SearchSpend(purpose: string, ok: bool, quotaError: bool,
                               othersHaveBacklog: bool, nearReset: bool, highPriority: bool)
                 | OtherSpend(call: QuotaCall)

  function CallOf(s: Spend): QuotaCall {
    match s
    case SearchSpend(p, ok, err, _, _, _) => QuotaCall(SearchKind, Search, 1, ok, err, Some(p))
    case OtherSpend(c) => c
  }

  function LedgerAfter(run: seq<Spend>): Ledger
    decreases |run|
  {
    if run == [] then EMPTY else FoldCall(LedgerAfter(run[..|run| - 1]), CallOf(run[|run| - 1]))
  }

  predicate Granted(cfg: Settings, l: Ledger, s: Spend) {
    match s
    case SearchSpend(p, _, _, others, near, high) => CanSpendSearch(cfg, l, p, 1, others, near, high)
    case OtherSpend(c) => Metered(c) && !c.kind.SearchKind?
  }

  // Every search of the run was granted by the gate before it was recorded.
  ghost predicate GrantedRun(cfg: Settings, run: seq<Spend>)
    decreases |run|
  {
    run == [] ||
    (GrantedRun(cfg, run[..|run| - 1]) && Granted(cfg, LedgerAfter(run[..|run| - 1]), run[|run| - 1]))
  }

  // Nobody borrows: the other purposes always have backlog and the reset is not near.
  predicate Thrifty(s: Spend) {
    s.SearchSpend? ==> s.othersHaveBacklog && !s.nearReset
  }

  predicate Ordinary(s: Spend) {
    s.SearchSpend? ==> !s.highPriority && !s.nearReset
  }

  ghost predicate AllThrifty(run: seq<Spend>) {
    forall i :: 0 <= i < |run| ==> Thrifty(run[i])
  }

  ghost predicate AllOrdinary(run: seq<Spend>) {
    forall i :: 0 <= i < |run| ==> Ordinary(run[i])
  }

  predicate Known(purpose: string) {
    purpose == UNRESOLVED || purpose == DISCOVERY || purpose == AMBIGUITY
  }

  // The slices and the reserve are non-negative parts of one whole.
  predicate SlicesFit(cfg: Settings) {
    && cfg.searchDailyCalls >= 0
    && cfg.sliceUnresolved >= 0.0 && cfg.sliceDiscovery >= 0.0
    && cfg.sliceAmbiguity >= 0.0 && cfg.sliceReserve >= 0.0
    && cfg.sliceUnresolved + cfg.sliceDiscovery + cfg.sliceAmbiguity + cfg.sliceReserve <= 1.0
  }

  function AllSlices(cfg: Settings): int {
    Slice(cfg, UNRESOLVED) + Slice(cfg, DISCOVERY) + Slice(cfg, AMBIGUITY)
  }

  lemma ShareIsBelow(total: int, fraction: real)
    requires total >= 0 && fraction >= 0.0
    ensures 0 <= Share(total, fraction)
    ensures Share(total, fraction) as real <= total as real * fraction
  {
    assert total as real * fraction >= 0.0;
  }

  lemma FloorsAdd(x: real, y: real)
    requires x >= 0.0 && y >= 0.0
    ensures Truncate(x) + Truncate(y) <= Truncate(x + y)
  {
  }

  lemma SharesAdd(total: int, a: real, b: real)
    requires total >= 0 && a >= 0.0 && b >= 0.0
    ensures Share(total, a) + Share(total, b) <= Share(total, a + b)
  {
    var x, y := total as real * a, total as real * b;
    assert total as real * (a + b) == x + y;
    assert x >= 0.0 && y >= 0.0;
    FloorsAdd(x, y);
  }

  lemma ShareOfAll(total: int, part: real)
    requires total >= 0 && 0.0 <= part <= 1.0
    ensures Share(total, part) <= total
  {
    var t := total as real;
    assert t * (1.0 - part) >= 0.0;
    ShareIsBelow(total, part);
  }

  lemma SharesFit(total: int, a: real, b: real, c: real, d: real)
    requires total >= 0 && a >= 0.0 && b >= 0.0 && c >= 0.0 && d >= 0.0 && a + b + c + d <= 1.0
    ensures Share(total, a) + Share(total, b) + Share(total, c) + Share(total, d) <= total
  {
    SharesAdd(total, a, b);
    SharesAdd(total, a + b, c);
    SharesAdd(total, a + b + c, d);
    ShareOfAll(total, a + b + c + d);
  }

  lemma SlicesLeaveTheReserve(cfg: Settings)
    requires SlicesFit(cfg)
    ensures AllSlices(cfg) + SearchReserve(cfg) <= cfg.searchDailyCalls
    ensures SearchReserve(cfg) >= 0 && Slice(cfg, UNRESOLVED) >= 0
    ensures Slice(cfg, DISCOVERY) >= 0 && Slice(cfg, AMBIGUITY) >= 0
  {
    SharesFit(cfg.searchDailyCalls, cfg.sliceUnresolved, cfg.sliceDiscovery, cfg.sliceAmbiguity, cfg.sliceReserve);
    ShareIsBelow(cfg.searchDailyCalls, cfg.sliceUnresolved);
    ShareIsBelow(cfg.searchDailyCalls, cfg.sliceDiscovery);
    ShareIsBelow(cfg.searchDailyCalls, cfg.sliceAmbiguity);
    ShareIsBelow(cfg.searchDailyCalls, cfg.sliceReserve);
  }

  lemma OnlyKnownHaveSlices(cfg: Settings, purpose: string)
    ensures Slice(cfg, purpose) > 0 ==> Known(purpose)
  {
    assert cfg.searchDailyCalls as real * 0.0 == 0.0;
  }

  // What a run without borrowing keeps: nobody is past their slice and SEARCH holds nothing else.
  ghost predicate WithinSlices(cfg: Settings, l: Ledger) {
    && PurposeCalls(l, UNRESOLVED) <= Slice(cfg, UNRESOLVED)
    && PurposeCalls(l, DISCOVERY) <= Slice(cfg, DISCOVERY)
    && PurposeCalls(l, AMBIGUITY) <= Slice(cfg, AMBIGUITY)
    && SearchCalls(l) == PurposeCalls(l, UNRESOLVED) + PurposeCalls(l, DISCOVERY) + PurposeCalls(l, AMBIGUITY)
    && l.day.searchRequests == SearchCalls(l)
  }

  lemma SearchMoves(l: Ledger, s: Spend, q: string)
    requires s.SearchSpend? ==> s.purpose != ""
    requires s.OtherSpend? ==> Metered(s.call) && !s.call.kind.SearchKind?
    ensures var end := FoldCall(l, CallOf(s));
            && SearchCalls(end) == SearchCalls(l) + (if s.SearchSpend? then 1 else 0)
            && end.day.searchRequests == l.day.searchRequests + (if s.SearchSpend? then 1 else 0)
            && PurposeCalls(end, q) == PurposeCalls(l, q) + (if s.SearchSpend? && s.purpose == q then 1 else 0)
  {
    FoldRow(l.rows, CallOf(s), Search);
    FoldRow(l.rows, CallOf(s), SearchFor(q));
  }

  lemma SpendKeepsSlices(cfg: Settings, l: Ledger, s: Spend)
    requires SlicesFit(cfg) && cfg.allocationEnforced
    requires WithinSlices(cfg, l) && Granted(cfg, l, s) && Thrifty(s)
    ensures WithinSlices(cfg, FoldCall(l, CallOf(s)))
    ensures s.SearchSpend? ==> Known(s.purpose)
  {
    if s.SearchSpend? {
      OnlyKnownHaveSlices(cfg, s.purpose);
    }
    SearchMoves(l, s, UNRESOLVED);
    SearchMoves(l, s, DISCOVERY);
    SearchMoves(l, s, AMBIGUITY);
  }

  lemma {:induction false} ThriftyRunsKeepSlices(cfg: Settings, run: seq<Spend>)
    requires SlicesFit(cfg) && cfg.allocationEnforced
    requires GrantedRun(cfg, run) && AllThrifty(run)
    ensures WithinSlices(cfg, LedgerAfter(run))
    decreases |run|
  {
    if run == [] {
      SlicesLeaveTheReserve(cfg);
    } else {
      ThriftyRunsKeepSlices(cfg, run[..|run| - 1]);
      assert Thrifty(run[|run| - 1]);
      SpendKeepsSlices(cfg, LedgerAfter(run[..|run| - 1]), run[|run| - 1]);
    }
  }

  /**
   * Slices are starvation-free: after any day without borrowing, of whatever mix of purposes
   * and priorities, a non-borrowing search is granted exactly when its own slice has room.
   */
  lemma SlicesAreStarvationFree(cfg: Settings, run: seq<Spend>, purpose: string, highPriority: bool)
    requires SlicesFit(cfg) && cfg.allocationEnforced
    requires GrantedRun(cfg, run) && AllThrifty(run)
    ensures CanSpendSearch(cfg, LedgerAfter(run), purpose, 1, true, false, highPriority)
       <==> PurposeCalls(LedgerAfter(run), purpose) < Slice(cfg, purpose)
  {
    ThriftyRunsKeepSlices(cfg, run);
    SlicesLeaveTheReserve(cfg);
    OnlyKnownHaveSlices(cfg, purpose);
  }

  /** Ordinary searches away from the reset never eat the reserve, borrowing or not. */
  lemma {:induction false} OrdinarySearchesKeepTheReserve(cfg: Settings, run: seq<Spend>)
    requires SlicesFit(cfg) && cfg.allocationEnforced
    requires GrantedRun(cfg, run) && AllOrdinary(run)
    ensures SearchCalls(LedgerAfter(run)) <= cfg.searchDailyCalls - SearchReserve(cfg)
    decreases |run|
  {
    SlicesLeaveTheReserve(cfg);
    if run != [] {
      var s := run[|run| - 1];
      OrdinarySearchesKeepTheReserve(cfg, run[..|run| - 1]);
      assert Ordinary(s);
      FoldRow(LedgerAfter(run[..|run| - 1]).rows, CallOf(s), Search);
    }
  }

  /** Borrowing does starve: the claim needs "nobody borrows". */
  lemma BorrowingStarves()
    ensures exists cfg, run ::
              && SlicesFit(cfg) && cfg.allocationEnforced && GrantedRun(cfg, run) && AllOrdinary(run)
              && PurposeCalls(LedgerAfter(run), UNRESOLVED) < Slice(cfg, UNRESOLVED)
              && !CanSpendSearch(cfg, LedgerAfter(run), UNRESOLVED, 1, true, false, true)
  {
    var cfg := Settings(0, 0.0, 0.0, 0.0, 1, 1, true, 1.0, 0.0, 0.0, 0.0, true, 3);
    var s := SearchSpend(DISCOVERY, true, false, false, false, false);
    var run := [s];
    assert run[..0] == [];
    assert GrantedRun(cfg, []);
    assert Granted(cfg, EMPTY, s);
    assert LedgerAfter(run) == FoldCall(EMPTY, CallOf(s));
    SearchMoves(EMPTY, s, UNRESOLVED);
    assert AllOrdinary(run);
    assert GrantedRun(cfg, run);
    assert SlicesFit(cfg);
    assert cfg.searchDailyCalls as real * cfg.sliceUnresolved == 1.0;
    assert Slice(cfg, UNRESOLVED) == 1;
  }

  // ---- The operational cap sits on top of the slices ------------------------------------------------

  // `discover_identity_for_artist`: the slice gate, then the self-cap of `resolve_youtube`,
  // which reads the day aggregate. Refusal is QUOTA_EXHAUSTED, a deferral.
  predicate DiscoveryAdmitted(cfg: Settings, l: Ledger, purpose: string,
                              othersHaveBacklog: bool, nearReset: bool, highPriority: bool)
  {
    && CanSpendSearch(cfg, l, purpose, 1, othersHaveBacklog, nearReset, highPriority)
    && cfg.searchEnabled
    && l.day.searchRequests < cfg.maxSearchesPerDay
  }

  ghost predicate NeverStarves(cfg: Settings) {
    forall run, purpose :: GrantedRun(cfg, run) && AllThrifty(run)
                           && PurposeCalls(LedgerAfter(run), purpose) < Slice(cfg, purpose)
                           ==> DiscoveryAdmitted(cfg, LedgerAfter(run), purpose, true, false, false)
  }

  lemma OneMoreSearch(cfg: Settings, run: seq<Spend>, s: Spend)
    requires GrantedRun(cfg, run) && AllThrifty(run) && Thrifty(s) && Granted(cfg, LedgerAfter(run), s)
    requires s.SearchSpend? && s.purpose != ""
    ensures GrantedRun(cfg, run + [s]) && AllThrifty(run + [s])
    ensures SearchCalls(LedgerAfter(run + [s])) == SearchCalls(LedgerAfter(run)) + 1
  {
    var more := run + [s];
    assert more[..|more| - 1] == run;
    SearchMoves(LedgerAfter(run), s, s.purpose);
  }

  // While the slices are not all used up, someone is below theirs, and is granted.
  lemma {:induction false} SomeRunSpends(cfg: Settings, n: nat) returns (run: seq<Spend>)
    requires SlicesFit(cfg) && cfg.allocationEnforced && n <= AllSlices(cfg)
    ensures GrantedRun(cfg, run) && AllThrifty(run)
    ensures SearchCalls(LedgerAfter(run)) == n
  {
    if n == 0 {
      run := [];
    } else {
      var before := SomeRunSpends(cfg, n - 1);
      var p := PurposeWithRoom(cfg, before);
      SlicesAreStarvationFree(cfg, before, p, false);
      var s := SearchSpend(p, true, false, true, false, false);
      OneMoreSearch(cfg, before, s);
      run := before + [s];
    }
  }

  lemma PurposeWithRoom(cfg: Settings, run: seq<Spend>) returns (purpose: string)
    requires SlicesFit(cfg) && cfg.allocationEnforced
    requires GrantedRun(cfg, run) && AllThrifty(run)
    requires SearchCalls(LedgerAfter(run)) < AllSlices(cfg)
    ensures Known(purpose) && PurposeCalls(LedgerAfter(run), purpose) < Slice(cfg, purpose)
  {
    ThriftyRunsKeepSlices(cfg, run);
    var l := LedgerAfter(run);
    purpose := if PurposeCalls(l, UNRESOLVED) < Slice(cfg, UNRESOLVED) then UNRESOLVED
               else if PurposeCalls(l, DISCOVERY) < Slice(cfg, DISCOVERY) then DISCOVERY
               else AMBIGUITY;
  }

  /**
   * End to end, a purpose below its slice is always served exactly when searching is enabled
   * and the slices together fit under the operational cap. (The defaults, slices of 40 + 40 + 15
   * calls under a cap of 50, do not: see `DefaultsCanStarve`.)
   */
  lemma ServedExactlyWhenSlicesFitTheCap(cfg: Settings)
    requires SlicesFit(cfg) && cfg.allocationEnforced && AllSlices(cfg) > 0
    ensures NeverStarves(cfg) <==> cfg.searchEnabled && AllSlices(cfg) <= cfg.maxSearchesPerDay
  {
    if cfg.searchEnabled && AllSlices(cfg) <= cfg.maxSearchesPerDay {
      forall run, purpose | GrantedRun(cfg, run) && AllThrifty(run)
                            && PurposeCalls(LedgerAfter(run), purpose) < Slice(cfg, purpose)
        ensures DiscoveryAdmitted(cfg, LedgerAfter(run), purpose, true, false, false)
      {
        BelowSliceIsServed(cfg, run, purpose);
      }
    } else {
      var spent := if cfg.maxSearchesPerDay <= 0 || !cfg.searchEnabled then 0 else cfg.maxSearchesPerDay;
      var run := SomeRunSpends(cfg, spent);
      var purpose := PurposeWithRoom(cfg, run);
      ThriftyRunsKeepSlices(cfg, run);
      assert !DiscoveryAdmitted(cfg, LedgerAfter(run), purpose, true, false, false);
    }
  }

  lemma BelowSliceIsServed(cfg: Settings, run: seq<Spend>, purpose: string)
    requires SlicesFit(cfg) && cfg.allocationEnforced
    requires cfg.searchEnabled && AllSlices(cfg) <= cfg.maxSearchesPerDay
    requires GrantedRun(cfg, run) && AllThrifty(run)
    requires PurposeCalls(LedgerAfter(run), purpose) < Slice(cfg, purpose)
    ensures DiscoveryAdmitted(cfg, LedgerAfter(run), purpose, true, false, false)
  {
    SlicesAreStarvationFree(cfg, run, purpose, false);
    ThriftyRunsKeepSlices(cfg, run);
    OnlyKnownHaveSlices(cfg, purpose);
  }

  // The shipped defaults: 100 provider calls, slices 40% / 40% / 15%, reserve 5%, self-cap 50.
  const DEFAULTS := Settings(10000, 0.45, 0.15, 0.95, 100, 50, true, 0.40, 0.40, 0.15, 0.05, true, 3)

  lemma DefaultsCanStarve()
    ensures SlicesFit(DEFAULTS) && AllSlices(DEFAULTS) == 95
    ensures !NeverStarves(DEFAULTS)
  {
    assert Slice(DEFAULTS, UNRESOLVED) == 40;
    assert Slice(DEFAULTS, DISCOVERY) == 40;
    assert Slice(DEFAULTS, AMBIGUITY) == 15;
    ServedExactlyWhenSlicesFitTheCap(DEFAULTS);
  }
}
