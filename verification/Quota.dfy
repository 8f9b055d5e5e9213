/**
 * Provider quota accounting for one provider and one quota day: an in-memory
 * meter, the two sets of rows it is folded into, and the gates that read them.
 *
 * Rows are a table (`seq`), as the database holds them; an absent row reads as
 * zero. Bucket names are an injective datatype instead of "SEARCH:<purpose>" strings.
 */
module Quota {
  import opened Options

  datatype Bucket = Search | GeneralRead | VideoBatch | SearchFor(purpose: string)
  datatype Kind = SearchKind | ReadKind | VideoBatchKind

  datatype QuotaCall = QuotaCall(kind: Kind, bucket: Bucket, units: int,
                                 ok: bool, quotaError: bool, purpose: Option<string>)

  datatype BucketRow = BucketRow(bucket: Bucket, requests: nat, units: int,
                                 ok: nat, failed: nat, quotaErrors: nat)

  datatype DayRow = DayRow(requests: nat, searchRequests: nat, searchUnits: int, nonSearchUnits: int,
                           ok: nat, failed: nat, quotaErrors: nat)

  datatype Ledger = Ledger(day: DayRow, rows: seq<BucketRow>)

  const EMPTY_DAY := DayRow(0, 0, 0, 0, 0, 0, 0)
  const EMPTY := Ledger(EMPTY_DAY, [])

  // ---- Reading the rows ------------------------------------------------------------------------

  function Blank(b: Bucket): BucketRow {
    BucketRow(b, 0, 0, 0, 0, 0)
  }

  function Row(rows: seq<BucketRow>, b: Bucket): (r: BucketRow)
    ensures r.bucket == b
    decreases |rows|
  {
    if rows == [] then Blank(b)
    else if rows[0].bucket == b then rows[0]
    else Row(rows[1..], b)
  }

  // The unique index on (provider, quota_date, bucket).
  ghost predicate UniqueRows(rows: seq<BucketRow>) {
    forall i, j :: 0 <= i < j < |rows| ==> rows[i].bucket != rows[j].bucket
  }

  predicate InGeneralPool(b: Bucket) {
    b == GeneralRead || b == VideoBatch
  }

  // `general_used`: the SQL sum over the rows of the general pool.
  function PoolUnits(rows: seq<BucketRow>): int
    decreases |rows|
  {
    if rows == [] then 0
    else (if InGeneralPool(rows[0].bucket) then rows[0].units else 0) + PoolUnits(rows[1..])
  }

  function GeneralUsed(l: Ledger): int {
    PoolUnits(l.rows)
  }

  function SearchCalls(l: Ledger): nat {
    Row(l.rows, Search).requests
  }

  function PurposeCalls(l: Ledger, purpose: string): nat {
    Row(l.rows, SearchFor(purpose)).requests
  }

  // ---- Folding a meter in -----------------------------------------------------------------------

  predicate HasPurpose(c: QuotaCall) {
    c.kind.SearchKind? && c.purpose.Some? && c.purpose.value != ""
  }

  function Charge(r: BucketRow, c: QuotaCall, countErrors: bool): BucketRow {
    BucketRow(r.bucket, r.requests + 1, r.units + c.units,
              r.ok + (if c.ok then 1 else 0), r.failed + (if c.ok then 0 else 1),
              r.quotaErrors + (if countErrors && c.quotaError then 1 else 0))
  }

  function Bump(rows: seq<BucketRow>, b: Bucket, c: QuotaCall, countErrors: bool): seq<BucketRow>
    decreases |rows|
  {
    if rows == [] then [Charge(Blank(b), c, countErrors)]
    else if rows[0].bucket == b then [Charge(rows[0], c, countErrors)] + rows[1..]
    else [rows[0]] + Bump(rows[1..], b, c, countErrors)
  }

  function FoldDay(d: DayRow, c: QuotaCall): DayRow {
    DayRow(d.requests + 1,
           d.searchRequests + (if c.kind.SearchKind? then 1 else 0),
           d.searchUnits + (if c.kind.SearchKind? then c.units else 0),
           d.nonSearchUnits + (if c.kind.SearchKind? then 0 else c.units),
           d.ok + (if c.ok then 1 else 0), d.failed + (if c.ok then 0 else 1),
           d.quotaErrors + (if c.quotaError then 1 else 0))
  }

  function FoldRows(rows: seq<BucketRow>, c: QuotaCall): seq<BucketRow> {
    var charged := Bump(rows, c.bucket, c, true);
    if HasPurpose(c) then Bump(charged, SearchFor(c.purpose.value), c, false) else charged
  }

  function FoldCall(l: Ledger, c: QuotaCall): Ledger {
    Ledger(FoldDay(l.day, c), FoldRows(l.rows, c))
  }

  function FoldAll(l: Ledger, calls: seq<QuotaCall>): Ledger
    decreases |calls|
  {
    if calls == [] then l
    else FoldCall(FoldAll(l, calls[..|calls| - 1]), calls[|calls| - 1])
  }

  lemma {:induction false} FoldAllConcat(l: Ledger, a: seq<QuotaCall>, b: seq<QuotaCall>)
    ensures FoldAll(l, a + b) == FoldAll(FoldAll(l, a), b)
    decreases |b|
  {
    if b == [] {
      assert a + b == a;
    } else {
      FoldAllConcat(l, a, b[..|b| - 1]);
      assert (a + b)[..|a + b| - 1] == a + b[..|b| - 1];
    }
  }

  lemma {:induction false} BumpRow(rows: seq<BucketRow>, b: Bucket, c: QuotaCall, e: bool, q: Bucket)
    ensures Row(Bump(rows, b, c, e), q) == if q == b then Charge(Row(rows, b), c, e) else Row(rows, q)
    decreases |rows|
  {
    if rows != [] && rows[0].bucket != b {
      BumpRow(rows[1..], b, c, e, q);
      assert ([rows[0]] + Bump(rows[1..], b, c, e))[1..] == Bump(rows[1..], b, c, e);
    } else if rows != [] {
      assert Bump(rows, b, c, e)[1..] == rows[1..];
    }
  }

  // The table stays keyed, and its general-pool sum moves exactly by what was charged there.
  lemma {:induction false} BumpPool(rows: seq<BucketRow>, b: Bucket, c: QuotaCall, e: bool)
    ensures PoolUnits(Bump(rows, b, c, e)) == PoolUnits(rows) + if InGeneralPool(b) then c.units else 0
    decreases |rows|
  {
    if rows != [] && rows[0].bucket != b {
      BumpPool(rows[1..], b, c, e);
      assert ([rows[0]] + Bump(rows[1..], b, c, e))[1..] == Bump(rows[1..], b, c, e);
    } else if rows != [] {
      assert Bump(rows, b, c, e)[1..] == rows[1..];
    }
  }

  lemma {:induction false} BumpUnique(rows: seq<BucketRow>, b: Bucket, c: QuotaCall, e: bool)
    requires UniqueRows(rows)
    ensures UniqueRows(Bump(rows, b, c, e))
    ensures forall r :: r in Bump(rows, b, c, e) ==> r.bucket == b || exists s :: s in rows && s.bucket == r.bucket
    decreases |rows|
  {
    if rows != [] && rows[0].bucket != b {
      var rest := rows[1..];
      BumpUnique(rest, b, c, e);
      var bumped := Bump(rest, b, c, e);
      forall r | r in [rows[0]] + bumped
        ensures r.bucket == b || exists s :: s in rows && s.bucket == r.bucket
      {
        if r in bumped && r.bucket != b {
          var s :| s in rest && s.bucket == r.bucket;
          assert s in rows;
        }
      }
      forall r | r in bumped ensures r.bucket != rows[0].bucket {
        if r.bucket != b {
          var s :| s in rest && s.bucket == r.bucket;
          var i :| 0 <= i < |rest| && rest[i] == s;
          assert rows[i + 1] == s;
        }
      }
    } else if rows != [] {
      forall r | r in Bump(rows, b, c, e)
        ensures r.bucket == b || exists s :: s in rows && s.bucket == r.bucket
      {
        if r.bucket != b {
          assert r in rows;
        }
      }
    }
  }

  lemma {:induction false} NoRowNoUnits(rows: seq<BucketRow>, b: Bucket)
    requires forall r :: r in rows ==> r.bucket != b
    ensures Row(rows, b) == Blank(b)
    decreases |rows|
  {
    if rows != [] {
      assert rows[0] in rows;
      NoRowNoUnits(rows[1..], b);
    }
  }

  /** `reconciles`: over a keyed table the general-pool sum is exactly the two bucket readings. */
  lemma {:induction false} PoolReconciles(rows: seq<BucketRow>)
    requires UniqueRows(rows)
    ensures PoolUnits(rows) == Row(rows, GeneralRead).units + Row(rows, VideoBatch).units
    decreases |rows|
  {
    if rows != [] {
      var rest := rows[1..];
      PoolReconciles(rest);
      forall r | r in rest ensures r.bucket != rows[0].bucket {
        var i :| 0 <= i < |rest| && rest[i] == r;
        assert rows[i + 1] == r;
      }
      NoRowNoUnits(rest, rows[0].bucket);
    }
  }

  // ---- What the rows mean: the log of calls -----------------------------------------------------

  // The three metering entry points: the bucket is the one of the kind, so "SEARCH:<purpose>"
  // is never charged directly, and only a search carries a purpose.
  predicate Metered(c: QuotaCall) {
    match c.kind
    case SearchKind => c.bucket == Search
    case ReadKind => c.bucket == GeneralRead
    case VideoBatchKind => c.bucket == VideoBatch
  }

  ghost predicate AllMetered(log: seq<QuotaCall>) {
    forall i :: 0 <= i < |log| ==> Metered(log[i])
  }

  predicate ChargedTo(c: QuotaCall, b: Bucket) {
    c.bucket == b || (HasPurpose(c) && b == SearchFor(c.purpose.value))
  }

  function Charged(log: seq<QuotaCall>, b: Bucket): seq<QuotaCall>
    decreases |log|
  {
    if log == [] then []
    else
      var before := Charged(log[..|log| - 1], b);
      if ChargedTo(log[|log| - 1], b) then before + [log[|log| - 1]] else before
  }

  function Units(calls: seq<QuotaCall>): int
    decreases |calls|
  {
    if calls == [] then 0 else Units(calls[..|calls| - 1]) + calls[|calls| - 1].units
  }

  function Successes(calls: seq<QuotaCall>): nat
    decreases |calls|
  {
    if calls == [] then 0
    else Successes(calls[..|calls| - 1]) + if calls[|calls| - 1].ok then 1 else 0
  }

  function Errors(calls: seq<QuotaCall>): nat
    decreases |calls|
  {
    if calls == [] then 0
    else Errors(calls[..|calls| - 1]) + if calls[|calls| - 1].quotaError then 1 else 0
  }

  ghost predicate RowIs(r: BucketRow, calls: seq<QuotaCall>) {
    && r.requests == |calls|
    && r.units == Units(calls)
    && r.ok == Successes(calls)
    && r.ok + r.failed == r.requests
    && r.quotaErrors == if r.bucket.SearchFor? then 0 else Errors(calls)
  }

  lemma ChargeRowIs(r: BucketRow, calls: seq<QuotaCall>, c: QuotaCall)
    requires RowIs(r, calls)
    ensures RowIs(Charge(r, c, !r.bucket.SearchFor?), calls + [c])
  {
  }

  lemma FoldRow(rows: seq<BucketRow>, c: QuotaCall, b: Bucket)
    requires Metered(c)
    ensures Row(FoldRows(rows, c), b)
         == if ChargedTo(c, b) then Charge(Row(rows, b), c, !b.SearchFor?) else Row(rows, b)
  {
    BumpRow(rows, c.bucket, c, true, b);
    if HasPurpose(c) {
      BumpRow(Bump(rows, c.bucket, c, true), SearchFor(c.purpose.value), c, false, b);
    }
  }

  lemma FoldKeepsTable(rows: seq<BucketRow>, c: QuotaCall)
    requires UniqueRows(rows)
    ensures UniqueRows(FoldRows(rows, c))
  {
    BumpUnique(rows, c.bucket, c, true);
    if HasPurpose(c) {
      BumpUnique(Bump(rows, c.bucket, c, true), SearchFor(c.purpose.value), c, false);
    }
  }

  /** Every bucket row, sub-buckets included, is exactly the account of the calls charged to it. */
  lemma {:induction false} EveryRowIsItsCalls(log: seq<QuotaCall>, b: Bucket)
    requires AllMetered(log)
    ensures RowIs(Row(FoldAll(EMPTY, log).rows, b), Charged(log, b))
    ensures UniqueRows(FoldAll(EMPTY, log).rows)
    decreases |log|
  {
    if log != [] {
      var before := log[..|log| - 1];
      var c := log[|log| - 1];
      assert Metered(c);
      EveryRowIsItsCalls(before, b);
      FoldRow(FoldAll(EMPTY, before).rows, c, b);
      FoldKeepsTable(FoldAll(EMPTY, before).rows, c);
      ChargeRowIs(Row(FoldAll(EMPTY, before).rows, b), Charged(before, b), c);
    }
  }

  /** The legacy per-day aggregate is the same account, summed differently. */
  lemma {:induction false} DayIsTheLog(log: seq<QuotaCall>)
    requires AllMetered(log)
    ensures var l := FoldAll(EMPTY, log);
            && l.day.requests == |log|
            && l.day.searchRequests == SearchCalls(l)
            && l.day.searchUnits == Row(l.rows, Search).units
            && l.day.nonSearchUnits == GeneralUsed(l)
            && l.day.ok + l.day.failed == l.day.requests
            && l.day.ok == Successes(log) && l.day.quotaErrors == Errors(log)
    decreases |log|
  {
    if log != [] {
      var before := log[..|log| - 1];
      var c := log[|log| - 1];
      assert Metered(c);
      var l := FoldAll(EMPTY, before);
      DayIsTheLog(before);
      FoldRow(l.rows, c, Search);
      BumpPool(l.rows, c.bucket, c, true);
      if HasPurpose(c) {
        BumpPool(Bump(l.rows, c.bucket, c, true), SearchFor(c.purpose.value), c, false);
      }
    }
  }

  function SumPurposes(l: Ledger, purposes: seq<string>): nat
    decreases |purposes|
  {
    if purposes == [] then 0 else PurposeCalls(l, purposes[0]) + SumPurposes(l, purposes[1..])
  }

  ghost predicate Distinct(purposes: seq<string>) {
    forall i, j :: 0 <= i < j < |purposes| ==> purposes[i] != purposes[j]
  }

  // Searches that no sub-bucket of `purposes` accounts for.
  function Unattributed(log: seq<QuotaCall>, purposes: seq<string>): nat
    decreases |log|
  {
    if log == [] then 0
    else
      var c := log[|log| - 1];
      Unattributed(log[..|log| - 1], purposes)
      + if c.kind.SearchKind? && !(HasPurpose(c) && c.purpose.value in purposes) then 1 else 0
  }

  lemma {:induction false} FoldSumsPurposes(l: Ledger, c: QuotaCall, purposes: seq<string>)
    requires Metered(c) && Distinct(purposes)
    ensures SumPurposes(FoldCall(l, c), purposes)
         == SumPurposes(l, purposes) + if HasPurpose(c) && c.purpose.value in purposes then 1 else 0
    decreases |purposes|
  {
    if purposes != [] {
      FoldRow(l.rows, c, SearchFor(purposes[0]));
      FoldSumsPurposes(l, c, purposes[1..]);
      assert forall q :: q in purposes <==> q == purposes[0] || q in purposes[1..];
    }
  }

  /**
   * Purpose sub-buckets are an overlay on SEARCH: over any distinct purposes they add up to the
   * SEARCH calls less the unattributed ones, so never to more, and to all of them exactly
   * when every search carries one of those purposes.
   */
  lemma {:induction false} PurposesSplitSearch(log: seq<QuotaCall>, purposes: seq<string>)
    requires AllMetered(log) && Distinct(purposes)
    ensures var l := FoldAll(EMPTY, log);
            SumPurposes(l, purposes) + Unattributed(log, purposes) == SearchCalls(l)
    decreases |log|
  {
    if log == [] {
      NothingSpent(purposes);
    } else {
      var before := log[..|log| - 1];
      var c := log[|log| - 1];
      assert Metered(c);
      var l := FoldAll(EMPTY, before);
      PurposesSplitSearch(before, purposes);
      FoldSumsPurposes(l, c, purposes);
      FoldRow(l.rows, c, Search);
    }
  }

  lemma {:induction false} NothingSpent(purposes: seq<string>)
    ensures SumPurposes(EMPTY, purposes) == 0
    decreases |purposes|
  {
    if purposes != [] {
      NothingSpent(purposes[1..]);
    }
  }

  /** Quota conservation, in one statement. */
  lemma BooksBalance(log: seq<QuotaCall>, purposes: seq<string>, b: Bucket)
    requires AllMetered(log) && Distinct(purposes)
    ensures var l := FoldAll(EMPTY, log);
            && l.day.requests == |log|
            && l.day.searchRequests == SearchCalls(l) == |Charged(log, Search)|
            && l.day.nonSearchUnits == GeneralUsed(l)
            && GeneralUsed(l) == Row(l.rows, GeneralRead).units + Row(l.rows, VideoBatch).units
            && SumPurposes(l, purposes) <= SearchCalls(l)
            && l.day.ok + l.day.failed == l.day.requests
            && Row(l.rows, b).ok + Row(l.rows, b).failed == Row(l.rows, b).requests
  {
    DayIsTheLog(log);
    EveryRowIsItsCalls(log, Search);
    EveryRowIsItsCalls(log, b);
    PoolReconciles(FoldAll(EMPTY, log).rows);
    PurposesSplitSearch(log, purposes);
  }

  // ---- Many meters over one set of rows ---------------------------------------------------------

  datatype MeterStep = Make(meter: nat, call: QuotaCall) | Record(meter: nat)

  datatype Books = Books(ledger: Ledger, pending: map<nat, seq<QuotaCall>>,
                         made: seq<(nat, QuotaCall)>, recorded: seq<(nat, QuotaCall)>)

  function Pending(s: Books, m: nat): seq<QuotaCall> {
    if m in s.pending then s.pending[m] else []
  }

  function Tagged(m: nat, calls: seq<QuotaCall>): (t: seq<(nat, QuotaCall)>)
    ensures |t| == |calls|
  {
    seq(|calls|, i requires 0 <= i < |calls| => (m, calls[i]))
  }

  function Untagged(log: seq<(nat, QuotaCall)>): (t: seq<QuotaCall>)
    ensures |t| == |log|
  {
    seq(|log|, i requires 0 <= i < |log| => log[i].1)
  }

  function Next(s: Books, step: MeterStep): Books {
    match step
    case Make(m, c) =>
      s.(pending := s.pending[m := Pending(s, m) + [c]], made := s.made + [(m, c)])
    case Record(m) =>
      Books(FoldAll(s.ledger, Pending(s, m)), s.pending[m := []], s.made,
            s.recorded + Tagged(m, Pending(s, m)))
  }

  function RunMeters(s: Books, steps: seq<MeterStep>): Books
    decreases |steps|
  {
    if steps == [] then s
    else Next(RunMeters(s, steps[..|steps| - 1]), steps[|steps| - 1])
  }

  function OfMeter(log: seq<(nat, QuotaCall)>, m: nat): seq<QuotaCall>
    decreases |log|
  {
    if log == [] then []
    else
      var rest := OfMeter(log[..|log| - 1], m);
      if log[|log| - 1].0 == m then rest + [log[|log| - 1].1] else rest
  }

  lemma {:induction false} OfMeterConcat(a: seq<(nat, QuotaCall)>, b: seq<(nat, QuotaCall)>, m: nat)
    ensures OfMeter(a + b, m) == OfMeter(a, m) + OfMeter(b, m)
    decreases |b|
  {
    if b == [] {
      assert a + b == a;
    } else {
      OfMeterConcat(a, b[..|b| - 1], m);
      assert (a + b)[..|a + b| - 1] == a + b[..|b| - 1];
    }
  }

  lemma {:induction false} OfMeterTagged(m: nat, calls: seq<QuotaCall>, q: nat)
    ensures OfMeter(Tagged(m, calls), q) == if q == m then calls else []
    decreases |calls|
  {
    if calls != [] {
      OfMeterTagged(m, calls[..|calls| - 1], q);
      assert Tagged(m, calls)[..|calls| - 1] == Tagged(m, calls[..|calls| - 1]);
    }
  }

  ghost predicate Accounted(s: Books, m: nat) {
    && s.ledger == FoldAll(EMPTY, Untagged(s.recorded))
    && OfMeter(s.made, m) == OfMeter(s.recorded, m) + Pending(s, m)
  }

  lemma MakeKeepsAccounts(s: Books, q: nat, c: QuotaCall, m: nat)
    requires Accounted(s, m)
    ensures Accounted(Next(s, Make(q, c)), m)
  {
  }

  lemma RecordKeepsAccounts(s: Books, q: nat, m: nat)
    requires Accounted(s, m)
    ensures Accounted(Next(s, Record(q)), m)
  {
    var calls := Pending(s, q);
    var moved := Tagged(q, calls);
    FoldAllConcat(EMPTY, Untagged(s.recorded), calls);
    assert Untagged(s.recorded + moved) == Untagged(s.recorded) + calls;
    OfMeterConcat(s.recorded, moved, m);
    OfMeterTagged(q, calls, m);
  }

  /**
   * Any number of meters, recorded at any time and any number of times: the rows are the
   * fold of the recorded calls, and each meter's calls were recorded once, in order, or are
   * still in the meter.
   */
  lemma {:induction false} EachCallIsCountedOnce(steps: seq<MeterStep>, m: nat)
    ensures Accounted(RunMeters(Books(EMPTY, map[], [], []), steps), m)
    decreases |steps|
  {
    if steps != [] {
      EachCallIsCountedOnce(steps[..|steps| - 1], m);
      var s := RunMeters(Books(EMPTY, map[], [], []), steps[..|steps| - 1]);
      match steps[|steps| - 1]
      case Make(q, c) => MakeKeepsAccounts(s, q, c, m);
      case Record(q) => RecordKeepsAccounts(s, q, m);
    }
  }

  // ---- The tables and the meter as the code updates them ----------------------------------------

  /** `QuotaMeter`: only its three entry points append, so every call is `Metered`. */
  class QuotaMeter {
    var calls: seq<QuotaCall>

    constructor ()
      ensures calls == []
    {
      calls := [];
    }

    method Read(units: int, ok: bool)
      modifies this
      ensures calls == old(calls) + [QuotaCall(ReadKind, GeneralRead, units, ok, false, None)]
      ensures Metered(calls[|calls| - 1])
    {
      calls := calls + [QuotaCall(ReadKind, GeneralRead, units, ok, false, None)];
    }

    method SearchCall(ok: bool, quotaError: bool, purpose: Option<string>)
      modifies this
      ensures calls == old(calls) + [QuotaCall(SearchKind, Search, 1, ok, quotaError, purpose)]
      ensures Metered(calls[|calls| - 1])
    {
      calls := calls + [QuotaCall(SearchKind, Search, 1, ok, quotaError, purpose)];
    }

    method VideoBatchCall(units: int, ok: bool)
      modifies this
      ensures calls == old(calls) + [QuotaCall(VideoBatchKind, VideoBatch, units, ok, false, None)]
      ensures Metered(calls[|calls| - 1])
    {
      calls := calls + [QuotaCall(VideoBatchKind, VideoBatch, units, ok, false, None)];
    }

    method Drain() returns (out: seq<QuotaCall>)
      modifies this
      ensures out == old(calls) && calls == []
    {
      out := calls;
      calls := [];
    }
  }

  function IndexOf(rows: seq<BucketRow>, b: Bucket): (i: nat)
    ensures i <= |rows|
    ensures i < |rows| ==> rows[i].bucket == b
    ensures forall k :: 0 <= k < i ==> rows[k].bucket != b
    decreases |rows|
  {
    if rows == [] || rows[0].bucket == b then 0 else 1 + IndexOf(rows[1..], b)
  }

  lemma {:induction false} BumpAtIndex(rows: seq<BucketRow>, b: Bucket, c: QuotaCall, e: bool)
    ensures IndexOf(rows, b) < |rows| ==>
              Bump(rows, b, c, e) == rows[IndexOf(rows, b) := Charge(rows[IndexOf(rows, b)], c, e)]
    ensures IndexOf(rows, b) == |rows| ==> Bump(rows, b, c, e) == rows + [Charge(Blank(b), c, e)]
    decreases |rows|
  {
    if rows != [] && rows[0].bucket != b {
      BumpAtIndex(rows[1..], b, c, e);
    }
  }

  /** The quota tables of one provider day. */
  class QuotaTables {
    var day: DayRow
    var rows: seq<BucketRow>

    function State(): Ledger
      reads this
    {
      Ledger(day, rows)
    }

    constructor ()
      ensures State() == EMPTY
    {
      day := EMPTY_DAY;
      rows := [];
    }

    // Finds the bucket's row, inserting a blank one when there is none.
    method GetOrCreateBucket(b: Bucket) returns (i: nat)
      modifies this`rows
      ensures i == old(IndexOf(rows, b)) && i < |rows|
      ensures rows == old(if IndexOf(rows, b) < |rows| then rows else rows + [Blank(b)])
    {
      i := 0;
      while i < |rows| && rows[i].bucket != b
        invariant 0 <= i <= |rows|
        invariant forall k :: 0 <= k < i ==> rows[k].bucket != b
      {
        i := i + 1;
      }
      if i == |rows| {
        rows := rows + [Blank(b)];
      }
    }

    method ChargeBucket(b: Bucket, c: QuotaCall, countErrors: bool)
      modifies this`rows
      ensures rows == Bump(old(rows), b, c, countErrors)
    {
      BumpAtIndex(rows, b, c, countErrors);
      var i := GetOrCreateBucket(b);
      rows := rows[i := Charge(rows[i], c, countErrors)];
    }

    /** `record_meter`: drains the meter and folds every call into both sets of rows. */
    method RecordMeter(meter: QuotaMeter)
      modifies this, meter
      ensures meter.calls == []
      ensures State() == FoldAll(old(State()), old(meter.calls))
    {
      var calls := meter.Drain();
      for k := 0 to |calls|
        invariant meter.calls == []
        invariant State() == FoldAll(old(State()), calls[..k])
      {
        assert calls[..k + 1][..|calls[..k + 1]| - 1] == calls[..k];
        var c := calls[k];
        day := FoldDay(day, c);
        ChargeBucket(c.bucket, c, true);
        if HasPurpose(c) {
          ChargeBucket(SearchFor(c.purpose.value), c, false);
        }
      }
      assert calls[..|calls|] == calls;
    }
  }
}
