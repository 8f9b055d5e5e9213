/**
 * Content movement: a video's current view velocity against the median of its artist's other videos of
 * a comparable age. Velocities are reals and instants are seconds, so nothing here rounds.
 */
module Movement {
  import opened Options

  datatype Point = Point(at: real, value: real)
  type Series = seq<Point>

  datatype Thresholds = Thresholds(
    recentWindowHours: real, minSeparationHours: real, minObservations: int, minBaselineSample: int,
    risingRatio: real, breakoutRatio: real, breakoutAccelRatio: real, coolingRatio: real,
    breakoutMaxAgeHours: real, ageBuckets: seq<real>, minChannels: int)
  {
    // A velocity is never taken over an empty span.
    predicate Sane() {
      minSeparationHours > 0.0
    }
  }

  function Hours(a: real, b: real): real {
    (b - a) / 3600.0
  }

  // ---- Velocity over a window ---------------------------------------------------------------------------

  datatype Velocity = Velocity(perHour: real, points: nat, span: real)

  function Within(series: Series, start: real, end: real): Series
    decreases |series|
  {
    if series == [] then []
    else
      var rest := Within(series[..|series| - 1], start, end);
      var p := series[|series| - 1];
      if start <= p.at <= end then rest + [p] else rest
  }

  // Views per hour from the first point to the last.
  function Slope(cfg: Thresholds, pts: Series): Option<Velocity>
    requires cfg.Sane()
  {
    if |pts| < 2 then None
    else
      var span := Hours(pts[0].at, pts[|pts| - 1].at);
      if span < cfg.minSeparationHours then None
      else Some(Velocity((pts[|pts| - 1].value - pts[0].value) / span, |pts|, span))
  }

  function WindowEnd(cfg: Thresholds, now: real, offset: nat): real {
    now - offset as real * cfg.recentWindowHours * 3600.0
  }

  function WindowStart(cfg: Thresholds, end: real): real {
    end - cfg.recentWindowHours * 3600.0
  }

  function WindowVelocity(cfg: Thresholds, series: Series, now: real, offset: nat): Option<Velocity>
    requires cfg.Sane()
  {
    var end := WindowEnd(cfg, now, offset);
    var start := WindowStart(cfg, end);
    Slope(cfg, Within(series, start, end))
  }

  // ---- Median ----------------------------------------------------------------------------------------------

  function Insert(x: real, sorted: seq<real>): seq<real>
    decreases |sorted|
  {
    if sorted == [] || x <= sorted[0] then [x] + sorted else [sorted[0]] + Insert(x, sorted[1..])
  }

  function Sorted(values: seq<real>): (s: seq<real>)
    ensures |s| == |values|
    decreases |values|
  {
    if values == [] then []
    else
      InsertAdds(values[0], Sorted(values[1..]));
      Insert(values[0], Sorted(values[1..]))
  }

  lemma {:induction false} InsertAdds(x: real, sorted: seq<real>)
    ensures |Insert(x, sorted)| == |sorted| + 1
    decreases |sorted|
  {
    if sorted != [] && x > sorted[0] {
      InsertAdds(x, sorted[1..]);
    }
  }

  function Median(values: seq<real>): Option<real> {
    if values == [] then None
    else Some(Middle(Sorted(values)))
  }

  function Middle(s: seq<real>): real
    requires s != []
  {
    var n := |s|;
    if n % 2 == 1 then s[n / 2] else (s[n / 2 - 1] + s[n / 2]) / 2.0
  }

  // ---- Classification -----------------------------------------------------------------------------------------

  datatype State = INSUFFICIENT_HISTORY | NORMAL | RISING | BREAKOUT_CANDIDATE | COOLING
  datatype Evidence = TOO_FEW_OBSERVATIONS | NO_BASELINE | SUFFICIENT

  datatype Video = Video(id: string, publishedAt: Option<real>, owned: bool, channel: Option<string>)

  datatype Verdict = Verdict(state: State, evidence: Evidence, cohortSize: nat,
                             current: Option<real>, ratio: Option<real>, acceleration: Option<real>)

  function Rate(v: Option<Velocity>): Option<real> {
    match v case Some(x) => Some(x.perHour) case None => None
  }

  function Ratio(cfg: Thresholds, current: Option<real>, cohort: seq<real>): Option<real> {
    var median := Median(cohort);
    if median.Some? && |cohort| >= cfg.minBaselineSample && median.value > 0.0 && current.Some?
    then Some(current.value / median.value) else None
  }

  function Acceleration(current: Option<real>, prior: Option<real>): Option<real> {
    if current.Some? && prior.Some? && prior.value != 0.0 then Some(current.value / prior.value) else None
  }

  // The order matters: a breakout also rises, and rising is never reported as cooling.
  function Judge(cfg: Thresholds, age: Option<real>, ratio: Option<real>, accel: Option<real>,
                 prior: Option<real>): (State, Evidence)
  {
    var young := age.Some? && age.value <= cfg.breakoutMaxAgeHours;
    if young && ratio.Some? && ratio.value >= cfg.breakoutRatio && accel.Some? && accel.value >= cfg.breakoutAccelRatio
    then (BREAKOUT_CANDIDATE, SUFFICIENT)
    else if ratio.Some? && ratio.value >= cfg.risingRatio then (RISING, SUFFICIENT)
    else if accel.Some? && accel.value <= cfg.coolingRatio && prior.Some? && prior.value > 0.0 then (COOLING, SUFFICIENT)
    else if ratio.None? then (INSUFFICIENT_HISTORY, NO_BASELINE)
    else (NORMAL, SUFFICIENT)
  }

  function Age(v: Video, now: real): Option<real> {
    match v.publishedAt case Some(t) => Some(Hours(t, now)) case None => None
  }

  function VideoMovement(cfg: Thresholds, v: Video, views: Series, cohort: seq<real>, now: real): Verdict
    requires cfg.Sane()
  {
    var span := if |views| >= 2 then Hours(views[0].at, views[|views| - 1].at) else 0.0;
    if |views| < cfg.minObservations || span < cfg.minSeparationHours then
      Verdict(INSUFFICIENT_HISTORY, TOO_FEW_OBSERVATIONS, 0, None, None, None)
    else
      var current := Rate(WindowVelocity(cfg, views, now, 0));
      var prior := Rate(WindowVelocity(cfg, views, now, 1));
      var ratio := Ratio(cfg, current, cohort);
      var accel := Acceleration(current, prior);
      var (state, evidence) := Judge(cfg, Age(v, now), ratio, accel, prior);
      Verdict(state, evidence, |cohort|, current, ratio, accel)
  }

  // ---- Cohorts ---------------------------------------------------------------------------------------------------

  // The first bound above the age; the last bucket is open.
  function AgeBucket(bounds: seq<real>, age: real): (i: nat)
    ensures i <= |bounds|
    ensures forall k :: 0 <= k < i ==> age >= bounds[k]
    ensures i < |bounds| ==> age < bounds[i]
    decreases |bounds|
  {
    if bounds == [] || age < bounds[0] then 0 else 1 + AgeBucket(bounds[1..], age)
  }

  function Label(cfg: Thresholds, v: Video, now: real): Option<nat> {
    match Age(v, now) case Some(age) => Some(AgeBucket(cfg.ageBuckets, age)) case None => None
  }

  type Views = map<string, Series>

  function ViewsOf(views: Views, id: string): Series {
    if id in views then views[id] else []
  }

  // A video's entry in the baselines, if it has a publication date and a current velocity.
  function Entry(cfg: Thresholds, v: Video, now: real, views: Views): Option<real>
    requires cfg.Sane()
  {
    if v.publishedAt.None? then None else Rate(WindowVelocity(cfg, ViewsOf(views, v.id), now, 0))
  }

  // The baselines of one bucket: (video id, velocity) in video order.
  function Entries(cfg: Thresholds, owned: seq<Video>, now: real, views: Views, bucket: nat): seq<(string, real)>
    requires cfg.Sane()
    decreases |owned|
  {
    if owned == [] then []
    else
      var rest := Entries(cfg, owned[..|owned| - 1], now, views, bucket);
      var v := owned[|owned| - 1];
      var e := Entry(cfg, v, now, views);
      if e.Some? && Label(cfg, v, now) == Some(bucket) then rest + [(v.id, e.value)] else rest
  }

  // The cohort a video is judged against leaves out its own entries.
  function Others(entries: seq<(string, real)>, id: string): seq<real>
    decreases |entries|
  {
    if entries == [] then []
    else
      var rest := Others(entries[..|entries| - 1], id);
      var e := entries[|entries| - 1];
      if e.0 != id then rest + [e.1] else rest
  }

  function Owned(videos: seq<Video>): seq<Video>
    decreases |videos|
  {
    if videos == [] then []
    else
      var rest := Owned(videos[..|videos| - 1]);
      if videos[|videos| - 1].owned then rest + [videos[|videos| - 1]] else rest
  }

  function Cohort(cfg: Thresholds, videos: seq<Video>, now: real, views: Views, v: Video): seq<real>
    requires cfg.Sane()
  {
    match Label(cfg, v, now)
    case Some(bucket) => Others(Entries(cfg, Owned(videos), now, views, bucket), v.id)
    case None => []
  }

  function VerdictOf(cfg: Thresholds, videos: seq<Video>, now: real, views: Views, v: Video): Verdict
    requires cfg.Sane()
  {
    VideoMovement(cfg, v, ViewsOf(views, v.id), Cohort(cfg, videos, now, views, v), now)
  }

  // ---- Median: what it is ---------------------------------------------------------------------------------------

  ghost predicate Ascending(s: seq<real>) {
    forall i, j :: 0 <= i < j < |s| ==> s[i] <= s[j]
  }

  lemma {:induction false} InsertMembers(x: real, s: seq<real>)
    ensures multiset(Insert(x, s)) == multiset(s) + multiset{x}
    decreases |s|
  {
    if s != [] && x > s[0] {
      InsertMembers(x, s[1..]);
      assert s == [s[0]] + s[1..];
    }
  }

  lemma {:induction false} InsertAscends(x: real, s: seq<real>)
    requires Ascending(s)
    ensures Ascending(Insert(x, s))
    decreases |s|
  {
    if s != [] && x > s[0] {
      InsertAscends(x, s[1..]);
      InsertMembers(x, s[1..]);
      var rest := Insert(x, s[1..]);
      forall i | 0 <= i < |rest| ensures s[0] <= rest[i] {
        assert rest[i] in multiset(rest);
        assert rest[i] == x || rest[i] in s[1..];
      }
    }
  }

  lemma {:induction false} SortedIsSorted(values: seq<real>)
    ensures Ascending(Sorted(values)) && multiset(Sorted(values)) == multiset(values)
    decreases |values|
  {
    if values != [] {
      SortedIsSorted(values[1..]);
      InsertAscends(values[0], Sorted(values[1..]));
      InsertMembers(values[0], Sorted(values[1..]));
      assert values == [values[0]] + values[1..];
    }
  }

  lemma AscendingAt(s: seq<real>, i: nat, j: nat)
    requires Ascending(s) && i <= j < |s|
    ensures s[i] <= s[j]
  {
  }

  lemma MiddleSplits(s: seq<real>, i: nat)
    requires Ascending(s) && i < |s|
    ensures 2 * i < |s| ==> s[i] <= Middle(s)
    ensures 2 * i + 1 >= |s| ==> s[i] >= Middle(s)
  {
    var n := |s|;
    if 2 * i < n {
      AscendingAt(s, i, n / 2);
      AscendingAt(s, i, if n % 2 == 1 then n / 2 else n / 2 - 1);
    }
    if 2 * i + 1 >= n {
      AscendingAt(s, n / 2, i);
      AscendingAt(s, if n % 2 == 1 then n / 2 else n / 2 - 1, i);
    }
  }

  /** The median sits in the middle of the values sorted: half of them are at most it, half at least. */
  lemma MedianIsInTheMiddle(values: seq<real>, i: nat)
    requires i < |values|
    ensures Ascending(Sorted(values)) && multiset(Sorted(values)) == multiset(values)
    ensures 2 * i < |values| ==> Sorted(values)[i] <= Median(values).value
    ensures 2 * i + 1 >= |values| ==> Sorted(values)[i] >= Median(values).value
  {
    SortedIsSorted(values);
    MiddleSplits(Sorted(values), i);
  }

  // ---- Scaling ----------------------------------------------------------------------------------------------------

  function Mul(k: real, x: real): real {
    k * x
  }

  function Scaled(k: real, s: Series): (r: Series)
    ensures |r| == |s|
  {
    seq(|s|, i requires 0 <= i < |s| => Point(s[i].at, Mul(k, s[i].value)))
  }

  function ScaledViews(k: real, views: Views): Views {
    map id | id in views :: Scaled(k, views[id])
  }

  function Times(k: real, values: seq<real>): (r: seq<real>)
    ensures |r| == |values|
  {
    seq(|values|, i requires 0 <= i < |values| => Mul(k, values[i]))
  }

  function TimesOption(k: real, v: Option<real>): Option<real> {
    match v case Some(x) => Some(Mul(k, x)) case None => None
  }

  lemma Quotient(x: real, d: real, q: real)
    requires d != 0.0 && q * d == x
    ensures x / d == q
  {
  }

  lemma ScaleQuotient(k: real, x: real, d: real)
    requires d != 0.0
    ensures Mul(k, x) / d == Mul(k, x / d)
  {
    var q := x / d;
    assert q * d == x;
    assert (k * q) * d == k * (q * d);
    Quotient(k * x, d, k * q);
  }

  lemma ScaleGain(k: real, a: real, b: real, d: real)
    requires d != 0.0
    ensures (Mul(k, b) - Mul(k, a)) / d == Mul(k, (b - a) / d)
  {
    ScaleQuotient(k, b - a, d);
    assert Mul(k, b) - Mul(k, a) == Mul(k, b - a);
  }

  lemma ScaleMean(k: real, a: real, b: real)
    ensures (Mul(k, a) + Mul(k, b)) / 2.0 == Mul(k, (a + b) / 2.0)
  {
    ScaleQuotient(k, a + b, 2.0);
    assert Mul(k, a) + Mul(k, b) == Mul(k, a + b);
  }

  lemma PositiveTimes(a: real, b: real)
    requires a > 0.0 && b > 0.0
    ensures a * b > 0.0
  {
  }

  lemma PositiveProduct(k: real, d: real)
    requires k > 0.0
    ensures Mul(k, d) > 0.0 <==> d > 0.0
    ensures Mul(k, d) == 0.0 <==> d == 0.0
  {
    if d > 0.0 {
      PositiveTimes(k, d);
    } else if d < 0.0 {
      PositiveTimes(k, -d);
      assert k * -d == -(k * d);
    }
  }

  lemma CancelScale(k: real, x: real, d: real)
    requires k > 0.0 && d != 0.0
    ensures Mul(k, d) != 0.0 && Mul(k, x) / Mul(k, d) == x / d
  {
    PositiveProduct(k, d);
    var q := x / d;
    assert q * d == x;
    assert q * (k * d) == k * (q * d);
    Quotient(k * x, k * d, q);
  }

  lemma ScaleOrder(k: real, a: real, b: real)
    requires k > 0.0
    ensures Mul(k, a) <= Mul(k, b) <==> a <= b
  {
    PositiveProduct(k, a - b);
    assert k * (a - b) == k * a - k * b;
  }

  lemma {:induction false} WithinScaled(k: real, s: Series, start: real, end: real)
    ensures Within(Scaled(k, s), start, end) == Scaled(k, Within(s, start, end))
    decreases |s|
  {
    if s != [] {
      WithinScaled(k, s[..|s| - 1], start, end);
      assert Scaled(k, s)[..|s| - 1] == Scaled(k, s[..|s| - 1]);
    }
  }

  lemma SlopeScales(cfg: Thresholds, k: real, pts: Series)
    requires cfg.Sane()
    ensures Rate(Slope(cfg, Scaled(k, pts))) == TimesOption(k, Rate(Slope(cfg, pts)))
  {
    if |pts| >= 2 {
      var first, last := pts[0], pts[|pts| - 1];
      var span := Hours(first.at, last.at);
      assert Scaled(k, pts)[0] == Point(first.at, Mul(k, first.value));
      assert Scaled(k, pts)[|pts| - 1] == Point(last.at, Mul(k, last.value));
      if span >= cfg.minSeparationHours {
        ScaleGain(k, first.value, last.value, span);
      }
    }
  }

  lemma VelocityScales(cfg: Thresholds, k: real, s: Series, now: real, offset: nat)
    requires cfg.Sane()
    ensures Rate(WindowVelocity(cfg, Scaled(k, s), now, offset)) == TimesOption(k, Rate(WindowVelocity(cfg, s, now, offset)))
  {
    var end := WindowEnd(cfg, now, offset);
    var start := WindowStart(cfg, end);
    WithinScaled(k, s, start, end);
    SlopeScales(cfg, k, Within(s, start, end));
  }

  lemma {:induction false} InsertScales(k: real, x: real, s: seq<real>)
    requires k > 0.0
    ensures Insert(Mul(k, x), Times(k, s)) == Times(k, Insert(x, s))
    decreases |s|
  {
    if s != [] {
      ScaleOrder(k, x, s[0]);
      assert Times(k, s)[1..] == Times(k, s[1..]);
      InsertScales(k, x, s[1..]);
    }
  }

  lemma {:induction false} SortScales(k: real, values: seq<real>)
    requires k > 0.0
    ensures Sorted(Times(k, values)) == Times(k, Sorted(values))
    decreases |values|
  {
    if values != [] {
      SortScales(k, values[1..]);
      assert Times(k, values)[1..] == Times(k, values[1..]);
      InsertScales(k, values[0], Sorted(values[1..]));
    }
  }

  lemma MedianScales(k: real, values: seq<real>)
    requires k > 0.0
    ensures Median(Times(k, values)) == TimesOption(k, Median(values))
  {
    SortScales(k, values);
    var s := Sorted(values);
    var n := |s|;
    if values != [] && n % 2 == 0 {
      assert Times(k, s)[n / 2 - 1] == Mul(k, s[n / 2 - 1]) && Times(k, s)[n / 2] == Mul(k, s[n / 2]);
      ScaleMean(k, s[n / 2 - 1], s[n / 2]);
    }
  }

  lemma RatioIsScaleFree(cfg: Thresholds, k: real, current: Option<real>, cohort: seq<real>)
    requires k > 0.0
    ensures Ratio(cfg, TimesOption(k, current), Times(k, cohort)) == Ratio(cfg, current, cohort)
  {
    MedianScales(k, cohort);
    var median := Median(cohort);
    if median.Some? {
      PositiveProduct(k, median.value);
      if median.value > 0.0 && current.Some? {
        CancelScale(k, current.value, median.value);
      }
    }
  }

  lemma AccelerationIsScaleFree(k: real, current: Option<real>, prior: Option<real>)
    requires k > 0.0
    ensures Acceleration(TimesOption(k, current), TimesOption(k, prior)) == Acceleration(current, prior)
  {
    if prior.Some? {
      PositiveProduct(k, prior.value);
      if current.Some? && prior.value != 0.0 {
        CancelScale(k, current.value, prior.value);
      }
    }
  }

  // Two verdicts that say the same, whatever the velocities they report.
  ghost predicate SameVerdict(a: Verdict, b: Verdict) {
    && a.state == b.state && a.evidence == b.evidence && a.cohortSize == b.cohortSize
    && a.ratio == b.ratio && a.acceleration == b.acceleration
  }

  lemma VideoMovementIsScaleFree(cfg: Thresholds, k: real, v: Video, views: Series, cohort: seq<real>, now: real)
    requires cfg.Sane() && k > 0.0
    ensures SameVerdict(VideoMovement(cfg, v, Scaled(k, views), Times(k, cohort), now),
                        VideoMovement(cfg, v, views, cohort, now))
  {
    VelocityScales(cfg, k, views, now, 0);
    VelocityScales(cfg, k, views, now, 1);
    var current := Rate(WindowVelocity(cfg, views, now, 0));
    var prior := Rate(WindowVelocity(cfg, views, now, 1));
    RatioIsScaleFree(cfg, k, current, cohort);
    AccelerationIsScaleFree(k, current, prior);
    if prior.Some? {
      PositiveProduct(k, prior.value);
    }
  }

  function ScaledEntries(k: real, entries: seq<(string, real)>): (r: seq<(string, real)>)
    ensures |r| == |entries|
  {
    seq(|entries|, i requires 0 <= i < |entries| => (entries[i].0, Mul(k, entries[i].1)))
  }

  lemma {:induction false} EntriesScale(cfg: Thresholds, k: real, owned: seq<Video>, now: real, views: Views, bucket: nat)
    requires cfg.Sane()
    ensures Entries(cfg, owned, now, ScaledViews(k, views), bucket) == ScaledEntries(k, Entries(cfg, owned, now, views, bucket))
    decreases |owned|
  {
    if owned != [] {
      var v := owned[|owned| - 1];
      EntriesScale(cfg, k, owned[..|owned| - 1], now, views, bucket);
      assert ViewsOf(ScaledViews(k, views), v.id) == Scaled(k, ViewsOf(views, v.id));
      VelocityScales(cfg, k, ViewsOf(views, v.id), now, 0);
    }
  }

  lemma {:induction false} OthersScale(k: real, entries: seq<(string, real)>, id: string)
    ensures Others(ScaledEntries(k, entries), id) == Times(k, Others(entries, id))
    decreases |entries|
  {
    if entries != [] {
      OthersScale(k, entries[..|entries| - 1], id);
      assert ScaledEntries(k, entries)[..|entries| - 1] == ScaledEntries(k, entries[..|entries| - 1]);
    }
  }

  /** Multiplying every view count of an artist by one positive constant changes no video's verdict. */
  lemma ScaleInvariance(cfg: Thresholds, k: real, videos: seq<Video>, now: real, views: Views, v: Video)
    requires cfg.Sane() && k > 0.0
    ensures SameVerdict(VerdictOf(cfg, videos, now, ScaledViews(k, views), v), VerdictOf(cfg, videos, now, views, v))
  {
    var cohort := Cohort(cfg, videos, now, views, v);
    var home := Label(cfg, v, now);
    if home.Some? {
      EntriesScale(cfg, k, Owned(videos), now, views, home.value);
      OthersScale(k, Entries(cfg, Owned(videos), now, views, home.value), v.id);
    }
    assert Cohort(cfg, videos, now, ScaledViews(k, views), v) == Times(k, cohort);
    assert ViewsOf(ScaledViews(k, views), v.id) == Scaled(k, ViewsOf(views, v.id));
    VideoMovementIsScaleFree(cfg, k, v, ViewsOf(views, v.id), cohort, now);
  }

  // ---- Shifting -----------------------------------------------------------------------------------------------------

  function Shifted(d: real, s: Series): (r: Series)
    ensures |r| == |s|
  {
    seq(|s|, i requires 0 <= i < |s| => Point(s[i].at + d, s[i].value))
  }

  function ShiftedViews(d: real, views: Views): Views {
    map id | id in views :: Shifted(d, views[id])
  }

  function ShiftedVideo(d: real, v: Video): Video {
    v.(publishedAt := match v.publishedAt case Some(t) => Some(t + d) case None => None)
  }

  function ShiftedVideos(d: real, videos: seq<Video>): (r: seq<Video>)
    ensures |r| == |videos|
  {
    seq(|videos|, i requires 0 <= i < |videos| => ShiftedVideo(d, videos[i]))
  }

  lemma {:induction false} WithinShifted(d: real, s: Series, start: real, end: real)
    ensures Within(Shifted(d, s), start + d, end + d) == Shifted(d, Within(s, start, end))
    decreases |s|
  {
    if s != [] {
      WithinShifted(d, s[..|s| - 1], start, end);
      assert Shifted(d, s)[..|s| - 1] == Shifted(d, s[..|s| - 1]);
    }
  }

  lemma SlopeIsShiftFree(cfg: Thresholds, d: real, pts: Series)
    requires cfg.Sane()
    ensures Slope(cfg, Shifted(d, pts)) == Slope(cfg, pts)
  {
    if |pts| >= 2 {
      assert Shifted(d, pts)[0] == Point(pts[0].at + d, pts[0].value);
      assert Shifted(d, pts)[|pts| - 1] == Point(pts[|pts| - 1].at + d, pts[|pts| - 1].value);
      assert Hours(pts[0].at + d, pts[|pts| - 1].at + d) == Hours(pts[0].at, pts[|pts| - 1].at);
    }
  }

  lemma VelocityIsShiftFree(cfg: Thresholds, d: real, s: Series, now: real, offset: nat)
    requires cfg.Sane()
    ensures WindowVelocity(cfg, Shifted(d, s), now + d, offset) == WindowVelocity(cfg, s, now, offset)
  {
    var end := WindowEnd(cfg, now, offset);
    var start := WindowStart(cfg, end);
    WithinShifted(d, s, start, end);
    assert WindowEnd(cfg, now + d, offset) == end + d;
    assert WindowStart(cfg, end + d) == start + d;
    SlopeIsShiftFree(cfg, d, Within(s, start, end));
  }

  lemma LabelIsShiftFree(cfg: Thresholds, d: real, v: Video, now: real)
    ensures Age(ShiftedVideo(d, v), now + d) == Age(v, now)
    ensures Label(cfg, ShiftedVideo(d, v), now + d) == Label(cfg, v, now)
  {
  }

  lemma {:induction false} EntriesAreShiftFree(cfg: Thresholds, d: real, owned: seq<Video>, now: real, views: Views, bucket: nat)
    requires cfg.Sane()
    ensures Entries(cfg, ShiftedVideos(d, owned), now + d, ShiftedViews(d, views), bucket) == Entries(cfg, owned, now, views, bucket)
    decreases |owned|
  {
    if owned != [] {
      var v := owned[|owned| - 1];
      EntriesAreShiftFree(cfg, d, owned[..|owned| - 1], now, views, bucket);
      assert ShiftedVideos(d, owned)[..|owned| - 1] == ShiftedVideos(d, owned[..|owned| - 1]);
      assert ViewsOf(ShiftedViews(d, views), v.id) == Shifted(d, ViewsOf(views, v.id));
      VelocityIsShiftFree(cfg, d, ViewsOf(views, v.id), now, 0);
      LabelIsShiftFree(cfg, d, v, now);
    }
  }

  lemma {:induction false} OwnedShifted(d: real, videos: seq<Video>)
    ensures Owned(ShiftedVideos(d, videos)) == ShiftedVideos(d, Owned(videos))
    decreases |videos|
  {
    if videos != [] {
      OwnedShifted(d, videos[..|videos| - 1]);
      assert ShiftedVideos(d, videos)[..|videos| - 1] == ShiftedVideos(d, videos[..|videos| - 1]);
    }
  }

  lemma VideoMovementIsShiftFree(cfg: Thresholds, d: real, v: Video, views: Series, cohort: seq<real>, now: real)
    requires cfg.Sane()
    ensures VideoMovement(cfg, ShiftedVideo(d, v), Shifted(d, views), cohort, now + d) == VideoMovement(cfg, v, views, cohort, now)
  {
    VelocityIsShiftFree(cfg, d, views, now, 0);
    VelocityIsShiftFree(cfg, d, views, now, 1);
    LabelIsShiftFree(cfg, d, v, now);
    if |views| >= 2 {
      assert Hours(views[0].at + d, views[|views| - 1].at + d) == Hours(views[0].at, views[|views| - 1].at);
    }
  }

  /** Shifting every timestamp, publication dates included, together with now changes no verdict at all. */
  lemma ShiftInvariance(cfg: Thresholds, d: real, videos: seq<Video>, now: real, views: Views, v: Video)
    requires cfg.Sane()
    ensures VerdictOf(cfg, ShiftedVideos(d, videos), now + d, ShiftedViews(d, views), ShiftedVideo(d, v))
         == VerdictOf(cfg, videos, now, views, v)
  {
    OwnedShifted(d, videos);
    LabelIsShiftFree(cfg, d, v, now);
    var home := Label(cfg, v, now);
    if home.Some? {
      EntriesAreShiftFree(cfg, d, Owned(videos), now, views, home.value);
    }
    assert ViewsOf(ShiftedViews(d, views), v.id) == Shifted(d, ViewsOf(views, v.id));
    VideoMovementIsShiftFree(cfg, d, v, ViewsOf(views, v.id), Cohort(cfg, videos, now, views, v), now);
  }

  // ---- Non-interference -----------------------------------------------------------------------------------------------

  // Changing the series of `id` changes no entry but its own.
  lemma {:induction false} OthersIgnore(cfg: Thresholds, owned: seq<Video>, now: real, views: Views, id: string,
                                        s: Series, bucket: nat)
    requires cfg.Sane()
    ensures Others(Entries(cfg, owned, now, views[id := s], bucket), id) == Others(Entries(cfg, owned, now, views, bucket), id)
    decreases |owned|
  {
    if owned != [] {
      var before := owned[..|owned| - 1];
      var v := owned[|owned| - 1];
      OthersIgnore(cfg, before, now, views, id, s, bucket);
      OthersAppend(Entries(cfg, before, now, views, bucket), v.id, id);
      OthersAppend(Entries(cfg, before, now, views[id := s], bucket), v.id, id);
      if v.id != id {
        assert ViewsOf(views[id := s], v.id) == ViewsOf(views, v.id);
      }
    }
  }

  lemma OthersAppend(entries: seq<(string, real)>, entry: string, id: string)
    ensures forall x: real :: Others(entries + [(entry, x)], id) == Others(entries, id) + if entry != id then [x] else []
  {
    forall x: real ensures Others(entries + [(entry, x)], id) == Others(entries, id) + if entry != id then [x] else [] {
      assert (entries + [(entry, x)])[..|entries + [(entry, x)]| - 1] == entries;
    }
  }

  /** Whatever happens to a video's own series, the baseline it is judged against does not move. */
  lemma OwnSeriesDoesNotMoveTheBaseline(cfg: Thresholds, videos: seq<Video>, now: real, views: Views, v: Video, s: Series)
    requires cfg.Sane()
    ensures Cohort(cfg, videos, now, views[v.id := s], v) == Cohort(cfg, videos, now, views, v)
  {
    var home := Label(cfg, v, now);
    if home.Some? {
      OthersIgnore(cfg, Owned(videos), now, views, v.id, s, home.value);
    }
  }

  lemma {:induction false} UnownedLeavesEntries(cfg: Thresholds, owned: seq<Video>, now: real, views: Views, id: string,
                                                s: Series, bucket: nat)
    requires cfg.Sane() && forall i :: 0 <= i < |owned| ==> owned[i].id != id
    ensures Entries(cfg, owned, now, views[id := s], bucket) == Entries(cfg, owned, now, views, bucket)
    decreases |owned|
  {
    if owned != [] {
      UnownedLeavesEntries(cfg, owned[..|owned| - 1], now, views, id, s, bucket);
      assert ViewsOf(views[id := s], owned[|owned| - 1].id) == ViewsOf(views, owned[|owned| - 1].id);
    }
  }

  lemma {:induction false} OwnedAreOwned(videos: seq<Video>)
    ensures forall i :: 0 <= i < |Owned(videos)| ==> Owned(videos)[i] in videos && Owned(videos)[i].owned
    decreases |videos|
  {
    if videos != [] {
      OwnedAreOwned(videos[..|videos| - 1]);
    }
  }

  /** A video the artist does not own never moves another video's verdict. */
  lemma EcosystemVideosDoNotInterfere(cfg: Thresholds, videos: seq<Video>, now: real, views: Views, v: Video, id: string, s: Series)
    requires cfg.Sane() && v.id != id
    requires forall i :: 0 <= i < |videos| && videos[i].id == id ==> !videos[i].owned
    ensures VerdictOf(cfg, videos, now, views[id := s], v) == VerdictOf(cfg, videos, now, views, v)
  {
    OwnedAreOwned(videos);
    var owned := Owned(videos);
    assert forall i :: 0 <= i < |owned| ==> owned[i].id != id by {
      forall i | 0 <= i < |owned| ensures owned[i].id != id {
        assert owned[i] in videos;
      }
    }
    var home := Label(cfg, v, now);
    if home.Some? {
      UnownedLeavesEntries(cfg, owned, now, views, id, s, home.value);
    }
    assert ViewsOf(views[id := s], v.id) == ViewsOf(views, v.id);
  }

  // ---- The code -----------------------------------------------------------------------------------------------------------

  function Bucket(baselines: map<nat, seq<(string, real)>>, bucket: nat): seq<(string, real)> {
    if bucket in baselines then baselines[bucket] else []
  }

  method BuildBaselines(cfg: Thresholds, owned: seq<Video>, now: real, views: Views)
    returns (baselines: map<nat, seq<(string, real)>>)
    requires cfg.Sane()
    ensures forall b :: Bucket(baselines, b) == Entries(cfg, owned, now, views, b)
  {
    baselines := map[];
    for i := 0 to |owned|
      invariant forall b :: Bucket(baselines, b) == Entries(cfg, owned[..i], now, views, b)
    {
      assert owned[..i + 1][..i] == owned[..i];
      var v := owned[i];
      if v.publishedAt.Some? {
        var velocity := WindowVelocity(cfg, ViewsOf(views, v.id), now, 0);
        if velocity.Some? {
          var b := AgeBucket(cfg.ageBuckets, Hours(v.publishedAt.value, now));
          baselines := baselines[b := Bucket(baselines, b) + [(v.id, velocity.value.perHour)]];
        }
      }
    }
    assert owned[..|owned|] == owned;
  }

  function CountState(verdicts: seq<Verdict>, state: State): nat
    decreases |verdicts|
  {
    if verdicts == [] then 0
    else CountState(verdicts[..|verdicts| - 1], state) + if verdicts[|verdicts| - 1].state == state then 1 else 0
  }

  function MovingChannels(videos: seq<Video>, verdicts: seq<Verdict>): set<string>
    requires |videos| == |verdicts|
  {
    set i | 0 <= i < |videos| && (verdicts[i].state == RISING || verdicts[i].state == BREAKOUT_CANDIDATE)
            && videos[i].channel.Some? && videos[i].channel.value != "" :: videos[i].channel.value
  }

  method CountVerdicts(verdicts: seq<Verdict>) returns (counts: map<State, nat>)
    ensures forall s :: s in counts && counts[s] == CountState(verdicts, s)
  {
    counts := map[INSUFFICIENT_HISTORY := 0, NORMAL := 0, RISING := 0, BREAKOUT_CANDIDATE := 0, COOLING := 0];
    forall s: State ensures s in counts && counts[s] == 0 {
      match s {
        case INSUFFICIENT_HISTORY =>
        case _ =>
      }
    }
    for i := 0 to |verdicts|
      invariant forall s :: s in counts && counts[s] == CountState(verdicts[..i], s)
    {
      assert verdicts[..i + 1][..i] == verdicts[..i];
      counts := counts[verdicts[i].state := counts[verdicts[i].state] + 1];
    }
    assert verdicts[..|verdicts|] == verdicts;
  }

  /** `artist_movement`: one verdict per video, against baselines built once for the artist. */
  method ArtistMovement(cfg: Thresholds, videos: seq<Video>, now: real, views: Views)
    returns (verdicts: seq<Verdict>, counts: map<State, nat>, crossChannel: bool)
    requires cfg.Sane()
    ensures |verdicts| == |videos|
    ensures forall i :: 0 <= i < |videos| ==> verdicts[i] == VerdictOf(cfg, videos, now, views, videos[i])
    ensures forall s :: s in counts && counts[s] == CountState(verdicts, s)
    ensures crossChannel == (|MovingChannels(videos, verdicts)| >= cfg.minChannels)
  {
    verdicts := Verdicts(cfg, videos, now, views);
    counts := CountVerdicts(verdicts);
    var moving := MovingChannels(videos, verdicts);
    crossChannel := |moving| >= cfg.minChannels;
  }

  method Verdicts(cfg: Thresholds, videos: seq<Video>, now: real, views: Views) returns (verdicts: seq<Verdict>)
    requires cfg.Sane()
    ensures |verdicts| == |videos|
    ensures forall i :: 0 <= i < |videos| ==> verdicts[i] == VerdictOf(cfg, videos, now, views, videos[i])
  {
    var owned := OwnedVideos(videos);
    var baselines := BuildBaselines(cfg, owned, now, views);
    verdicts := [];
    for i := 0 to |videos|
      invariant |verdicts| == i
      invariant forall k :: 0 <= k < i ==> verdicts[k] == VerdictOf(cfg, videos, now, views, videos[k])
    {
      var v := videos[i];
      var home := Label(cfg, v, now);
      var cohort := if home.Some? then Others(Bucket(baselines, home.value), v.id) else [];
      assert cohort == Cohort(cfg, videos, now, views, v);
      var verdict := VideoMovement(cfg, v, ViewsOf(views, v.id), cohort, now);
      assert verdict == VerdictOf(cfg, videos, now, views, v);
      verdicts := verdicts + [verdict];
    }
  }

  method OwnedVideos(videos: seq<Video>) returns (owned: seq<Video>)
    ensures owned == Owned(videos)
  {
    owned := [];
    for i := 0 to |videos|
      invariant owned == Owned(videos[..i])
    {
      assert videos[..i + 1][..i] == videos[..i];
      if videos[i].owned {
        owned := owned + [videos[i]];
      }
    }
    assert videos[..|videos|] == videos;
  }

  lemma {:induction false} StatesConserveVideos(verdicts: seq<Verdict>)
    ensures CountState(verdicts, INSUFFICIENT_HISTORY) + CountState(verdicts, NORMAL) + CountState(verdicts, RISING)
            + CountState(verdicts, BREAKOUT_CANDIDATE) + CountState(verdicts, COOLING) == |verdicts|
    decreases |verdicts|
  {
    if verdicts != [] {
      StatesConserveVideos(verdicts[..|verdicts| - 1]);
    }
  }

  /**
   * What a verdict of movement rests on. A video moves exactly when its ratio reaches the rising bound,
   * and breaks out exactly when it is also young enough, far enough above and accelerating; a ratio in turn
   * needs enough observations, a current velocity and a large enough cohort with a positive median.
   */
  lemma MovementIsEvidenced(cfg: Thresholds, videos: seq<Video>, now: real, views: Views, v: Video)
    requires cfg.Sane() && cfg.risingRatio <= cfg.breakoutRatio
    ensures var verdict := VerdictOf(cfg, videos, now, views, v);
            var cohort := Cohort(cfg, videos, now, views, v);
            && (verdict.state == RISING || verdict.state == BREAKOUT_CANDIDATE <==>
                  verdict.ratio.Some? && verdict.ratio.value >= cfg.risingRatio)
            && (verdict.state == BREAKOUT_CANDIDATE <==>
                  && verdict.ratio.Some? && verdict.ratio.value >= cfg.breakoutRatio
                  && verdict.acceleration.Some? && verdict.acceleration.value >= cfg.breakoutAccelRatio
                  && Age(v, now).Some? && Age(v, now).value <= cfg.breakoutMaxAgeHours)
            && (verdict.ratio.Some? ==>
                  && |ViewsOf(views, v.id)| >= cfg.minObservations && verdict.current.Some?
                  && |cohort| >= cfg.minBaselineSample && cohort != [] && Median(cohort).value > 0.0)
            && (verdict.state == COOLING ==> verdict.acceleration.Some? && verdict.acceleration.value <= cfg.coolingRatio)
            && (verdict.evidence == NO_BASELINE ==> verdict.ratio.None? && verdict.state == INSUFFICIENT_HISTORY)
  {
  }
}
