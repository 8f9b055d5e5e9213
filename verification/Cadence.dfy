/** When an event is captured next: crawl-service `lifecycle.py` and `cadence.py`.

    Timestamps are integers counting microseconds, the resolution of the source's datetimes. The
    timezone database is not part of this model: the local calendar day at evaluation time arrives
    as the parameter `today`. */
module Cadence {
  import opened Options

  const HOUR: int := 3_600_000_000
  const DAY: int := 24 * HOUR

  datatype TrackingStatus = Active | PostEvent | Stopped | NeedsReview | Cancelled

  /** A provider lifecycle label after normalisation. */
  datatype Lifecycle = LcScheduled | LcCancelled | LcPostponed | LcRescheduled | LcUnknown

  datatype TemporalState = Past | Upcoming | Ongoing | Unknown

  datatype Reason =
    | FarFuture | Mid | Final | EventDay | OnsaleBurst | PostEventFollowup | PostEventComplete
    | NoDate | TrackingStopped | CancelledConfirmation | PostponedMonitoring | OngoingEvent
    | Terminal | RetryBackoff | CityNotAllowed

  /** What is known about an event's dates; `eventDay` is a date without a time. */
  datatype Timing = Timing(
    startsAt: Option<int>, endsAt: Option<int>, eventDay: Option<int>, onSaleAt: Option<int>)

  datatype CadenceConfig = CadenceConfig(
    farFutureHours: int, midHours: int, finalHours: int, onsaleBurstHours: int, eventDayHours: int,
    postEventOffsetsDays: seq<int>, cancelledConfirmationHours: int, postponedHours: int)
  {
    predicate Positive() {
      farFutureHours > 0 && midHours > 0 && finalHours > 0 && onsaleBurstHours > 0 && eventDayHours > 0 &&
      cancelledConfirmationHours > 0 && postponedHours > 0
    }

    /** The smallest band an event with a known start can be given before it is over. */
    function MinBand(): (m: int)
      ensures m <= farFutureHours * HOUR && m <= midHours * HOUR && m <= finalHours * HOUR
      ensures m <= onsaleBurstHours * HOUR && m <= eventDayHours * HOUR
      ensures Positive() ==> m > 0
    {
      Min(farFutureHours, Min(midHours, Min(finalHours, Min(onsaleBurstHours, eventDayHours)))) * HOUR
    }
  }

  function Min(a: int, b: int): int {
    if a <= b then a else b
  }

  function Temporal(t: Timing, today: Option<int>, now: int): TemporalState {
    if t.startsAt.Some? && t.endsAt.Some? then
      if t.endsAt.value < now then Past
      else if t.startsAt.value > now then Upcoming
      else Ongoing
    else if t.startsAt.Some? then
      if t.startsAt.value > now then Upcoming else Past
    else if t.eventDay.Some? && today.Some? then
      if t.eventDay.value < today.value then Past
      else if t.eventDay.value > today.value then Upcoming
      else Unknown
    else Unknown
  }

  /** The lifecycle the cadence obeys: the provider's label, else the tracking status read as one. */
  function EffectiveLifecycle(provider: Option<Lifecycle>, status: TrackingStatus): Lifecycle {
    if provider.Some? then provider.value
    else if status == Cancelled then LcCancelled
    else LcUnknown
  }

  /** Offset `i` gives the first instant later than `now`, in configured order. */
  ghost predicate FirstLater(anchor: int, offsets: seq<int>, now: int, i: nat) {
    && i < |offsets| && anchor + offsets[i] * DAY > now
    && forall k :: 0 <= k < i ==> anchor + offsets[k] * DAY <= now
  }

  /** The first follow-up instant later than `now`, in configured order. */
  function FirstFollowUp(anchor: int, offsets: seq<int>, now: int): (r: Option<int>)
    ensures r.Some? ==> r.value > now && exists i: nat :: FirstLater(anchor, offsets, now, i) && r.value == anchor + offsets[i] * DAY
    ensures r.Some? <==> exists i :: 0 <= i < |offsets| && anchor + offsets[i] * DAY > now
  {
    if offsets == [] then None
    else if anchor + offsets[0] * DAY > now then
      assert FirstLater(anchor, offsets, now, 0);
      Some(anchor + offsets[0] * DAY)
    else
      var r := FirstFollowUp(anchor, offsets[1..], now);
      assert forall i :: 1 <= i < |offsets| ==> offsets[i] == offsets[1..][i - 1];
      assert r.Some? ==> exists i: nat :: FirstLater(anchor, offsets, now, i) && r.value == anchor + offsets[i] * DAY by {
        if r.Some? {
          var i: nat :| FirstLater(anchor, offsets[1..], now, i) && r.value == anchor + offsets[1..][i] * DAY;
          assert FirstLater(anchor, offsets, now, i + 1);
        }
      }
      r
  }

  function UpcomingBand(now: int, start: int, onSaleAt: Option<int>, cfg: CadenceConfig): (int, Reason) {
    if start - now < DAY then (cfg.eventDayHours, EventDay)
    else if onSaleAt.Some? && onSaleAt.value <= now <= onSaleAt.value + 48 * HOUR then
      (cfg.onsaleBurstHours, OnsaleBurst)
    else if start - now <= 14 * DAY then (cfg.finalHours, Final)
    else if start - now <= 30 * DAY then (cfg.midHours, Mid)
    else (cfg.farFutureHours, FarFuture)
  }

  /** The next capture instant (None: stop tracking) and the reason for it. With positive bands the
      instant always lies strictly in the future: the fact the whole scheduler leans on. */
  function ComputeCadence(
      now: int, t: Timing, today: Option<int>, status: TrackingStatus, provider: Option<Lifecycle>,
      observedAt: Option<int>, cfg: CadenceConfig): (r: (Option<int>, Reason))
    ensures cfg.Positive() && r.0.Some? ==> r.0.value > now
    ensures status in {Stopped, NeedsReview} ==> r.0.None?
  {
    if status in {Stopped, NeedsReview} then (None, TrackingStopped)
    else
      var lifecycle := EffectiveLifecycle(provider, status);
      if lifecycle == LcCancelled then
        var due := observedAt.Or(now) + cfg.cancelledConfirmationHours * HOUR;
        if due > now then (Some(due), CancelledConfirmation) else (None, TrackingStopped)
      else if lifecycle == LcPostponed then
        (Some(now + cfg.postponedHours * HOUR), PostponedMonitoring)
      else
        var temporal := Temporal(t, today, now);
        if temporal == Ongoing then (Some(now + cfg.eventDayHours * HOUR), OngoingEvent)
        else if temporal == Past then
          var anchor := if t.endsAt.Some? then t.endsAt else t.startsAt;
          if anchor.None? then (None, PostEventComplete)
          else
            var follow := FirstFollowUp(anchor.value, cfg.postEventOffsetsDays, now);
            if follow.Some? then (follow, PostEventFollowup) else (None, PostEventComplete)
        else if t.startsAt.None? then (Some(now + cfg.farFutureHours * HOUR), NoDate)
        else
          var (hours, reason) := UpcomingBand(now, t.startsAt.value, t.onSaleAt, cfg);
          (Some(now + hours * HOUR), reason)
  }

  /** Captures never space out as an upcoming event draws near: with bands ordered as their names say and
      no on-sale window in between, the delay at a later instant is at most the delay at an earlier one. */
  lemma CadenceTightens(
      now: int, later: int, t: Timing, today: Option<int>, todayLater: Option<int>, status: TrackingStatus,
      provider: Option<Lifecycle>, observedAt: Option<int>, cfg: CadenceConfig)
    requires status !in {Stopped, NeedsReview}
    requires EffectiveLifecycle(provider, status) !in {LcCancelled, LcPostponed}
    requires cfg.eventDayHours <= cfg.finalHours <= cfg.midHours <= cfg.farFutureHours
    requires t.startsAt.Some? && t.onSaleAt.None? && now <= later < t.startsAt.value
    requires t.endsAt.Some? ==> t.startsAt.value <= t.endsAt.value
    ensures var first := ComputeCadence(now, t, today, status, provider, observedAt, cfg).0;
            var second := ComputeCadence(later, t, todayLater, status, provider, observedAt, cfg).0;
            first.Some? && second.Some? && second.value - later <= first.value - now
    ensures t.startsAt.value - later < DAY ==>
              ComputeCadence(later, t, todayLater, status, provider, observedAt, cfg).0 == Some(later + cfg.eventDayHours * HOUR)
  {
    assert UpcomingBand(later, t.startsAt.value, None, cfg).0 <= UpcomingBand(now, t.startsAt.value, None, cfg).0;
  }

  // ---- termination of a capture campaign ----------------------------------------------------

  /** An event whose dates settle when it is over, and whose lifecycle lets it run its course. */
  ghost predicate Bounded(t: Timing, status: TrackingStatus, provider: Option<Lifecycle>) {
    t.startsAt.Some? && status !in {Stopped, NeedsReview} &&
    EffectiveLifecycle(provider, status) !in {LcCancelled, LcPostponed}
  }

  /** The instant after which the event is past: its end, or its start when no end is known. */
  function Anchor(t: Timing): int
    requires t.startsAt.Some?
  {
    if t.endsAt.Some? then t.endsAt.value else t.startsAt.value
  }

  /** How many follow-ups still lie after `now`. */
  function FollowUpsLeft(anchor: int, offsets: seq<int>, now: int): (n: nat)
    ensures n <= |offsets|
  {
    if offsets == [] then 0
    else (if anchor + offsets[0] * DAY > now then 1 else 0) + FollowUpsLeft(anchor, offsets[1..], now)
  }

  /** The captures that fit before the anchor when two of them are at least `m` apart. */
  function CapturesBefore(anchor: int, now: int, m: int): (n: nat)
    requires m > 0
  {
    if now <= anchor then (anchor - now) / m + 1 else 0
  }

  lemma {:induction false} FollowUpsShrink(anchor: int, offsets: seq<int>, t: int, t': int)
    requires t <= t'
    ensures FollowUpsLeft(anchor, offsets, t') <= FollowUpsLeft(anchor, offsets, t)
    ensures FirstFollowUp(anchor, offsets, t).Some? && FirstFollowUp(anchor, offsets, t).value <= t'
            ==> FollowUpsLeft(anchor, offsets, t') < FollowUpsLeft(anchor, offsets, t)
  {
    if offsets != [] {
      FollowUpsShrink(anchor, offsets[1..], t, t');
    }
  }

  lemma CapturesBeforeShrink(anchor: int, t: int, t': int, m: int)
    requires m > 0 && t <= anchor && t + m <= t'
    ensures CapturesBefore(anchor, t', m) < CapturesBefore(anchor, t, m)
  {
    if t' <= anchor {
      var q := (anchor - t') / m;
      assert (q + 1) * m == q * m + m;
      assert anchor - t >= (q + 1) * m;
      DivideAtLeast(anchor - t, m, q + 1);
    }
  }

  lemma CancelFactor(q: int, k: int, m: int)
    requires m > 0 && q * m < k * m
    ensures q < k
  {
  }

  lemma DivideAtLeast(a: int, m: int, q: int)
    requires m > 0 && q >= 0 && a >= q * m
    ensures a / m >= q
  {
    var k := a / m + 1;
    assert k * m == (a / m) * m + m;
    assert q * m < k * m;
    CancelFactor(q, k, m);
  }

  /** The potential of a campaign: no more captures than this can still be scheduled from `now`. */
  function Remaining(t: Timing, cfg: CadenceConfig, now: int): nat
    requires t.startsAt.Some? && cfg.Positive()
  {
    CapturesBefore(Anchor(t), now, cfg.MinBand()) + FollowUpsLeft(Anchor(t), cfg.postEventOffsetsDays, now)
  }

  lemma CaptureSpendsPotential(
      t: Timing, today: Option<int>, status: TrackingStatus, provider: Option<Lifecycle>,
      observedAt: Option<int>, cfg: CadenceConfig, now: int, later: int)
    requires cfg.Positive() && Bounded(t, status, provider)
    requires ComputeCadence(now, t, today, status, provider, observedAt, cfg).0.Some?
    requires ComputeCadence(now, t, today, status, provider, observedAt, cfg).0.value <= later
    ensures Remaining(t, cfg, later) < Remaining(t, cfg, now)
  {
    FollowUpsShrink(Anchor(t), cfg.postEventOffsetsDays, now, later);
    if Temporal(t, today, now) != Past {
      CapturesBeforeShrink(Anchor(t), now, later, cfg.MinBand());
    }
  }

  /** Captures at `times`, each scheduled (non-None) and each run at or after its scheduled instant.
      The local day may be read differently at every capture. */
  ghost predicate Campaign(
      times: seq<int>, todays: seq<Option<int>>, t: Timing, status: TrackingStatus,
      provider: Option<Lifecycle>, observedAt: Option<int>, cfg: CadenceConfig)
  {
    |todays| == |times| &&
    (forall i :: 0 <= i < |times| ==>
      ComputeCadence(times[i], t, todays[i], status, provider, observedAt, cfg).0.Some?) &&
    (forall i :: 0 < i < |times| ==>
      ComputeCadence(times[i - 1], t, todays[i - 1], status, provider, observedAt, cfg).0.value <= times[i])
  }

  /** Capture termination: a campaign schedules at most floor((A - now) / m) + 1 + |offsets| captures,
      A being the anchor and m the smallest band (and at most |offsets| once the anchor has passed). */
  lemma {:induction false} CampaignIsBounded(
      times: seq<int>, todays: seq<Option<int>>, t: Timing, status: TrackingStatus,
      provider: Option<Lifecycle>, observedAt: Option<int>, cfg: CadenceConfig)
    requires cfg.Positive() && Bounded(t, status, provider)
    requires Campaign(times, todays, t, status, provider, observedAt, cfg) && times != []
    ensures |times| <= Remaining(t, cfg, times[0])
    ensures times[0] <= Anchor(t) ==>
              |times| <= (Anchor(t) - times[0]) / cfg.MinBand() + 1 + |cfg.postEventOffsetsDays|
    ensures Anchor(t) < times[0] ==> |times| <= |cfg.postEventOffsetsDays|
    decreases |times|
  {
    if |times| == 1 {
      CaptureSpendsPotential(t, todays[0], status, provider, observedAt, cfg, times[0],
                             ComputeCadence(times[0], t, todays[0], status, provider, observedAt, cfg).0.value);
    } else {
      var rest := times[1..];
      assert forall i :: 0 <= i < |rest| ==> rest[i] == times[i + 1] && todays[1..][i] == todays[i + 1];
      assert Campaign(rest, todays[1..], t, status, provider, observedAt, cfg) by {
        forall i | 0 < i < |rest|
          ensures ComputeCadence(rest[i - 1], t, todays[1..][i - 1], status, provider, observedAt, cfg).0.value
                  <= rest[i]
        {
          assert 0 < i + 1 < |times|;
        }
      }
      CampaignIsBounded(rest, todays[1..], t, status, provider, observedAt, cfg);
      CaptureSpendsPotential(t, todays[0], status, provider, observedAt, cfg, times[0], times[1]);
    }
  }

  /** When captures of an event that runs its course end: exactly when it is over, by its end or else its start,
      or with no start known by its local date, and no follow-up lies ahead. */
  lemma StopsExactlyWhen(
      now: int, t: Timing, today: Option<int>, status: TrackingStatus, provider: Option<Lifecycle>,
      observedAt: Option<int>, cfg: CadenceConfig)
    requires status !in {Stopped, NeedsReview}
    requires EffectiveLifecycle(provider, status) !in {LcCancelled, LcPostponed}
    ensures ComputeCadence(now, t, today, status, provider, observedAt, cfg).0.None? <==>
            if t.startsAt.Some? then
              (if t.endsAt.Some? then t.endsAt.value < now else t.startsAt.value <= now) &&
              (forall i :: 0 <= i < |cfg.postEventOffsetsDays| ==>
                Anchor(t) + cfg.postEventOffsetsDays[i] * DAY <= now)
            else
              t.eventDay.Some? && today.Some? && t.eventDay.value < today.value &&
              (t.endsAt.Some? ==> forall i :: 0 <= i < |cfg.postEventOffsetsDays| ==>
                t.endsAt.value + cfg.postEventOffsetsDays[i] * DAY <= now)
  {
  }

  /** A campaign that never ends: captures run exactly when scheduled, `n` of them. */
  function UndatedTimes(now: int, step: int, n: nat): (times: seq<int>)
    ensures |times| == n
    ensures forall i :: 0 <= i < n ==> times[i] == now + i * step
  {
    seq(n, i => now + i * step)
  }

  /** Why the bound asks for a known start: without one, and without a local date, campaigns of every
      length exist. */
  lemma UndatedCampaignsAreUnbounded(now: int, n: nat, t: Timing, cfg: CadenceConfig)
    requires cfg.Positive() && t.startsAt.None? && t.eventDay.None?
    ensures exists times, todays ::
              |times| == n && Campaign(times, todays, t, Active, None, None, cfg)
  {
    var step := cfg.farFutureHours * HOUR;
    var times := UndatedTimes(now, step, n);
    var todays: seq<Option<int>> := seq(n, i => None);
    forall i | 0 < i < |times|
      ensures ComputeCadence(times[i - 1], t, todays[i - 1], Active, None, None, cfg).0.value <= times[i]
    {
      assert times[i] == times[i - 1] + step by { assert i * step == (i - 1) * step + step; }
    }
    assert Campaign(times, todays, t, Active, None, None, cfg);
  }
}
