/** Market read models over folded entities: analytics-service `readmodels.py`. Rows are unordered
    values here: sorted id and city lists are sets, and a row list is a map from key to row. */
module ReadModels {
  import opened Options
  import opened Projection

  datatype Attr = Artists | Venues | Organizers | Series

  /** An observed event; `cancelMarked` is whether a transition type carries the cancel marker. */
  datatype Event = Event(
    id: string, source: string, city: Option<string>, region: Option<string>, category: Option<string>,
    startsAt: Option<string>, cancelMarked: bool, captureCount: int, distinctStateCount: int,
    transitionCount: int, captureGapHours: Option<real>, lastCaptureStatus: Option<string>,
    consecutiveFailures: int, outOfOrderCount: int, unresolvedEntities: bool, entities: map<Attr, seq<Id>>)
  {
    function Ids(attr: Attr): seq<Id> {
      if attr in entities then entities[attr] else []
    }
  }

  datatype Meta = Meta(name: Option<string>, identityState: string, city: Option<string>, region: Option<string>)

  /** `parse` stands for the datetime parser, None on text it rejects, and `lower` for lower-casing. */
  datatype Dataset = Dataset(
    graph: Graph, meta: map<Id, Meta>, now: int, parse: string -> Option<int>, lower: string -> string)
  {
    function Starts(ev: Event): Option<int> {
      if Has(ev.startsAt) then parse(ev.startsAt.value) else None
    }
  }

  /** Present and non-empty, as Python truth goes. */
  predicate Has(s: Option<string>) {
    s.Some? && s.value != ""
  }

  // ---- scoping --------------------------------------------------------------------------------------

  datatype Exclusion = WrongSource | WrongCity | WrongRegion | BeforeFrom | AfterTo

  /** The standard facets, with dates parsed; cities and regions are compared lower-cased. */
  datatype Facets = Facets(
    source: Option<string>, city: Option<string>, region: Option<string>, dateFrom: Option<int>, dateTo: Option<int>)

  function Excluded(ds: Dataset, f: Facets, ev: Event): Option<Exclusion> {
    var starts := ds.Starts(ev);
    if Has(f.source) && ev.source != f.source.value then Some(WrongSource)
    else if Has(f.city) && ds.lower(ev.city.Or("")) != ds.lower(f.city.value) then Some(WrongCity)
    else if Has(f.region) && ds.lower(ev.region.Or("")) != ds.lower(f.region.value) then Some(WrongRegion)
    else if f.dateFrom.Some? && (starts.None? || starts.value < f.dateFrom.value) then Some(BeforeFrom)
    else if f.dateTo.Some? && (starts.None? || starts.value > f.dateTo.value) then Some(AfterTo)
    else None
  }

  function Filter(p: Event -> bool, events: seq<Event>): seq<Event> {
    if events == [] then []
    else Filter(p, events[..|events| - 1]) + if p(events[|events| - 1]) then [events[|events| - 1]] else []
  }

  function Count(p: Event -> bool, events: seq<Event>): nat {
    if events == [] then 0
    else Count(p, events[..|events| - 1]) + if p(events[|events| - 1]) then 1 else 0
  }

  function Scope(ds: Dataset, f: Facets, events: seq<Event>): seq<Event> {
    Filter(ev => Excluded(ds, f, ev).None?, events)
  }

  lemma {:induction false} FilterKeeps(p: Event -> bool, events: seq<Event>)
    ensures multiset(Filter(p, events)) + multiset(Filter(ev => !p(ev), events)) == multiset(events)
    ensures forall ev :: ev in Filter(p, events) <==> ev in events && p(ev)
    ensures |Filter(p, events)| == Count(p, events)
  {
    if events != [] {
      var front, last := events[..|events| - 1], events[|events| - 1];
      FilterKeeps(p, front);
      assert events == front + [last];
      var q := (ev: Event) => !p(ev);
      assert Filter(q, events) == Filter(q, front) + if q(last) then [last] else [];
    }
  }

  /** The excluded events in order, each with the first facet it fails. */
  function Dropped(ds: Dataset, f: Facets, events: seq<Event>): seq<(string, Exclusion)> {
    if events == [] then []
    else
      var last := events[|events| - 1];
      var why := Excluded(ds, f, last);
      Dropped(ds, f, events[..|events| - 1]) + if why.Some? then [(last.id, why.value)] else []
  }

  /** Every event is included or dropped, once. */
  lemma {:induction false} ScopeSplits(ds: Dataset, f: Facets, events: seq<Event>)
    ensures |Scope(ds, f, events)| + |Dropped(ds, f, events)| == |events|
  {
    if events != [] {
      ScopeSplits(ds, f, events[..|events| - 1]);
    }
  }

  /** Included events in order, and in order an excluded record, with its reason, for every other one. */
  method ScopeEvents(ds: Dataset, f: Facets, events: seq<Event>)
    returns (included: seq<Event>, excluded: seq<(string, Exclusion)>)
    ensures included == Scope(ds, f, events) && excluded == Dropped(ds, f, events)
    ensures |included| + |excluded| == |events|
  {
    included, excluded := [], [];
    var i := 0;
    while i < |events|
      invariant 0 <= i <= |events|
      invariant included == Scope(ds, f, events[..i]) && excluded == Dropped(ds, f, events[..i])
    {
      assert events[..i + 1][..i] == events[..i];
      var why := Excluded(ds, f, events[i]);
      if why.Some? {
        excluded := excluded + [(events[i].id, why.value)];
      } else {
        included := included + [events[i]];
      }
      i := i + 1;
    }
    assert events[..i] == events;
    ScopeSplits(ds, f, events);
  }

  // ---- conservation -----------------------------------------------------------------------------------

  datatype Temporal = Temporal(upcoming: nat, completed: nat, cancelled: nat, undated: nat)

  predicate Upcoming(ds: Dataset, ev: Event) {
    !ev.cancelMarked && ds.Starts(ev).Some? && ds.Starts(ev).value > ds.now
  }

  predicate Completed(ds: Dataset, ev: Event) {
    !ev.cancelMarked && ds.Starts(ev).Some? && ds.Starts(ev).value <= ds.now
  }

  /** The four counts are what they are named for, and together they account for every event. */
  method TemporalCounts(ds: Dataset, events: seq<Event>) returns (t: Temporal)
    ensures t == TemporalOf(ds, events)
    ensures t.upcoming + t.completed + t.cancelled + t.undated == |events|
  {
    t := Temporal(0, 0, 0, 0);
    var i := 0;
    while i < |events|
      invariant 0 <= i <= |events| && t == TemporalOf(ds, events[..i])
      invariant t.upcoming + t.completed + t.cancelled + t.undated == i
    {
      assert events[..i + 1][..i] == events[..i];
      var ev := events[i];
      if ev.cancelMarked {
        t := t.(cancelled := t.cancelled + 1);
      } else {
        var starts := ds.Starts(ev);
        if starts.None? {
          t := t.(undated := t.undated + 1);
        } else if starts.value > ds.now {
          t := t.(upcoming := t.upcoming + 1);
        } else {
          t := t.(completed := t.completed + 1);
        }
      }
      i := i + 1;
    }
    assert events[..i] == events;
  }

  function TemporalOf(ds: Dataset, events: seq<Event>): Temporal {
    Temporal(Count(ev => Upcoming(ds, ev), events), Count(ev => Completed(ds, ev), events),
             Count((ev: Event) => ev.cancelMarked, events),
             Count((ev: Event) => !ev.cancelMarked && ds.Starts(ev).None?, events))
  }

  /** The region an event is counted under: its region, else its city, else none. */
  function RegionKey(ev: Event): Option<string> {
    if Has(ev.region) then ev.region
    else if Has(ev.city) then Some("city:" + ev.city.value)
    else None
  }

  predicate Keyed(keyOf: Event -> Option<string>, k: string, ev: Event) {
    keyOf(ev) == Some(k)
  }

  function Having(events: seq<Event>, keyOf: Event -> Option<string>, k: string): seq<Event> {
    Filter(ev => Keyed(keyOf, k, ev), events)
  }

  ghost predicate Covers(keys: seq<string>, events: seq<Event>, keyOf: Event -> Option<string>) {
    (forall i, j :: 0 <= i < j < |keys| ==> keys[i] != keys[j]) &&
    (forall i :: 0 <= i < |events| && keyOf(events[i]).Some? ==> keyOf(events[i]).value in keys)
  }

  lemma HavingStep(events: seq<Event>, i: nat, keyOf: Event -> Option<string>, k: string)
    requires i < |events|
    ensures Having(events[..i + 1], keyOf, k) ==
            if keyOf(events[i]) == Some(k) then Having(events[..i], keyOf, k) + [events[i]] else Having(events[..i], keyOf, k)
  {
    assert events[..i + 1][..i] == events[..i];
  }

  /** What a bucket map is worth at a key: absent is empty. */
  function Bucket(groups: map<string, seq<Event>>, k: string): seq<Event> {
    if k in groups then groups[k] else []
  }

  ghost predicate Buckets(groups: map<string, seq<Event>>, events: seq<Event>, keyOf: Event -> Option<string>) {
    forall k :: Bucket(groups, k) == Having(events, keyOf, k)
  }

  function Added(groups: map<string, seq<Event>>, k: Option<string>, ev: Event): map<string, seq<Event>> {
    if k.Some? then groups[k.value := Bucket(groups, k.value) + [ev]] else groups
  }

  lemma BucketsStep(groups: map<string, seq<Event>>, events: seq<Event>, i: nat, keyOf: Event -> Option<string>)
    requires i < |events| && Buckets(groups, events[..i], keyOf)
    ensures Buckets(Added(groups, keyOf(events[i]), events[i]), events[..i + 1], keyOf)
  {
    var next := Added(groups, keyOf(events[i]), events[i]);
    forall k ensures Bucket(next, k) == Having(events[..i + 1], keyOf, k) {
      HavingStep(events, i, keyOf, k);
      assert Bucket(groups, k) == Having(events[..i], keyOf, k);
    }
  }

  /** Grouping into buckets, keys in order of first appearance; events without a key are skipped. */
  method GroupBy(events: seq<Event>, keyOf: Event -> Option<string>)
    returns (keys: seq<string>, groups: map<string, seq<Event>>)
    ensures Covers(keys, events, keyOf) && Buckets(groups, events, keyOf)
    ensures forall k :: k in keys <==> k in groups
    ensures forall k :: k in groups ==> groups[k] != []
  {
    keys, groups := [], map[];
    var i := 0;
    while i < |events|
      invariant 0 <= i <= |events|
      invariant Covers(keys, events[..i], keyOf)
      invariant Buckets(groups, events[..i], keyOf)
      invariant forall k :: k in keys <==> k in groups
      invariant forall k :: k in groups ==> groups[k] != []
    {
      var k := keyOf(events[i]);
      BucketsStep(groups, events, i, keyOf);
      if k.Some? {
        if k.value !in groups {
          keys := keys + [k.value];
        }
        groups := groups[k.value := Bucket(groups, k.value) + [events[i]]];
      }
      i := i + 1;
    }
    assert events[..i] == events;
  }

  /** A count summed over buckets. */
  function Summed(p: Event -> bool, events: seq<Event>, keyOf: Event -> Option<string>, keys: seq<string>): nat {
    if keys == [] then 0
    else Summed(p, events, keyOf, keys[..|keys| - 1]) + Count(p, Having(events, keyOf, keys[|keys| - 1]))
  }

  lemma {:induction false} SummedStep(p: Event -> bool, events: seq<Event>, keyOf: Event -> Option<string>, keys: seq<string>)
    requires events != [] && forall i, j :: 0 <= i < j < |keys| ==> keys[i] != keys[j]
    ensures var front, last := events[..|events| - 1], events[|events| - 1];
            Summed(p, events, keyOf, keys) == Summed(p, front, keyOf, keys) +
              if p(last) && keyOf(last).Some? && keyOf(last).value in keys then 1 else 0
  {
    if keys != [] {
      var front, last := events[..|events| - 1], events[|events| - 1];
      var k := keys[|keys| - 1];
      SummedStep(p, events, keyOf, keys[..|keys| - 1]);
      var h := Having(front, keyOf, k);
      assert (h + [last])[..|h|] == h;
      assert Having(events, keyOf, k) == if Keyed(keyOf, k, last) then h + [last] else h;
      assert Count(p, h + [last]) == Count(p, h) + if p(last) then 1 else 0;
      assert keys == keys[..|keys| - 1] + [k] && k !in keys[..|keys| - 1];
    }
  }

  lemma {:induction false} NothingToSum(p: Event -> bool, keyOf: Event -> Option<string>, keys: seq<string>)
    ensures Summed(p, [], keyOf, keys) == 0
  {
    if keys != [] {
      NothingToSum(p, keyOf, keys[..|keys| - 1]);
    }
  }

  /** Aggregation conserves: for every additive metric (a count of events satisfying `p`), the buckets'
      values plus the events without a key add up to the overall value. */
  lemma {:induction false} BucketsConserve(p: Event -> bool, keyless: Event -> bool, events: seq<Event>,
                                           keyOf: Event -> Option<string>, keys: seq<string>)
    requires Covers(keys, events, keyOf) && forall ev :: keyless(ev) == (p(ev) && keyOf(ev).None?)
    ensures Summed(p, events, keyOf, keys) + Count(keyless, events) == Count(p, events)
  {
    if events == [] {
      NothingToSum(p, keyOf, keys);
    } else {
      var front := events[..|events| - 1];
      assert forall i :: 0 <= i < |front| ==> front[i] == events[i];
      BucketsConserve(p, keyless, front, keyOf, keys);
      SummedStep(p, events, keyOf, keys);
    }
  }

  // ---- observation quality ----------------------------------------------------------------------------

  /** The additive metrics of `observation_quality`; each counts the events that meet it. */
  datatype Metric =
    | TrackedEvents | CapturedSuccessfully | TwoPlusObservations | ThreePlusObservations
    | TwoPlusStates | OnePlusTransitions | Stale | PartialCaptures | FailedCaptures | OutOfOrder
    | UnresolvedEntities | MissingDate | MissingVenue | MissingGeography

  predicate Contains(s: string, part: string) {
    part <= s || (s != "" && Contains(s[1..], part))
  }

  predicate Meets(m: Metric, ev: Event) {
    var status := ev.lastCaptureStatus.Or("");
    match m
    case TrackedEvents => true
    case CapturedSuccessfully => "SUCCESS" <= status || ev.captureCount > 0
    case TwoPlusObservations => ev.captureCount >= 2
    case ThreePlusObservations => ev.captureCount >= 3
    case TwoPlusStates => ev.distinctStateCount >= 2
    case OnePlusTransitions => ev.transitionCount >= 1
    case Stale => ev.captureGapHours.Or(0.0) >= 48.0
    case PartialCaptures => Contains(status, "PARTIAL")
    case FailedCaptures => "FAIL" <= status || ev.consecutiveFailures > 0
    case OutOfOrder => ev.outOfOrderCount > 0
    case UnresolvedEntities => ev.unresolvedEntities
    case MissingDate => !Has(ev.startsAt)
    case MissingVenue => ev.Ids(Venues) == []
    case MissingGeography => !Has(ev.city)
  }

  datatype Facet = BySource | ByRegion

  function BucketOf(facet: Facet, ev: Event): Option<string> {
    if facet == BySource then Some(ev.source) else Some(RegionKey(ev).Or("\U{2014}"))
  }

  /** Every additive metric is, overall, the sum of its values over the source or region buckets. */
  lemma QualityConserves(m: Metric, facet: Facet, events: seq<Event>, keys: seq<string>)
    requires Covers(keys, events, ev => BucketOf(facet, ev))
    ensures Summed(ev => Meets(m, ev), events, ev => BucketOf(facet, ev), keys) == Count(ev => Meets(m, ev), events)
  {
    var p := (ev: Event) => Meets(m, ev);
    var keyOf := (ev: Event) => BucketOf(facet, ev);
    var keyless := (ev: Event) => p(ev) && keyOf(ev).None?;
    BucketsConserve(p, keyless, events, keyOf, keys);
    NoneCounted(keyless, events);
  }

  lemma {:induction false} NoneCounted(p: Event -> bool, events: seq<Event>)
    requires forall ev :: !p(ev)
    ensures Count(p, events) == 0
  {
    if events != [] {
      NoneCounted(p, events[..|events| - 1]);
    }
  }

  predicate Any(ev: Event) {
    true
  }

  predicate Keyless(ev: Event) {
    RegionKey(ev).None?
  }

  lemma {:induction false} CountAll(p: Event -> bool, events: seq<Event>)
    requires forall ev :: p(ev)
    ensures Count(p, events) == |events|
  {
    if events != [] {
      CountAll(p, events[..|events| - 1]);
    }
  }

  // ---- rows ---------------------------------------------------------------------------------------------

  function AllIds(events: seq<Event>, attr: Attr): seq<Id> {
    if events == [] then [] else AllIds(events[..|events| - 1], attr) + events[|events| - 1].Ids(attr)
  }

  /** The distinct canonical entities of a kind among events. */
  function Entities(ds: Dataset, events: seq<Event>, attr: Attr): set<Id> {
    FoldSet(ds.graph, AllIds(events, attr))
  }

  /** The distinct non-empty values of a field. */
  function Values(events: seq<Event>, f: Event -> Option<string>): set<string> {
    set ev | ev in events && Has(f(ev)) :: f(ev).value
  }

  function City(ev: Event): Option<string> { ev.city }

  function Region(ev: Event): Option<string> { ev.region }

  function Date(ev: Event): Option<string> { ev.startsAt }

  function Category(ev: Event): Option<string> { ev.category }

  function Sources(events: seq<Event>): multiset<string> {
    if events == [] then multiset{} else Sources(events[..|events| - 1]) + multiset{events[|events| - 1].source}
  }

  datatype RegionRow = RegionRow(
    name: Option<string>, cities: set<string>, observed: nat, temporal: Temporal, artists: nat, venues: nat,
    organizers: nat, sources: multiset<string>, withGeography: nat, missingGeography: nat)

  function RegionRowOf(ds: Dataset, key: string, events: seq<Event>): RegionRow {
    var withGeo := Count((ev: Event) => Has(ev.city), events);
    RegionRow(if key in ds.meta then ds.meta[key].name else None, Values(events, City), |events|, TemporalOf(ds, events),
              |Entities(ds, events, Artists)|, |Entities(ds, events, Venues)|, |Entities(ds, events, Organizers)|,
              Sources(events), withGeo, if withGeo <= |events| then |events| - withGeo else 0)
  }

  /** One row per region key that occurs. */
  function RegionalSupply(ds: Dataset, included: seq<Event>): map<string, RegionRow> {
    map k | k in Values(included, RegionKey) ::
      RegionRowOf(ds, k, Having(included, RegionKey, k))
  }

  predicate Features(ds: Dataset, attr: Attr, c: Id, ev: Event) {
    c in FoldSet(ds.graph, ev.Ids(attr))
  }

  function Featuring(ds: Dataset, attr: Attr, c: Id, events: seq<Event>): seq<Event> {
    Filter(ev => Features(ds, attr, c, ev), events)
  }

  /** What the artist, venue and organizer rows report of the events featuring an entity. */
  datatype ActivityRow = ActivityRow(
    meta: Option<Meta>, observed: nat, temporal: Temporal, cities: set<string>, regions: set<string>,
    sources: multiset<string>, dates: set<string>, longitudinal: nat, eventIds: multiset<string>,
    categories: set<string>, withTransitions: nat, linked: map<Attr, set<Id>>)

  predicate Longitudinal(ev: Event) {
    ev.transitionCount >= 1 || ev.distinctStateCount >= 2 || ev.captureCount >= 2
  }

  function EventIds(events: seq<Event>): multiset<string> {
    if events == [] then multiset{} else EventIds(events[..|events| - 1]) + multiset{events[|events| - 1].id}
  }

  function ActivityRowOf(ds: Dataset, c: Id, events: seq<Event>): ActivityRow {
    ActivityRow(
      if c in ds.meta then Some(ds.meta[c]) else None, |events|, TemporalOf(ds, events), Values(events, City),
      Values(events, Region), Sources(events), Values(events, Date), Count(Longitudinal, events), EventIds(events),
      Values(events, Category), Count((ev: Event) => ev.transitionCount >= 1, events), Linked(ds, events))
  }

  function Linked(ds: Dataset, events: seq<Event>): map<Attr, set<Id>> {
    map a | a in {Artists, Venues, Organizers, Series} :: Entities(ds, events, a)
  }

  function Activity(ds: Dataset, attr: Attr, c: Id, included: seq<Event>): Option<ActivityRow> {
    var events := Featuring(ds, attr, c, included);
    if c !in ds.meta && events == [] then None else Some(ActivityRowOf(ds, c, events))
  }

  /** The observed-event column, summed over the rows of `keys`. */
  function Observed(rows: map<string, RegionRow>, keys: seq<string>): nat
    requires forall k :: k in keys ==> k in rows
  {
    if keys == [] then 0 else Observed(rows, keys[..|keys| - 1]) + rows[keys[|keys| - 1]].observed
  }

  lemma {:induction false} ObservedIsSummed(ds: Dataset, included: seq<Event>, keys: seq<string>)
    requires forall k :: k in keys ==> k in RegionalSupply(ds, included)
    ensures Observed(RegionalSupply(ds, included), keys) == Summed(Any, included, RegionKey, keys)
  {
    if keys != [] {
      ObservedIsSummed(ds, included, keys[..|keys| - 1]);
      CountAll(Any, Having(included, RegionKey, keys[|keys| - 1]));
    }
  }

  /** The observed-event counts of the region rows, listed in any order, account for every included event but
      those without a region and a city. */
  lemma RegionsConserveEvents(ds: Dataset, included: seq<Event>, keys: seq<string>)
    requires forall i, j :: 0 <= i < j < |keys| ==> keys[i] != keys[j]
    requires forall k :: k in keys <==> k in RegionalSupply(ds, included)
    ensures Observed(RegionalSupply(ds, included), keys) + Count(Keyless, included) == |included|
  {
    RowKeysCover(ds, included, keys);
    SummedConserves(included, keys);
    ObservedIsSummed(ds, included, keys);
  }

  lemma RowKeysCover(ds: Dataset, included: seq<Event>, keys: seq<string>)
    requires forall i, j :: 0 <= i < j < |keys| ==> keys[i] != keys[j]
    requires forall k :: k in keys <==> k in RegionalSupply(ds, included)
    ensures Covers(keys, included, RegionKey)
  {
    forall i | 0 <= i < |included| && RegionKey(included[i]).Some? ensures RegionKey(included[i]).value in keys {
      assert included[i] in included && Has(RegionKey(included[i]));
      assert RegionKey(included[i]).value in Values(included, RegionKey);
    }
  }

  lemma SummedConserves(included: seq<Event>, keys: seq<string>)
    requires Covers(keys, included, RegionKey)
    ensures Summed(Any, included, RegionKey, keys) + Count(Keyless, included) == |included|
  {
    BucketsConserve(Any, Keyless, included, RegionKey, keys);
    CountAll(Any, included);
  }

  // ---- the code that folds ------------------------------------------------------------------------------

  method EventsFeaturing(ds: Dataset, canon: Canonicalizer, attr: Attr, c: Id, included: seq<Event>)
    returns (out: seq<Event>)
    requires canon.Valid() && canon.graph == ds.graph
    modifies canon`cache
    ensures canon.Valid() && out == Featuring(ds, attr, c, included)
  {
    out := [];
    var i := 0;
    while i < |included|
      invariant 0 <= i <= |included| && canon.Valid()
      invariant out == Featuring(ds, attr, c, included[..i])
    {
      assert included[..i + 1][..i] == included[..i];
      var folded := canon.DedupeIds(included[i].Ids(attr));
      DedupeCountsOnce(ds.graph, included[i].Ids(attr));
      assert (c in folded) == (c in (set x | x in folded));
      if c in folded {
        out := out + [included[i]];
      }
      i := i + 1;
    }
    assert included[..i] == included;
  }

  /** The number of distinct canonical entities, counted through the caching canonicalizer. */
  method UniqueCanonical(ds: Dataset, canon: Canonicalizer, events: seq<Event>, attr: Attr) returns (ids: seq<Id>)
    requires canon.Valid() && canon.graph == ds.graph
    modifies canon`cache
    ensures canon.Valid()
    ensures NoRepeats(ids) && (set x | x in ids) == Entities(ds, events, attr)
    ensures |ids| == |Entities(ds, events, attr)|
  {
    var all: seq<Id> := [];
    var i := 0;
    while i < |events|
      invariant 0 <= i <= |events| && all == AllIds(events[..i], attr)
    {
      assert events[..i + 1][..i] == events[..i];
      all := all + events[i].Ids(attr);
      i := i + 1;
    }
    assert events[..i] == events;
    ids := canon.DedupeIds(all);
    DedupeCountsOnce(ds.graph, all);
  }

  method CountedRow(ds: Dataset, canon: Canonicalizer, key: string, events: seq<Event>) returns (row: RegionRow)
    requires canon.Valid() && canon.graph == ds.graph
    modifies canon`cache
    ensures canon.Valid() && row == RegionRowOf(ds, key, events)
  {
    var temporal := TemporalCounts(ds, events);
    var artists := UniqueCanonical(ds, canon, events, Artists);
    var venues := UniqueCanonical(ds, canon, events, Venues);
    var organizers := UniqueCanonical(ds, canon, events, Organizers);
    var withGeo := Count((ev: Event) => Has(ev.city), events);
    row := RegionRow(if key in ds.meta then ds.meta[key].name else None, Values(events, City), |events|, temporal,
                     |artists|, |venues|, |organizers|, Sources(events), withGeo,
                     if withGeo <= |events| then |events| - withGeo else 0);
  }

  lemma GroupKeysOccur(events: seq<Event>, keys: seq<string>, groups: map<string, seq<Event>>, k: string)
    requires Covers(keys, events, RegionKey) && Buckets(groups, events, RegionKey)
    requires (forall x :: x in keys <==> x in groups) && forall x :: x in groups ==> groups[x] != []
    ensures k in groups <==> k in Values(events, RegionKey)
  {
    if k in groups {
      FilterKeeps(ev => Keyed(RegionKey, k, ev), events);
      assert Bucket(groups, k) == Having(events, RegionKey, k);
      var ev := Having(events, RegionKey, k)[0];
      assert ev in Having(events, RegionKey, k);
      assert ev in events && Keyed(RegionKey, k, ev);
    }
    if k in Values(events, RegionKey) {
      var ev :| ev in events && Has(RegionKey(ev)) && RegionKey(ev).value == k;
      var i :| 0 <= i < |events| && events[i] == ev;
      assert RegionKey(events[i]).value in keys;
    }
  }

  method RowsFor(ds: Dataset, canon: Canonicalizer, keys: seq<string>, groups: map<string, seq<Event>>)
    returns (rows: map<string, RegionRow>)
    requires canon.Valid() && canon.graph == ds.graph
    modifies canon`cache
    ensures canon.Valid() && forall k :: k in rows <==> k in keys
    ensures forall k :: k in rows ==> rows[k] == RegionRowOf(ds, k, Bucket(groups, k))
  {
    rows := map[];
    var i := 0;
    while i < |keys|
      invariant 0 <= i <= |keys| && canon.Valid()
      invariant rows.Keys == (set k | k in keys[..i])
      invariant forall k :: k in rows ==> rows[k] == RegionRowOf(ds, k, Bucket(groups, k))
    {
      var row := CountedRow(ds, canon, keys[i], Bucket(groups, keys[i]));
      rows := rows[keys[i] := row];
      i := i + 1;
    }
    assert keys[..i] == keys;
  }

  method RegionalRows(ds: Dataset, canon: Canonicalizer, included: seq<Event>) returns (rows: map<string, RegionRow>)
    requires canon.Valid() && canon.graph == ds.graph
    modifies canon`cache
    ensures canon.Valid() && rows == RegionalSupply(ds, included)
  {
    var keys, groups := GroupBy(included, RegionKey);
    rows := RowsFor(ds, canon, keys, groups);
    forall k ensures k in rows <==> k in Values(included, RegionKey) {
      GroupKeysOccur(included, keys, groups, k);
    }
    forall k | k in rows ensures rows[k] == RegionRowOf(ds, k, Having(included, RegionKey, k)) {
      assert Bucket(groups, k) == Having(included, RegionKey, k);
    }
    RowsAreSupply(ds, included, rows);
  }

  lemma RowsAreSupply(ds: Dataset, included: seq<Event>, rows: map<string, RegionRow>)
    requires forall k :: k in rows <==> k in Values(included, RegionKey)
    requires forall k :: k in rows ==> rows[k] == RegionRowOf(ds, k, Having(included, RegionKey, k))
    ensures rows == RegionalSupply(ds, included)
  {
  }

  // ---- fold invariance ------------------------------------------------------------------------------------

  /** Equal but for how entity ids are written: each list folds to the same canonical set. */
  ghost predicate SameFolded(g: Graph, a: Event, b: Event) {
    b.(entities := a.entities) == a &&
    forall attr: Attr :: FoldSet(g, a.Ids(attr)) == FoldSet(g, b.Ids(attr))
  }

  ghost predicate AllSameFolded(g: Graph, a: seq<Event>, b: seq<Event>) {
    |a| == |b| && forall i :: 0 <= i < |a| ==> SameFolded(g, a[i], b[i])
  }

  /** A predicate that does not see how ids are written. */
  ghost predicate Blind(g: Graph, p: Event -> bool) {
    forall a, b :: SameFolded(g, a, b) ==> p(a) == p(b)
  }

  lemma {:induction false} BlindCounts(g: Graph, p: Event -> bool, a: seq<Event>, b: seq<Event>)
    requires AllSameFolded(g, a, b) && Blind(g, p)
    ensures Count(p, a) == Count(p, b) && AllSameFolded(g, Filter(p, a), Filter(p, b))
  {
    if a != [] {
      BlindCounts(g, p, a[..|a| - 1], b[..|b| - 1]);
      assert SameFolded(g, a[|a| - 1], b[|b| - 1]);
    }
  }

  lemma {:induction false} SameAggregates(ds: Dataset, a: seq<Event>, b: seq<Event>, attr: Attr)
    requires AllSameFolded(ds.graph, a, b)
    ensures Entities(ds, a, attr) == Entities(ds, b, attr) && Sources(a) == Sources(b) && EventIds(a) == EventIds(b)
  {
    if a != [] {
      var x, y := a[|a| - 1], b[|b| - 1];
      SameAggregates(ds, a[..|a| - 1], b[..|b| - 1], attr);
      assert SameFolded(ds.graph, x, y);
      FoldSetUnion(ds.graph, AllIds(a[..|a| - 1], attr), x.Ids(attr));
      FoldSetUnion(ds.graph, AllIds(b[..|b| - 1], attr), y.Ids(attr));
    }
  }

  lemma SameProjected(g: Graph, a: seq<Event>, b: seq<Event>, f: Event -> Option<string>)
    requires AllSameFolded(g, a, b)
    requires forall x, y :: SameFolded(g, x, y) ==> f(x) == f(y)
    ensures Values(a, f) == Values(b, f)
  {
  }

  lemma TemporalIsFoldInvariant(ds: Dataset, a: seq<Event>, b: seq<Event>)
    requires AllSameFolded(ds.graph, a, b)
    ensures TemporalOf(ds, a) == TemporalOf(ds, b)
  {
    BlindCounts(ds.graph, ev => Upcoming(ds, ev), a, b);
    BlindCounts(ds.graph, ev => Completed(ds, ev), a, b);
    BlindCounts(ds.graph, (ev: Event) => ev.cancelMarked, a, b);
    BlindCounts(ds.graph, (ev: Event) => !ev.cancelMarked && ds.Starts(ev).None?, a, b);
  }

  lemma RegionRowIsFoldInvariant(ds: Dataset, key: string, a: seq<Event>, b: seq<Event>)
    requires AllSameFolded(ds.graph, a, b)
    ensures RegionRowOf(ds, key, a) == RegionRowOf(ds, key, b)
  {
    TemporalIsFoldInvariant(ds, a, b);
    BlindCounts(ds.graph, (ev: Event) => Has(ev.city), a, b);
    SameAggregates(ds, a, b, Artists);
    SameAggregates(ds, a, b, Venues);
    SameAggregates(ds, a, b, Organizers);
    SameProjected(ds.graph, a, b, City);
  }

  /** Rows see entities only through the fold: rewriting ids without changing what they fold to leaves
      every region row unchanged, keys included. */
  lemma RegionalSupplyIsFoldInvariant(ds: Dataset, a: seq<Event>, b: seq<Event>)
    requires AllSameFolded(ds.graph, a, b)
    ensures RegionalSupply(ds, a) == RegionalSupply(ds, b)
  {
    SameProjected(ds.graph, a, b, RegionKey);
    forall k ensures RegionRowOf(ds, k, Having(a, RegionKey, k)) == RegionRowOf(ds, k, Having(b, RegionKey, k)) {
      BlindCounts(ds.graph, ev => Keyed(RegionKey, k, ev), a, b);
      RegionRowIsFoldInvariant(ds, k, Having(a, RegionKey, k), Having(b, RegionKey, k));
    }
  }

  lemma LinkedIsFoldInvariant(ds: Dataset, a: seq<Event>, b: seq<Event>)
    requires AllSameFolded(ds.graph, a, b)
    ensures Linked(ds, a) == Linked(ds, b)
  {
    forall attr: Attr ensures Entities(ds, a, attr) == Entities(ds, b, attr) {
      SameAggregates(ds, a, b, attr);
    }
  }

  lemma ActivityRowIsFoldInvariant(ds: Dataset, c: Id, a: seq<Event>, b: seq<Event>)
    requires AllSameFolded(ds.graph, a, b)
    ensures ActivityRowOf(ds, c, a) == ActivityRowOf(ds, c, b)
  {
    TemporalIsFoldInvariant(ds, a, b);
    SameProjected(ds.graph, a, b, City);
    SameProjected(ds.graph, a, b, Region);
    SameProjected(ds.graph, a, b, Date);
    SameProjected(ds.graph, a, b, Category);
    BlindCounts(ds.graph, Longitudinal, a, b);
    BlindCounts(ds.graph, (ev: Event) => ev.transitionCount >= 1, a, b);
    SameAggregates(ds, a, b, Artists);
    LinkedIsFoldInvariant(ds, a, b);
  }

  /** And every artist, venue and organizer activity row. */
  lemma ActivityIsFoldInvariant(ds: Dataset, attr: Attr, c: Id, a: seq<Event>, b: seq<Event>)
    requires AllSameFolded(ds.graph, a, b)
    ensures Activity(ds, attr, c, a) == Activity(ds, attr, c, b)
  {
    BlindCounts(ds.graph, ev => Features(ds, attr, c, ev), a, b);
    ActivityRowIsFoldInvariant(ds, c, Featuring(ds, attr, c, a), Featuring(ds, attr, c, b));
  }

  /** Writing an id differently: replace the entry at `at` by its canonical id, or add that beside it. */
  datatype Rewrite = Replace(event: nat, attr: Attr, at: nat) | AddBeside(event: nat, attr: Attr, at: nat)

  function Rewritten(g: Graph, ids: seq<Id>, r: Rewrite): seq<Id>
    requires r.at < |ids|
  {
    var c := CanonicalId(g, ids[r.at], MAX_FOLD_HOPS);
    if r.Replace? then ids[r.at := c] else ids[..r.at + 1] + [c] + ids[r.at + 1..]
  }

  function Apply(g: Graph, events: seq<Event>, r: Rewrite): seq<Event> {
    if r.event < |events| && r.at < |events[r.event].Ids(r.attr)| then
      var ev := events[r.event];
      events[r.event := ev.(entities := ev.entities[r.attr := Rewritten(g, ev.Ids(r.attr), r)])]
    else events
  }

  function ApplyAll(g: Graph, events: seq<Event>, rs: seq<Rewrite>): seq<Event>
    decreases |rs|
  {
    if rs == [] then events else ApplyAll(g, Apply(g, events, rs[0]), rs[1..])
  }

  /** Every chain from an id in use is acyclic and within the hop bound. */
  ghost predicate ChainsEnd(g: Graph, events: seq<Event>) {
    forall i, attr: Attr, x :: 0 <= i < |events| && x in events[i].Ids(attr) ==> Ends(g, x, Hops(MAX_FOLD_HOPS))
  }

  lemma RewriteKeepsFoldSet(g: Graph, ids: seq<Id>, r: Rewrite)
    requires r.at < |ids| && Ends(g, ids[r.at], Hops(MAX_FOLD_HOPS))
    ensures FoldSet(g, Rewritten(g, ids, r)) == FoldSet(g, ids)
    ensures forall x :: x in Rewritten(g, ids, r) ==> x in ids || Edge(g, x).None?
  {
    var x := ids[r.at];
    var c := CanonicalId(g, x, MAX_FOLD_HOPS);
    CanonicalIsTheEnd(g, x, MAX_FOLD_HOPS);
    IdempotentExactlyWhen(g, x, MAX_FOLD_HOPS);
    assert CanonicalId(g, c, MAX_FOLD_HOPS) == c;
    var front, back := ids[..r.at], ids[r.at + 1..];
    assert ids == front + [x] + back;
    assert Rewritten(g, ids, r) == if r.Replace? then front + [c] + back else front + [x] + [c] + back;
    assert FoldSet(g, [x]) == {c} && FoldSet(g, [c]) == {c};
    FoldSetUnion(g, front, [x]);
    FoldSetUnion(g, front, [c]);
    FoldSetUnion(g, front + [x], [c]);
    FoldSetUnion(g, front + [x], back);
    FoldSetUnion(g, front + [c], back);
    FoldSetUnion(g, front + [x] + [c], back);
  }

  lemma ApplyKeepsFolds(g: Graph, events: seq<Event>, r: Rewrite)
    requires ChainsEnd(g, events)
    ensures AllSameFolded(g, events, Apply(g, events, r)) && ChainsEnd(g, Apply(g, events, r))
  {
    if r.event < |events| && r.at < |events[r.event].Ids(r.attr)| {
      var ids := events[r.event].Ids(r.attr);
      assert ids[r.at] in ids;
      RewriteKeepsFoldSet(g, ids, r);
      var ev, ev' := events[r.event], Apply(g, events, r)[r.event];
      assert forall attr: Attr :: attr != r.attr ==> ev'.Ids(attr) == ev.Ids(attr);
      assert ev'.Ids(r.attr) == Rewritten(g, ids, r);
    }
  }

  lemma {:induction false} ApplyAllKeepsFolds(g: Graph, events: seq<Event>, rs: seq<Rewrite>)
    requires ChainsEnd(g, events)
    ensures AllSameFolded(g, events, ApplyAll(g, events, rs))
    decreases |rs|
  {
    if rs != [] {
      var next := Apply(g, events, rs[0]);
      ApplyKeepsFolds(g, events, rs[0]);
      ApplyAllKeepsFolds(g, next, rs[1..]);
      var end := ApplyAll(g, next, rs[1..]);
      forall i | 0 <= i < |events| ensures SameFolded(g, events[i], end[i]) {
        assert SameFolded(g, events[i], next[i]) && SameFolded(g, next[i], end[i]);
      }
    }
  }

  /** Fold invariance: replace any ids of any events by their canonical ids, or add these beside them, as
      often as you like: no regional row and no activity row changes. */
  lemma RowsIgnoreHowIdsAreWritten(ds: Dataset, events: seq<Event>, rs: seq<Rewrite>, attr: Attr, c: Id)
    requires ChainsEnd(ds.graph, events)
    ensures RegionalSupply(ds, ApplyAll(ds.graph, events, rs)) == RegionalSupply(ds, events)
    ensures Activity(ds, attr, c, ApplyAll(ds.graph, events, rs)) == Activity(ds, attr, c, events)
  {
    ApplyAllKeepsFolds(ds.graph, events, rs);
    RegionalSupplyIsFoldInvariant(ds, events, ApplyAll(ds.graph, events, rs));
    ActivityIsFoldInvariant(ds, attr, c, events, ApplyAll(ds.graph, events, rs));
  }

  /** A superseded id features in no event: it never gets a row's events beside its canonical. */
  lemma {:induction false} SupersededFeaturesNowhere(ds: Dataset, attr: Attr, legacy: Id, events: seq<Event>)
    requires ChainsEnd(ds.graph, events) && Edge(ds.graph, legacy).Some?
    ensures Featuring(ds, attr, legacy, events) == []
  {
    if events != [] {
      var front, last := events[..|events| - 1], events[|events| - 1];
      assert forall i :: 0 <= i < |front| ==> front[i] == events[i];
      SupersededFeaturesNowhere(ds, attr, legacy, front);
      forall x | x in last.Ids(attr) ensures CanonicalId(ds.graph, x, MAX_FOLD_HOPS) != legacy {
        assert last == events[|events| - 1];
        SupersededIsNeverCanonical(ds.graph, x, legacy, MAX_FOLD_HOPS);
      }
    }
  }
}
