/** Usage events, their hourly aggregates, and reading a period from the aggregates. */
module Usage {
  import opened Wrappers
  import opened Subscriptions
  import opened Sums

  const HOUR: int := 3_600_000_000

  /** The public id of an event is its position in the table. */
  datatype Event = Event(org: nat, feature: string, quantity: int, recordedAt: Instant, key: string)

  datatype Bucket = Bucket(org: nat, feature: string, hour: Instant)

  function HourStart(at: Instant): (h: Instant)
    ensures h <= at < h + HOUR && h % HOUR == 0
  {
    at / HOUR * HOUR
  }

  /** The first whole hour that is not before `at`. */
  function HourEnd(at: Instant): (h: Instant)
    ensures at <= h < at + HOUR && h % HOUR == 0
  {
    if at % HOUR == 0 then at else HourStart(at) + HOUR
  }

  function BucketOf(e: Event): Bucket {
    Bucket(e.org, e.feature, HourStart(e.recordedAt))
  }

  /* ---------- aggregation ---------- */

  /** The sum of all events of a bucket. */
  function BucketSum(events: seq<Event>, b: Bucket): int {
    if events == [] then 0
    else
      var e := events[|events| - 1];
      BucketSum(events[..|events| - 1], b) + (if BucketOf(e) == b then e.quantity else 0)
  }

  /** The sum the aggregation query computes for [start, start + 1h). */
  function HourSum(events: seq<Event>, org: nat, feature: string, start: Instant): int {
    EventSum(events, org, feature, start, start + HOUR)
  }

  /** A direct sum over the events of a half-open interval. */
  function EventSum(events: seq<Event>, org: nat, feature: string, from: Instant, until: Instant): int {
    if events == [] then 0
    else
      var e := events[|events| - 1];
      EventSum(events[..|events| - 1], org, feature, from, until)
      + (if e.org == org && e.feature == feature && from <= e.recordedAt < until then e.quantity else 0)
  }

  lemma {:induction false} HourSumIsBucketSum(events: seq<Event>, b: Bucket)
    requires b.hour % HOUR == 0
    ensures HourSum(events, b.org, b.feature, b.hour) == BucketSum(events, b)
  {
    if events == [] {
    } else {
      HourSumIsBucketSum(events[..|events| - 1], b);
      SameHour(events[|events| - 1].recordedAt, b.hour);
    }
  }

  lemma SameHour(at: Instant, hour: Instant)
    requires hour % HOUR == 0
    ensures HourStart(at) == hour <==> hour <= at < hour + HOUR
  {
  }

  /** The start of a sweep's lookback window. */
  function Since(now: Instant, lookbackHours: int): Instant {
    now - lookbackHours * HOUR
  }

  /** The buckets with an event in the lookback window [since, until). */
  function DueBuckets(events: seq<Event>, since: Instant, until: Instant): set<Bucket> {
    set i | 0 <= i < |events| && since <= events[i].recordedAt < until :: BucketOf(events[i])
  }

  lemma DueHoursAreWhole(events: seq<Event>, since: Instant, until: Instant)
    ensures forall b :: b in DueBuckets(events, since, until) ==> b.hour % HOUR == 0
  {
  }

  /** The aggregates with some buckets recomputed. */
  function Refreshed(aggregates: map<Bucket, int>, events: seq<Event>, buckets: set<Bucket>): map<Bucket, int> {
    aggregates + map b | b in buckets :: BucketSum(events, b)
  }

  lemma RefreshOne(aggregates: map<Bucket, int>, events: seq<Event>, buckets: set<Bucket>, b: Bucket)
    ensures Refreshed(aggregates, events, buckets + {b})
         == Refreshed(aggregates, events, buckets)[b := BucketSum(events, b)]
  {
  }

  function Sweep(aggregates: map<Bucket, int>, events: seq<Event>, since: Instant, until: Instant): map<Bucket, int> {
    Refreshed(aggregates, events, DueBuckets(events, since, until))
  }

  /** What a sweep promises: a bucket with an event in the window holds what a direct query over its hour adds up, every
      other bucket is as it was, and there are no more buckets than that. */
  ghost predicate Swept(before: map<Bucket, int>, after: map<Bucket, int>, events: seq<Event>, since: Instant,
                        until: Instant)
  {
    && (forall b :: b in DueBuckets(events, since, until) ==>
          b in after && after[b] == HourSum(events, b.org, b.feature, b.hour))
    && (forall b :: b !in DueBuckets(events, since, until) ==>
          (b in after <==> b in before) && (b in after ==> after[b] == before[b]))
  }

  /** A sweep keeps its promise, and sweeping again changes nothing. */
  lemma SweepKeepsPromise(aggregates: map<Bucket, int>, events: seq<Event>, since: Instant, until: Instant)
    ensures
      var after := Sweep(aggregates, events, since, until);
      Swept(aggregates, after, events, since, until) && Sweep(after, events, since, until) == after
  {
    var after := Sweep(aggregates, events, since, until);
    DueHoursAreWhole(events, since, until);
    forall b | b in DueBuckets(events, since, until)
      ensures b in after && after[b] == HourSum(events, b.org, b.feature, b.hour)
    {
      HourSumIsBucketSum(events, b);
    }
  }

  /** The aggregates after a sweep are the only ones that keep its promise. */
  lemma SweepIsExact(before: map<Bucket, int>, after: map<Bucket, int>, events: seq<Event>, since: Instant,
                     until: Instant)
    ensures Swept(before, after, events, since, until) <==> after == Sweep(before, events, since, until)
  {
    SweepKeepsPromise(before, events, since, until);
    if Swept(before, after, events, since, until) {
      SweptIsUnique(before, after, Sweep(before, events, since, until), events, since, until);
    }
  }

  lemma SweptIsUnique(before: map<Bucket, int>, a: map<Bucket, int>, c: map<Bucket, int>, events: seq<Event>,
                      since: Instant, until: Instant)
    requires Swept(before, a, events, since, until) && Swept(before, c, events, since, until)
    ensures a == c
  {
    forall b
      ensures (b in a <==> b in c) && (b in a ==> a[b] == c[b])
    {
      assert b in DueBuckets(events, since, until) || b !in DueBuckets(events, since, until);
    }
  }

  /* ---------- reading a period ---------- */

  ghost function PeriodBuckets(aggregates: map<Bucket, int>, org: nat, feature: string, from: Instant, until: Instant)
    : set<Bucket>
  {
    set b | b in aggregates && b.org == org && b.feature == feature && from <= b.hour < until
  }

  ghost function Quantity(aggregates: map<Bucket, int>): Bucket -> int {
    b => if b in aggregates then aggregates[b] else 0
  }

  /** The sum of the aggregates of a feature whose hour starts within [from, until). */
  ghost function PeriodSum(aggregates: map<Bucket, int>, org: nat, feature: string, from: Instant, until: Instant)
    : int
  {
    SumOver(PeriodBuckets(aggregates, org, feature, from, until), Quantity(aggregates))
  }

  /** Every bucket holds its events' sum, and every event has its bucket. */
  ghost predicate Current(aggregates: map<Bucket, int>, events: seq<Event>) {
    && (forall b :: b in aggregates ==> aggregates[b] == BucketSum(events, b))
    && (forall i :: 0 <= i < |events| ==> BucketOf(events[i]) in aggregates)
  }

  function SumIn(events: seq<Event>, buckets: set<Bucket>): int {
    if events == [] then 0
    else
      var e := events[|events| - 1];
      SumIn(events[..|events| - 1], buckets) + (if BucketOf(e) in buckets then e.quantity else 0)
  }

  /** Summing bucket by bucket is summing event by event. */
  lemma {:induction false} SumBucketsIsSumEvents(events: seq<Event>, buckets: set<Bucket>)
    ensures SumOver(buckets, b => BucketSum(events, b)) == SumIn(events, buckets)
  {
    if events == [] {
      SumZero(buckets, b => BucketSum(events, b));
    } else {
      var n := |events| - 1;
      var e := events[n];
      SumBucketsIsSumEvents(events[..n], buckets);
      var last := (b: Bucket) => if BucketOf(e) == b then e.quantity else 0;
      SumPointwise(buckets, b => BucketSum(events[..n], b), last, b => BucketSum(events, b));
      SumPoint(buckets, last, BucketOf(e));
    }
  }

  lemma {:induction false} SumInIsEventSum(events: seq<Event>, buckets: set<Bucket>, org: nat, feature: string,
                                           from: Instant, until: Instant)
    requires forall i :: 0 <= i < |events| ==>
               (BucketOf(events[i]) in buckets <==>
                  events[i].org == org && events[i].feature == feature && from <= events[i].recordedAt < until)
    ensures SumIn(events, buckets) == EventSum(events, org, feature, from, until)
  {
    if events == [] {
    } else {
      SumInIsEventSum(events[..|events| - 1], buckets, org, feature, from, until);
    }
  }

  /** When every bucket is current, adding up the buckets that start within an interval is adding up the events of the
      interval with both ends rounded up to whole hours. */
  lemma BucketsReadEvents(aggregates: map<Bucket, int>, events: seq<Event>, org: nat, feature: string,
                          from: Instant, until: Instant)
    requires Current(aggregates, events)
    ensures PeriodSum(aggregates, org, feature, from, until)
         == EventSum(events, org, feature, HourEnd(from), HourEnd(until))
  {
    var buckets := PeriodBuckets(aggregates, org, feature, from, until);
    SumCongruent(buckets, Quantity(aggregates), b => BucketSum(events, b));
    SumBucketsIsSumEvents(events, buckets);
    forall i | 0 <= i < |events|
      ensures BucketOf(events[i]) in buckets <==>
                events[i].org == org && events[i].feature == feature
                && HourEnd(from) <= events[i].recordedAt < HourEnd(until)
    {
      StartsBefore(events[i].recordedAt, from);
      StartsBefore(events[i].recordedAt, until);
    }
    SumInIsEventSum(events, buckets, org, feature, HourEnd(from), HourEnd(until));
  }

  lemma StartsBefore(at: Instant, bound: Instant)
    ensures HourStart(at) < bound <==> at < HourEnd(bound)
  {
    var k, m := at / HOUR, bound / HOUR;
    assert HourStart(at) == k * HOUR && m * HOUR <= bound < (m + 1) * HOUR;
  }

  /** When every bucket is current, the period read equals the direct event sum over the period rounded outward to whole
      hours. */
  lemma PeriodReadIsEventSum(aggregates: map<Bucket, int>, events: seq<Event>, org: nat, feature: string,
                             start: Instant, end: Instant)
    requires Current(aggregates, events)
    ensures PeriodSum(aggregates, org, feature, HourStart(start), end)
         == EventSum(events, org, feature, HourStart(start), HourEnd(end))
  {
    BucketsReadEvents(aggregates, events, org, feature, HourStart(start), end);
  }

  /* ---------- ingestion ---------- */

  /** A timestamp as callers send it; one without a time zone is rejected. */
  datatype Stamp = Aware(instant: Instant) | Naive

  datatype EventIn = EventIn(feature: string, quantity: int, key: string, recordedAt: Option<Stamp>)

  function KnownBelow(events: seq<Event>, n: nat, org: nat, key: string): (id: Option<nat>)
    requires n <= |events|
    ensures id.Some? ==> id.value < n && events[id.value].org == org && events[id.value].key == key
    ensures id.None? ==> forall i :: 0 <= i < n ==> events[i].org != org || events[i].key != key
  {
    if n == 0 then None
    else if events[n - 1].org == org && events[n - 1].key == key then Some(n - 1)
    else KnownBelow(events, n - 1, org, key)
  }

  /** The id of the organization's event with a key. */
  function Known(events: seq<Event>, org: nat, key: string): (id: Option<nat>)
    ensures id.Some? ==> id.value < |events| && events[id.value].org == org && events[id.value].key == key
    ensures id.None? ==> forall i :: 0 <= i < |events| ==> events[i].org != org || events[i].key != key
  {
    KnownBelow(events, |events|, org, key)
  }

  predicate AllAware(batch: seq<EventIn>) {
    forall i :: 0 <= i < |batch| ==> batch[i].recordedAt != Some(Naive)
  }

  function ToEvent(org: nat, e: EventIn, now: Instant): Event
    requires e.recordedAt != Some(Naive)
  {
    Event(org, e.feature, e.quantity, if e.recordedAt.None? then now else e.recordedAt.value.instant, e.key)
  }

  function InsertOne(events: seq<Event>, org: nat, e: EventIn, now: Instant): seq<Event>
    requires e.recordedAt != Some(Naive)
  {
    if Known(events, org, e.key).Some? then events else events + [ToEvent(org, e, now)]
  }

  /** The table after inserting a batch event by event, each ignored if its key is known. */
  function InsertAll(events: seq<Event>, org: nat, batch: seq<EventIn>, now: Instant): (after: seq<Event>)
    requires AllAware(batch)
    ensures |events| <= |after| <= |events| + |batch| && after[..|events|] == events
  {
    if batch == [] then events
    else
      var n := |batch| - 1;
      InsertOne(InsertAll(events, org, batch[..n], now), org, batch[n], now)
  }

  lemma InsertAllNext(events: seq<Event>, org: nat, batch: seq<EventIn>, i: nat, now: Instant)
    requires i < |batch| && AllAware(batch)
    ensures AllAware(batch[..i]) && AllAware(batch[..i + 1])
    ensures InsertAll(events, org, batch[..i + 1], now)
         == InsertOne(InsertAll(events, org, batch[..i], now), org, batch[i], now)
  {
    assert batch[..i + 1][..i] == batch[..i];
  }

  ghost predicate OnePerKey(events: seq<Event>) {
    forall i, j :: 0 <= i < j < |events| ==> events[i].org != events[j].org || events[i].key != events[j].key
  }

  lemma {:induction false} InsertAllKeepsOnePerKey(events: seq<Event>, org: nat, batch: seq<EventIn>, now: Instant)
    requires OnePerKey(events) && AllAware(batch)
    ensures OnePerKey(InsertAll(events, org, batch, now))
  {
    if batch == [] {
    } else {
      InsertAllKeepsOnePerKey(events, org, batch[..|batch| - 1], now);
    }
  }

  /** Ingesting a concatenation stores what ingesting the parts in turn stores, given explicit timestamps. */
  lemma {:induction false} BatchesCompose(events: seq<Event>, org: nat, a: seq<EventIn>, b: seq<EventIn>,
                                          now: Instant, later: Instant)
    requires AllAware(a + b) && AllAware(a) && AllAware(b)
    requires forall i :: 0 <= i < |b| ==> b[i].recordedAt.Some?
    ensures InsertAll(events, org, a + b, now) == InsertAll(InsertAll(events, org, a, now), org, b, later)
  {
    if b == [] {
      assert a + b == a;
    } else {
      var n := |b| - 1;
      assert (a + b)[..|a + b| - 1] == a + b[..n];
      BatchesCompose(events, org, a, b[..n], now, later);
    }
  }

  /** Growing the table does not change which event answers for a known key. */
  lemma {:induction false} KnownIsStable(events: seq<Event>, more: seq<Event>, org: nat, key: string)
    requires |events| <= |more| && more[..|events|] == events && OnePerKey(more)
    requires Known(events, org, key).Some?
    ensures Known(more, org, key) == Known(events, org, key)
  {
    var i := Known(events, org, key).value;
    assert more[i] == more[..|events|][i] == events[i];
  }

  lemma {:induction false} InsertAllKnows(events: seq<Event>, org: nat, batch: seq<EventIn>, now: Instant, k: nat)
    requires AllAware(batch) && k < |batch|
    ensures Known(InsertAll(events, org, batch, now), org, batch[k].key).Some?
  {
    var n := |batch| - 1;
    var before, after := InsertAll(events, org, batch[..n], now), InsertAll(events, org, batch, now);
    if k < n {
      InsertAllKnows(events, org, batch[..n], now, k);
      var i := Known(before, org, batch[k].key).value;
      assert after[i] == before[i];
    } else if Known(before, org, batch[n].key).None? {
      assert after[|before|].key == batch[n].key;
    }
  }

  /** Sending a batch again, whenever, changes nothing. */
  lemma {:induction false} ReplayedBatchIsNoop(events: seq<Event>, org: nat, batch: seq<EventIn>, now: Instant)
    requires AllAware(batch)
    requires forall k :: 0 <= k < |batch| ==> Known(events, org, batch[k].key).Some?
    ensures InsertAll(events, org, batch, now) == events
  {
    if batch == [] {
    } else {
      ReplayedBatchIsNoop(events, org, batch[..|batch| - 1], now);
    }
  }

  lemma ResendingIsNoop(events: seq<Event>, org: nat, batch: seq<EventIn>, now: Instant, later: Instant)
    requires AllAware(batch)
    ensures InsertAll(InsertAll(events, org, batch, now), org, batch, later) == InsertAll(events, org, batch, now)
  {
    forall k | 0 <= k < |batch|
      ensures Known(InsertAll(events, org, batch, now), org, batch[k].key).Some?
    {
      InsertAllKnows(events, org, batch, now, k);
    }
    ReplayedBatchIsNoop(InsertAll(events, org, batch, now), org, batch, later);
  }

  /** The first occurrence of a new key wins. */
  lemma {:induction false} FirstOccurrenceWins(events: seq<Event>, org: nat, batch: seq<EventIn>, now: Instant, k: nat)
    requires AllAware(batch) && OnePerKey(events) && k < |batch|
    requires Known(events, org, batch[k].key).None?
    requires forall j :: 0 <= j < k ==> batch[j].key != batch[k].key
    ensures
      var after := InsertAll(events, org, batch, now);
      var id := Known(after, org, batch[k].key);
      id.Some? && id.value >= |events| && after[id.value] == ToEvent(org, batch[k], now)
  {
    var n := |batch| - 1;
    var before, after := InsertAll(events, org, batch[..n], now), InsertAll(events, org, batch, now);
    InsertAllKeepsOnePerKey(events, org, batch, now);
    if k < n {
      FirstOccurrenceWins(events, org, batch[..n], now, k);
      KnownIsStable(before, after, org, batch[k].key);
    } else {
      NotYetKnown(events, org, batch[..n], now, batch[n].key);
      KnownAppended(before, ToEvent(org, batch[n], now));
    }
  }

  lemma KnownAppended(events: seq<Event>, e: Event)
    ensures Known(events + [e], e.org, e.key) == Some(|events|)
  {
    assert (events + [e])[|events|] == e;
  }

  lemma {:induction false} NotYetKnown(events: seq<Event>, org: nat, batch: seq<EventIn>, now: Instant, key: string)
    requires AllAware(batch) && Known(events, org, key).None?
    requires forall j :: 0 <= j < |batch| ==> batch[j].key != key
    ensures Known(InsertAll(events, org, batch, now), org, key).None?
  {
    if batch == [] {
    } else {
      var n := |batch| - 1;
      NotYetKnown(events, org, batch[..n], now, key);
      var before, after := InsertAll(events, org, batch[..n], now), InsertAll(events, org, batch, now);
      if after != before {
        assert after[..|before|] == before;
      }
    }
  }

  /** A new event is stored as it was sent, under the organization; sent without a timestamp it counts for the moment of
      the call, so it falls into the current hour and a sweep at the end of that hour, however short its lookback, reads
      it. */
  lemma UnstampedUsageCountsNow(events: seq<Event>, org: nat, batch: seq<EventIn>, now: Instant, k: nat, hours: int)
    requires AllAware(batch) && OnePerKey(events) && k < |batch| && hours >= 1
    requires Known(events, org, batch[k].key).None?
    requires forall j :: 0 <= j < k ==> batch[j].key != batch[k].key
    ensures
      var after := InsertAll(events, org, batch, now);
      var id := Known(after, org, batch[k].key);
      && id.Some? && id.value >= |events|
      && var e := after[id.value];
         && e.org == org && e.feature == batch[k].feature && e.quantity == batch[k].quantity && e.key == batch[k].key
         && (batch[k].recordedAt.Some? ==> batch[k].recordedAt == Some(Aware(e.recordedAt)))
         && (batch[k].recordedAt.None? ==>
               && e.recordedAt == now
               && var end := now - now % 3_600_000_000 + 3_600_000_000;
                  BucketOf(e) in DueBuckets(after, Since(end, hours), end))
  {
    FirstOccurrenceWins(events, org, batch, now, k);
    var after := InsertAll(events, org, batch, now);
    var id := Known(after, org, batch[k].key).value;
    var end := now - now % 3_600_000_000 + 3_600_000_000;
    assert batch[k].recordedAt != Some(Naive);
    assert after[id] == ToEvent(org, batch[k], now);
    if batch[k].recordedAt.None? {
      assert Since(end, hours) <= after[id].recordedAt < end;
      assert BucketOf(after[id]) in DueBuckets(after, Since(end, hours), end);
    } else {
      var stamp := batch[k].recordedAt.value;
      assert stamp != Naive && stamp == Aware(stamp.instant);
    }
  }
}
