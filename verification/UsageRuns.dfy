/** Runs of usage ingestion and aggregation: how far the hourly aggregates can be behind the events. */
module UsageRuns {
  import opened Wrappers
  import opened Subscriptions
  import opened Sums
  import opened Usage

  datatype Meter = Meter(events: seq<Event>, aggregates: map<Bucket, int>)

  datatype Op =
    | Ingest(org: nat, batch: seq<EventIn>, now: Instant)
    | SweepHours(lookbackHours: int, now: Instant)
    | OneHour(org: nat, feature: string, at: Instant)

  /** One call.  A batch with a timestamp that has no time zone is rejected as a whole. */
  function Apply(m: Meter, op: Op): Meter {
    match op
    case Ingest(org, batch, now) => if AllAware(batch) then m.(events := InsertAll(m.events, org, batch, now)) else m
    case SweepHours(hours, now) => m.(aggregates := Sweep(m.aggregates, m.events, Since(now, hours), now))
    case OneHour(org, feature, at) =>
      var b := Bucket(org, feature, HourStart(at));
      m.(aggregates := m.aggregates[b := BucketSum(m.events, b)])
  }

  function After(ops: seq<Op>): Meter {
    if ops == [] then Meter([], map[]) else Apply(After(ops[..|ops| - 1]), ops[|ops| - 1])
  }

  function BucketsOf(events: seq<Event>): set<Bucket> {
    set i | 0 <= i < |events| :: BucketOf(events[i])
  }

  lemma ApplyOnlyAddsEvents(m: Meter, op: Op)
    ensures |m.events| <= |Apply(m, op).events| && Apply(m, op).events[..|m.events|] == m.events
  {
  }

  /** The buckets a call aggregates. */
  function Aggregated(m: Meter, op: Op): set<Bucket> {
    match op
    case Ingest(_, _, _) => {}
    case SweepHours(hours, now) => DueBuckets(m.events, Since(now, hours), now)
    case OneHour(org, feature, at) => {Bucket(org, feature, HourStart(at))}
  }

  /** The buckets that received an event after they were last aggregated, from the history alone. */
  function Unswept(ops: seq<Op>): set<Bucket> {
    if ops == [] then {}
    else
      var n := |ops| - 1;
      var before := After(ops[..n]);
      ApplyOnlyAddsEvents(before, ops[n]);
      match ops[n]
      case Ingest(_, _, _) => Unswept(ops[..n]) + BucketsOf(After(ops).events[|before.events|..])
      case _ => Unswept(ops[..n]) - Aggregated(before, ops[n])
  }

  /** What a bucket's events add up to beyond its aggregate. */
  ghost function Missing(m: Meter): Bucket -> int {
    b => BucketSum(m.events, b) - Quantity(m.aggregates)(b)
  }

  /* ---------- what one call does to a bucket ---------- */

  lemma {:induction false} BucketSumConcat(a: seq<Event>, c: seq<Event>, b: Bucket)
    ensures BucketSum(a + c, b) == BucketSum(a, b) + BucketSum(c, b)
  {
    if c == [] {
      assert a + c == a;
    } else {
      assert (a + c)[..|a + c| - 1] == a + c[..|c| - 1];
      BucketSumConcat(a, c[..|c| - 1], b);
    }
  }

  ghost predicate Positive(events: seq<Event>) {
    forall i :: 0 <= i < |events| ==> events[i].quantity > 0
  }

  lemma {:induction false} BucketSumSign(events: seq<Event>, b: Bucket)
    ensures b !in BucketsOf(events) ==> BucketSum(events, b) == 0
    ensures Positive(events) ==> BucketSum(events, b) >= 0
    ensures Positive(events) && b in BucketsOf(events) ==> BucketSum(events, b) > 0
  {
    if events == [] {
    } else {
      var n := |events| - 1;
      BucketSumSign(events[..n], b);
      assert forall i :: 0 <= i < n ==> events[..n][i] == events[i];
      assert BucketOf(events[n]) in BucketsOf(events);
      assert BucketsOf(events) == BucketsOf(events[..n]) + {BucketOf(events[n])};
    }
  }

  lemma AggregatingCatchesUp(m: Meter, op: Op, b: Bucket)
    requires !op.Ingest?
    ensures Missing(Apply(m, op))(b) == if b in Aggregated(m, op) then 0 else Missing(m)(b)
  {
    var after := Apply(m, op);
    assert after.events == m.events;
    assert Quantity(after.aggregates)(b)
        == if b in Aggregated(m, op) then BucketSum(m.events, b) else Quantity(m.aggregates)(b);
  }

  lemma IngestingFallsBehind(m: Meter, op: Op, b: Bucket)
    requires op.Ingest?
    ensures |m.events| <= |Apply(m, op).events|
    ensures Missing(Apply(m, op))(b) == Missing(m)(b) + BucketSum(Apply(m, op).events[|m.events|..], b)
  {
    var after := Apply(m, op);
    ApplyOnlyAddsEvents(m, op);
    assert after.events == m.events + after.events[|m.events|..];
    BucketSumConcat(m.events, after.events[|m.events|..], b);
  }

  /** A bucket is behind only while it is unswept, and with positive quantities an unswept bucket is always behind. */
  lemma {:induction false} StaleIffUnswept(ops: seq<Op>, b: Bucket)
    ensures b !in Unswept(ops) ==> Missing(After(ops))(b) == 0
    ensures Positive(After(ops).events) ==> (b in Unswept(ops) <==> Missing(After(ops))(b) > 0)
    ensures Positive(After(ops).events) ==> Missing(After(ops))(b) >= 0
  {
    if ops == [] {
      assert After(ops) == Meter([], map[]) && Quantity(map[])(b) == 0;
    } else {
      var n := |ops| - 1;
      var before, after := After(ops[..n]), After(ops);
      StaleIffUnswept(ops[..n], b);
      ApplyOnlyAddsEvents(before, ops[n]);
      var more := after.events[|before.events|..];
      assert Positive(after.events) ==> Positive(before.events) && Positive(more) by {
        assert after.events == before.events + more;
        assert forall i :: 0 <= i < |before.events| ==> before.events[i] == after.events[i];
      }
      if ops[n].Ingest? {
        IngestingFallsBehind(before, ops[n], b);
        BucketSumSign(more, b);
        assert Unswept(ops) == Unswept(ops[..n]) + BucketsOf(more);
      } else {
        AggregatingCatchesUp(before, ops[n], b);
        assert Unswept(ops) == Unswept(ops[..n]) - Aggregated(before, ops[n]);
      }
    }
  }

  /* ---------- what a read of a period sees ---------- */

  ghost predicate InPeriod(b: Bucket, org: nat, feature: string, from: Instant, until: Instant) {
    b.org == org && b.feature == feature && from <= b.hour < until
  }

  ghost function UnsweptIn(ops: seq<Op>, org: nat, feature: string, from: Instant, until: Instant): set<Bucket> {
    set b | b in Unswept(ops) && InPeriod(b, org, feature, from, until)
  }

  /** The events of a period are the sum of the missing amounts and the aggregates, over all buckets that matter. */
  lemma EventsAreReadPlusMissing(m: Meter, org: nat, feature: string, from: Instant, until: Instant, all: set<Bucket>)
    requires forall b :: b in all ==> InPeriod(b, org, feature, from, until)
    requires PeriodBuckets(m.aggregates, org, feature, from, until) <= all
    requires forall b :: b in BucketsOf(m.events) && InPeriod(b, org, feature, from, until) ==> b in all
    ensures EventSum(m.events, org, feature, HourEnd(from), HourEnd(until))
         == PeriodSum(m.aggregates, org, feature, from, until) + SumOver(all, Missing(m))
  {
    var read := PeriodBuckets(m.aggregates, org, feature, from, until);
    SumUnion(read, all - read, Quantity(m.aggregates));
    assert read + (all - read) == all;
    SumZero(all - read, Quantity(m.aggregates));
    var whole := b => BucketSum(m.events, b);
    SumPointwise(all, Quantity(m.aggregates), Missing(m), whole);
    SumBucketsIsSumEvents(m.events, all);
    SumCongruent(all, whole, b => BucketSum(m.events, b));
    forall i | 0 <= i < |m.events|
      ensures BucketOf(m.events[i]) in all <==>
                m.events[i].org == org && m.events[i].feature == feature
                && HourEnd(from) <= m.events[i].recordedAt < HourEnd(until)
    {
      StartsBefore(m.events[i].recordedAt, from);
      StartsBefore(m.events[i].recordedAt, until);
      assert BucketOf(m.events[i]) in BucketsOf(m.events);
    }
    SumInIsEventSum(m.events, all, org, feature, HourEnd(from), HourEnd(until));
  }

  ghost function RelevantBuckets(ops: seq<Op>, org: nat, feature: string, from: Instant, until: Instant): set<Bucket> {
    var m := After(ops);
    UnsweptIn(ops, org, feature, from, until) + PeriodBuckets(m.aggregates, org, feature, from, until)
    + set b | b in BucketsOf(m.events) && InPeriod(b, org, feature, from, until)
  }

  /** Conservation of usage: after every sequence of ingests, sweeps and single aggregations, the events of a period
      rounded up to whole hours are what a read of the aggregates sees plus what waits in the period's unswept
      buckets. */
  lemma UsageIsConserved(ops: seq<Op>, org: nat, feature: string, from: Instant, until: Instant)
    ensures EventSum(After(ops).events, org, feature, HourEnd(from), HourEnd(until))
         == PeriodSum(After(ops).aggregates, org, feature, from, until)
          + SumOver(UnsweptIn(ops, org, feature, from, until), Missing(After(ops)))
  {
    var m, waiting := After(ops), UnsweptIn(ops, org, feature, from, until);
    var all := RelevantBuckets(ops, org, feature, from, until);
    EventsAreReadPlusMissing(m, org, feature, from, until, all);
    forall b | b in all - waiting
      ensures Missing(m)(b) == 0
    {
      StaleIffUnswept(ops, b);
    }
    SumZero(all - waiting, Missing(m));
    SumUnion(waiting, all - waiting, Missing(m));
    assert waiting + (all - waiting) == all;
  }

  lemma {:induction false} SumSign<K(!new)>(s: set<K>, f: K -> int)
    requires forall x :: x in s ==> f(x) > 0
    ensures SumOver(s, f) >= |s|
    decreases |s|
  {
    if s == {} {
    } else {
      var x :| x in s;
      SumRemove(s, f, x);
      SumSign(s - {x}, f);
    }
  }

  /** With positive quantities a period read never exceeds the events, and equals them exactly when every hour of the
      period was aggregated after its last event came in. */
  lemma ReadIsExactIffSwept(ops: seq<Op>, org: nat, feature: string, from: Instant, until: Instant)
    requires Positive(After(ops).events)
    ensures
      var read := PeriodSum(After(ops).aggregates, org, feature, from, until);
      var used := EventSum(After(ops).events, org, feature, HourEnd(from), HourEnd(until));
      && read <= used
      && (read == used <==> forall b :: b in Unswept(ops) ==> !InPeriod(b, org, feature, from, until))
  {
    var waiting := UnsweptIn(ops, org, feature, from, until);
    UsageIsConserved(ops, org, feature, from, until);
    forall b | b in waiting
      ensures Missing(After(ops))(b) > 0
    {
      StaleIffUnswept(ops, b);
    }
    SumSign(waiting, Missing(After(ops)));
    assert waiting == {} <==> forall b :: b in Unswept(ops) ==> !InPeriod(b, org, feature, from, until);
  }

  /* ---------- events older than the lookback window ---------- */

  /** The call's window does not reach into the hour. */
  predicate PassesBy(op: Op, b: Bucket) {
    match op
    case Ingest(_, _, _) => true
    case SweepHours(hours, now) => b.hour + HOUR <= Since(now, hours) || now <= b.hour
    case OneHour(org, feature, at) => b != Bucket(org, feature, HourStart(at))
  }

  /** An event stored for an hour that later windows no longer reach is never aggregated, whatever else happens. */
  lemma {:induction false} LateUsageStaysUnswept(ops: seq<Op>, later: seq<Op>, b: Bucket)
    requires b in Unswept(ops)
    requires forall i :: 0 <= i < |later| ==> PassesBy(later[i], b)
    ensures b in Unswept(ops + later)
  {
    if later == [] {
      assert ops + later == ops;
    } else {
      var n := |later| - 1;
      var all := ops + later;
      assert all[..|all| - 1] == ops + later[..n] && all[|all| - 1] == later[n];
      LateUsageStaysUnswept(ops, later[..n], b);
      NotAggregated(After(ops + later[..n]), later[n], b);
    }
  }

  lemma NotAggregated(m: Meter, op: Op, b: Bucket)
    requires PassesBy(op, b)
    ensures b !in Aggregated(m, op)
  {
    if op.SweepHours? {
      NotDue(m.events, b, Since(op.now, op.lookbackHours), op.now);
    }
  }

  lemma NotDue(events: seq<Event>, b: Bucket, since: Instant, until: Instant)
    requires b.hour + HOUR <= since || until <= b.hour
    ensures b !in DueBuckets(events, since, until)
  {
    forall i | 0 <= i < |events| && since <= events[i].recordedAt < until
      ensures BucketOf(events[i]) != b
    {
      assert HourStart(events[i].recordedAt) <= events[i].recordedAt;
    }
  }

  /** So positive usage that arrives too late is missing from every later read of its period. */
  lemma LateUsageIsNeverRead(ops: seq<Op>, later: seq<Op>, b: Bucket, from: Instant, until: Instant)
    requires b in Unswept(ops) && from <= b.hour < until
    requires forall i :: 0 <= i < |later| ==> PassesBy(later[i], b)
    requires Positive(After(ops + later).events)
    ensures
      var m := After(ops + later);
      PeriodSum(m.aggregates, b.org, b.feature, from, until)
        < EventSum(m.events, b.org, b.feature, HourEnd(from), HourEnd(until))
  {
    LateUsageStaysUnswept(ops, later, b);
    ReadIsExactIffSwept(ops + later, b.org, b.feature, from, until);
    assert InPeriod(b, b.org, b.feature, from, until);
  }

  /** A concrete case: five units for hour 0, reported at hour 100 and swept with the standard 48-hour lookback, are
      stored and never read. */
  lemma LateUsageExample() returns (ops: seq<Op>)
    ensures EventSum(After(ops).events, 0, "calls", 0, HOUR) == 5
    ensures PeriodSum(After(ops).aggregates, 0, "calls", 0, HOUR) == 0
  {
    var report := Ingest(0, [EventIn("calls", 5, "k", Some(Aware(0)))], 100 * HOUR);
    var sweep := SweepHours(48, 100 * HOUR);
    ops := [report, sweep];
    var e := Event(0, "calls", 5, 0, "k");
    assert After([report]) == Meter([e], map[]) by {
      assert [report][..0] == [] && report.batch[..0] == [];
      assert InsertAll([], 0, [], report.now) == [];
      assert InsertAll([], 0, report.batch, report.now) == [e];
    }
    NotDue([e], Bucket(0, "calls", 0), 52 * HOUR, 100 * HOUR);
    assert ops[..1] == [report];
    assert After(ops) == Meter([e], map[]);
    assert [e][..0] == [] && EventSum([], 0, "calls", 0, HOUR) == 0;
    assert PeriodBuckets(map[], 0, "calls", 0, HOUR) == {};
  }
}
