/** From usage events to money: what a period close bills after any sequence of ingests and aggregations. */
module MeteredBilling {
  import opened Wrappers
  import opened Subscriptions
  import opened Sums
  import opened Usage
  import opened UsageStore
  import opened UsageRuns
  import opened Invoicing
  import opened PeriodBilling

  /* ---------- what runs keep ---------- */

  ghost predicate WholeHours(aggregates: map<Bucket, int>) {
    forall b :: b in aggregates ==> b.hour % HOUR == 0
  }

  lemma {:induction false} RunsKeepWholeHours(ops: seq<Op>)
    ensures WholeHours(UsageRuns.After(ops).aggregates)
  {
    if ops == [] {
    } else {
      var n := |ops| - 1;
      var before := UsageRuns.After(ops[..n]);
      RunsKeepWholeHours(ops[..n]);
      if ops[n].SweepHours? {
        DueHoursAreWhole(before.events, Since(ops[n].now, ops[n].lookbackHours), ops[n].now);
      }
    }
  }

  /** With positive quantities no aggregate is negative. */
  lemma {:induction false} RunsKeepNonNegative(ops: seq<Op>)
    requires UsageRuns.Positive(UsageRuns.After(ops).events)
    ensures NonNegative(UsageRuns.After(ops).aggregates)
  {
    if ops == [] {
    } else {
      var n := |ops| - 1;
      var before, after := UsageRuns.After(ops[..n]), UsageRuns.After(ops);
      ApplyOnlyAddsEvents(before, ops[n]);
      assert forall i :: 0 <= i < |before.events| ==> before.events[i] == after.events[i];
      RunsKeepNonNegative(ops[..n]);
      forall b | b in after.aggregates
        ensures after.aggregates[b] >= 0
      {
        BucketSumSign(before.events, b);
      }
    }
  }

  /* ---------- the bill of a period ---------- */

  /** The usage of a feature that waits in the period's unswept hours. */
  ghost function Waiting(ops: seq<Op>, org: nat, f: string, from: Instant, until: Instant): int {
    SumOver(UnsweptIn(ops, org, f, from, until), Missing(UsageRuns.After(ops)))
  }

  /** The usage of a feature between the ends of a period, both rounded up to whole hours. */
  ghost function Used(ops: seq<Op>, org: nat, f: string, from: Instant, until: Instant): int {
    EventSum(UsageRuns.After(ops).events, org, f, HourEnd(from), HourEnd(until))
  }

  /** The part of a feature's usage that has been aggregated. */
  ghost function ReadUse(ops: seq<Op>, org: nat, f: string, from: Instant, until: Instant): (rest: int)
    ensures rest == PeriodSum(UsageRuns.After(ops).aggregates, org, f, from, until)
  {
    UsageIsConserved(ops, org, f, from, until);
    Used(ops, org, f, from, until) - Waiting(ops, org, f, from, until)
  }

  ghost function PricedUse(ops: seq<Op>, org: nat, prices: map<string, int>, from: Instant, until: Instant)
    : string -> int
  {
    f => if f in prices then Used(ops, org, f, from, until) * prices[f] else 0
  }

  ghost function PricedWaiting(ops: seq<Op>, org: nat, prices: map<string, int>, from: Instant, until: Instant)
    : string -> int
  {
    f => if f in prices then Waiting(ops, org, f, from, until) * prices[f] else 0
  }

  /** What a close bills for a feature: the events less what waits, unless nothing is left. */
  ghost function PricedRest(ops: seq<Op>, org: nat, prices: map<string, int>, from: Instant, until: Instant)
    : string -> int
  {
    f => if f in prices && ReadUse(ops, org, f, from, until) > 0 then ReadUse(ops, org, f, from, until) * prices[f]
         else 0
  }

  /** After every sequence of ingests and aggregations, whatever the quantities, a close bills for each priced feature
      the events of its period less those that wait in unswept hours. */
  lemma CloseBillsEventsLessWaiting(ops: seq<Op>, org: nat, from: Instant, until: Instant, features: seq<string>,
                                    usage: map<string, int>, prices: map<string, int>)
    requires IsPeriodUsage(usage, UsageRuns.After(ops).aggregates, org, from, until) && IsBill(features, usage, prices)
    ensures Priced(features, usage, prices)
    ensures BillTotal(features, usage, prices) == SumOver(prices.Keys, PricedRest(ops, org, prices, from, until))
  {
    var aggregates := UsageRuns.After(ops).aggregates;
    CloseBillsPositiveUsage(aggregates, org, from, until, features, usage, prices);
    var billed, rest := Billed(aggregates, org, prices, from, until), PricedRest(ops, org, prices, from, until);
    forall f | f in prices.Keys
      ensures billed(f) == rest(f)
    {
      assert ReadUse(ops, org, f, from, until) == PeriodSum(aggregates, org, f, from, until);
    }
    SumCongruent(prices.Keys, billed, rest);
  }

  /** No hour of the period with an event of a feature that costs something waits to be aggregated. */
  ghost predicate AllSwept(ops: seq<Op>, org: nat, prices: map<string, int>, from: Instant, until: Instant) {
    forall b :: b in Unswept(ops) && b.feature in prices && prices[b.feature] > 0 ==>
      !InPeriod(b, org, b.feature, from, until)
  }

  lemma BilledIffSwept(ops: seq<Op>, org: nat, f: string, prices: map<string, int>, from: Instant, until: Instant)
    requires UsageRuns.Positive(UsageRuns.After(ops).events) && f in prices && prices[f] >= 0
    ensures
      var due := Due(UsageRuns.After(ops).aggregates, org, prices, from, until)(f);
      var used := PricedUse(ops, org, prices, from, until)(f);
      && due == used - PricedWaiting(ops, org, prices, from, until)(f)
      && due <= used
      && (due == used <==>
            prices[f] == 0 || forall b :: b in Unswept(ops) ==> !InPeriod(b, org, f, from, until))
  {
    ReadIsExactIffSwept(ops, org, f, from, until);
    UsageIsConserved(ops, org, f, from, until);
    Times(PeriodSum(UsageRuns.After(ops).aggregates, org, f, from, until), Used(ops, org, f, from, until),
          Waiting(ops, org, f, from, until), prices[f]);
  }

  lemma Times(read: int, used: int, waiting: int, price: int)
    requires read + waiting == used && read <= used && price >= 0
    ensures read * price == used * price - waiting * price && read * price <= used * price
    ensures read * price == used * price <==> price == 0 || read == used
  {
    Distribute(read, waiting, price);
    assert waiting * price >= 0;
    if waiting > 0 && price > 0 {
      assert waiting * price > 0;
    }
  }

  /** With positive quantities and non-negative prices, an invoice total is the priced events of its period less the
      priced usage that waits, and it is the whole of the priced events exactly when no chargeable hour of the period
      waits. */
  lemma InvoicePricesTheEventsIffSwept(ops: seq<Op>, org: nat, from: Instant, until: Instant, features: seq<string>,
                                       usage: map<string, int>, prices: map<string, int>)
    requires UsageRuns.Positive(UsageRuns.After(ops).events) && forall f :: f in prices ==> prices[f] >= 0
    requires IsPeriodUsage(usage, UsageRuns.After(ops).aggregates, org, from, until) && IsBill(features, usage, prices)
    ensures Priced(features, usage, prices)
    ensures
      var total := BillTotal(features, usage, prices);
      var used := SumOver(prices.Keys, PricedUse(ops, org, prices, from, until));
      && total == used - SumOver(prices.Keys, PricedWaiting(ops, org, prices, from, until))
      && total <= used
      && (total == used <==> AllSwept(ops, org, prices, from, until))
  {
    var aggregates := UsageRuns.After(ops).aggregates;
    RunsKeepNonNegative(ops);
    CloseBillsThePeriod(aggregates, org, from, until, features, usage, prices);
    var due, used := Due(aggregates, org, prices, from, until), PricedUse(ops, org, prices, from, until);
    forall f | f in prices.Keys
      ensures used(f) == due(f) + PricedWaiting(ops, org, prices, from, until)(f) && due(f) <= used(f)
      ensures due(f) == used(f) <==>
                prices[f] == 0 || forall b :: b in Unswept(ops) ==> !InPeriod(b, org, f, from, until)
    {
      BilledIffSwept(ops, org, f, prices, from, until);
    }
    SumPointwise(prices.Keys, due, PricedWaiting(ops, org, prices, from, until), used);
    SumCompare(prices.Keys, due, used);
    AllSweptByFeature(ops, org, prices, from, until);
  }

  lemma AllSweptByFeature(ops: seq<Op>, org: nat, prices: map<string, int>, from: Instant, until: Instant)
    requires forall f :: f in prices ==> prices[f] >= 0
    ensures AllSwept(ops, org, prices, from, until) <==>
              forall f :: f in prices.Keys ==>
                prices[f] == 0 || forall b :: b in Unswept(ops) ==> !InPeriod(b, org, f, from, until)
  {
  }

  /* ---------- metered and billed ---------- */

  /** The hour a period starts in, if it starts inside one that it reaches beyond. */
  ghost function FirstPart(aggregates: map<Bucket, int>, org: nat, f: string, start: Instant, end: Instant): int {
    if start % HOUR != 0 && HourStart(start) < end then Quantity(aggregates)(Bucket(org, f, HourStart(start))) else 0
  }

  /** After every run, the usage that is shown and held against quotas exceeds the usage that is billed for the same
      period by the hour that the period starts in: the two agree exactly when the period starts on the hour, or that
      hour is empty, or it lies behind the end. */
  lemma MeteredIsBilledPlusFirstHour(ops: seq<Op>, org: nat, f: string, start: Instant, end: Instant)
    ensures
      var aggregates := UsageRuns.After(ops).aggregates;
      var shown := PeriodSum(aggregates, org, f, HourStart(start), end);
      var billed := PeriodSum(aggregates, org, f, start, end);
      && shown == billed + FirstPart(aggregates, org, f, start, end)
      && (shown == billed <==>
            start % HOUR == 0 || HourStart(start) >= end || Quantity(aggregates)(Bucket(org, f, HourStart(start))) == 0)
  {
    var aggregates := UsageRuns.After(ops).aggregates;
    var shown := PeriodBuckets(aggregates, org, f, HourStart(start), end);
    var billed := PeriodBuckets(aggregates, org, f, start, end);
    var first := Bucket(org, f, HourStart(start));
    RunsKeepWholeHours(ops);
    forall b | b in shown - billed
      ensures b == first
    {
      OnlyHourBetween(start, b.hour);
    }
    SumUnion(billed, shown - billed, Quantity(aggregates));
    assert billed + (shown - billed) == shown;
    SumPoint(shown - billed, Quantity(aggregates), first);
  }

  lemma OnlyHourBetween(at: Instant, hour: Instant)
    requires hour % HOUR == 0 && HourStart(at) <= hour < at
    ensures hour == HourStart(at)
  {
    var k, m := at / HOUR, hour / HOUR;
    assert hour == m * HOUR && HourStart(at) == k * HOUR;
  }

  /** A period that starts half an hour past the hour, usage a quarter of an hour later, a sweep: five units are shown
      and held against the quota, and the close of the period bills none of them. */
  lemma FirstHourIsShownNotBilled() returns (ops: seq<Op>)
    ensures
      var aggregates, start := UsageRuns.After(ops).aggregates, HOUR / 2;
      && PeriodSum(aggregates, 0, "calls", HourStart(start), 3 * HOUR) == 5
      && PeriodSum(aggregates, 0, "calls", start, 3 * HOUR) == 0
  {
    var at, start := 3 * (HOUR / 4), HOUR / 2;
    var report := Ingest(0, [EventIn("calls", 5, "k", Some(Aware(at)))], at);
    var e, b := Event(0, "calls", 5, at, "k"), Bucket(0, "calls", 0);
    ops := [report, SweepHours(48, 2 * HOUR)];
    assert UsageRuns.After([report]) == Meter([e], map[]) by {
      assert [report][..0] == [] && report.batch[..0] == [];
      assert InsertAll([], 0, [], at) == [];
      assert InsertAll([], 0, report.batch, at) == [e];
    }
    assert ops[..1] == [report] && [e][..0] == [] && BucketSum([], b) == 0;
    var aggregates := UsageRuns.After(ops).aggregates;
    assert HourStart(at) == 0 && HourStart(start) == 0;
    assert DueBuckets([e], Since(2 * HOUR, 48), 2 * HOUR) == {b} by {
      assert [e][0] == e && BucketOf(e) == b;
    }
    assert aggregates == map[b := 5];
    assert PeriodBuckets(aggregates, 0, "calls", start, 3 * HOUR) == {};
    MeteredIsBilledPlusFirstHour(ops, 0, "calls", start, 3 * HOUR);
  }
}
