/** The usage tables updated in place. */
module UsageStore {
  import opened Wrappers
  import opened Subscriptions
  import opened Sums
  import opened Usage

  datatype BatchResult = BatchResult(accepted: nat, duplicates: nat, ids: seq<nat>)

  /** The positive usage of each feature whose hour starts within [from, until), as period reads return it. */
  ghost predicate IsPeriodUsage(usage: map<string, int>, aggregates: map<Bucket, int>, org: nat, from: Instant,
                                until: Instant)
  {
    forall f: string ::
      && (f in usage <==> PeriodSum(aggregates, org, f, from, until) > 0)
      && (f in usage ==> usage[f] == PeriodSum(aggregates, org, f, from, until))
  }

  ghost function Part(seen: set<Bucket>, org: nat, f: string, from: Instant, until: Instant): set<Bucket> {
    set b | b in seen && b.org == org && b.feature == f && from <= b.hour < until
  }

  function TotalOf(totals: map<string, int>, f: string): int {
    if f in totals then totals[f] else 0
  }

  lemma AddBucket(aggregates: map<Bucket, int>, seen: set<Bucket>, b: Bucket, org: nat, f: string, from: Instant,
                  until: Instant)
    requires b !in seen && b in aggregates
    ensures SumOver(Part(seen + {b}, org, f, from, until), Quantity(aggregates))
         == SumOver(Part(seen, org, f, from, until), Quantity(aggregates))
            + (if b.org == org && b.feature == f && from <= b.hour < until then aggregates[b] else 0)
  {
    var before, after := Part(seen, org, f, from, until), Part(seen + {b}, org, f, from, until);
    if b.org == org && b.feature == f && from <= b.hour < until {
      SumRemove(after, Quantity(aggregates), b);
      assert after - {b} == before;
    } else {
      assert after == before;
    }
  }

  class UsageTables {
    var events: seq<Event>
    var aggregates: map<Bucket, int>

    constructor ()
      ensures events == [] && aggregates == map[]
    {
      events, aggregates := [], map[];
    }

    /** Insert the events whose key the organization has not used; a naive timestamp rejects the whole batch. */
    method IngestUsageBatch(org: nat, batch: seq<EventIn>, now: Instant) returns (result: Option<BatchResult>)
      requires OnePerKey(events)
      modifies this`events
      ensures OnePerKey(events)
      ensures result.None? <==> !AllAware(batch)
      ensures result.None? ==> events == old(events)
      ensures result.Some? ==>
                && events == InsertAll(old(events), org, batch, now)
                && result.value.accepted == |events| - |old(events)|
                && result.value.accepted + result.value.duplicates == |batch|
                && |result.value.ids| == |batch|
                && forall i :: 0 <= i < |batch| ==> Some(result.value.ids[i]) == Known(events, org, batch[i].key)
    {
      for i := 0 to |batch|
        invariant events == old(events)
        invariant forall j :: 0 <= j < i ==> batch[j].recordedAt != Some(Naive)
      {
        if batch[i].recordedAt == Some(Naive) {
          return None;
        }
      }
      var rows := NewRows(org, batch, now);
      InsertAllKeepsOnePerKey(events, org, batch, now);
      var accepted := |rows|;
      events := events + rows;
      var ids: seq<nat> := [];
      for i := 0 to |batch|
        invariant events == InsertAll(old(events), org, batch, now) && OnePerKey(events)
        invariant |ids| == i
        invariant forall j :: 0 <= j < i ==> Some(ids[j]) == Known(events, org, batch[j].key)
      {
        InsertAllKnows(old(events), org, batch, now, i);
        var id := Known(events, org, batch[i].key);
        ids := ids + [id.value];
      }
      result := Some(BatchResult(accepted, |batch| - accepted, ids));
    }

    /** The rows of a batch that are new, first occurrences only. */
    method NewRows(org: nat, batch: seq<EventIn>, now: Instant) returns (rows: seq<Event>)
      requires AllAware(batch)
      ensures events + rows == InsertAll(events, org, batch, now) && |rows| <= |batch|
    {
      rows := [];
      var pending: set<string> := {};
      assert batch[..0] == [] && events + rows == events;
      for i := 0 to |batch|
        invariant |rows| <= i && AllAware(batch[..i])
        invariant events + rows == InsertAll(events, org, batch[..i], now)
        invariant pending == RowKeys(rows) && forall j :: 0 <= j < |rows| ==> rows[j].org == org
      {
        var e := batch[i];
        InsertAllNext(events, org, batch, i, now);
        RowStep(events, rows, org, e, now);
        if Known(events, org, e.key).None? && e.key !in pending {
          var row := ToEvent(org, e, now);
          RowKeysAppend(rows, row);
          pending := pending + {e.key};
          rows := rows + [row];
        }
      }
      assert batch[..|batch|] == batch;
    }

    method HourTotal(org: nat, feature: string, start: Instant) returns (total: int)
      ensures total == HourSum(events, org, feature, start)
    {
      total := 0;
      assert events[..0] == [];
      for i := 0 to |events|
        invariant total == HourSum(events[..i], org, feature, start)
      {
        assert events[..i + 1][..i] == events[..i];
        var e := events[i];
        if e.org == org && e.feature == feature && start <= e.recordedAt < start + HOUR {
          total := total + e.quantity;
        }
      }
      assert events[..|events|] == events;
    }

    /** Upsert one hour as the sum of its events. */
    method AggregateHour(org: nat, feature: string, at: Instant)
      modifies this`aggregates
      ensures
        var b := Bucket(org, feature, HourStart(at));
        aggregates == old(aggregates)[b := BucketSum(events, b)]
    {
      var b := Bucket(org, feature, HourStart(at));
      HourSumIsBucketSum(events, b);
      var total := HourTotal(org, feature, b.hour);
      aggregates := aggregates[b := total];
    }

    /** Aggregate every hour that has an event in the lookback window. */
    method AggregatePendingHours(lookbackHours: int, now: Instant) returns (processed: nat)
      modifies this`aggregates
      ensures aggregates == Sweep(old(aggregates), events, Since(now, lookbackHours), now)
      ensures Swept(old(aggregates), aggregates, events, Since(now, lookbackHours), now)
      ensures Sweep(aggregates, events, Since(now, lookbackHours), now) == aggregates
      ensures processed == |DueBuckets(events, Since(now, lookbackHours), now)|
    {
      var since := Since(now, lookbackHours);
      var due := DueBuckets(events, since, now);
      DueHoursAreWhole(events, since, now);
      processed := RefreshBuckets(due);
      assert aggregates == Sweep(old(aggregates), events, since, now);
      SweepKeepsPromise(old(aggregates), events, since, now);
    }

    /** Aggregate some hours one after the other, in any order. */
    method RefreshBuckets(due: set<Bucket>) returns (processed: nat)
      requires forall b :: b in due ==> b.hour % HOUR == 0
      modifies this`aggregates
      ensures aggregates == Refreshed(old(aggregates), events, due) && processed == |due|
    {
      var todo := due;
      processed := 0;
      while todo != {}
        invariant todo <= due && processed + |todo| == |due|
        invariant aggregates == Refreshed(old(aggregates), events, due - todo)
        decreases |todo|
      {
        var b :| b in todo;
        assert HourStart(b.hour) == b.hour;
        RefreshOne(old(aggregates), events, due - todo, b);
        assert due - (todo - {b}) == due - todo + {b};
        AggregateHour(b.org, b.feature, b.hour);
        todo := todo - {b};
        processed := processed + 1;
      }
      assert due - todo == due;
    }

    /** Usage per feature within a period; features without positive usage are left out. */
    method PeriodUsage(org: nat, from: Instant, until: Instant) returns (usage: map<string, int>)
      ensures IsPeriodUsage(usage, aggregates, org, from, until)
    {
      var totals: map<string, int> := map[];
      var todo := aggregates.Keys;
      ghost var seen: set<Bucket> := {};
      TallyNone(aggregates, org, from, until);
      while todo != {}
        invariant todo !! seen && todo + seen == aggregates.Keys
        invariant Tallied(totals, aggregates, seen, org, from, until)
        decreases |todo|
      {
        var b :| b in todo;
        TallyOne(totals, aggregates, seen, b, org, from, until);
        if b.org == org && from <= b.hour < until {
          totals := totals[b.feature := TotalOf(totals, b.feature) + aggregates[b]];
        }
        todo := todo - {b};
        seen := seen + {b};
      }
      TalliedIsPeriodSum(totals, aggregates, seen, org, from, until);
      usage := Positive(totals);
    }
  }

  /** `totals` holds the usage of the buckets seen so far. */
  ghost predicate Tallied(totals: map<string, int>, aggregates: map<Bucket, int>, seen: set<Bucket>, org: nat,
                          from: Instant, until: Instant)
  {
    forall f: string {:trigger Part(seen, org, f, from, until)} ::
      TotalOf(totals, f) == SumOver(Part(seen, org, f, from, until), Quantity(aggregates))
  }

  lemma TallyOne(totals: map<string, int>, aggregates: map<Bucket, int>, seen: set<Bucket>, b: Bucket, org: nat,
                 from: Instant, until: Instant)
    requires b !in seen && b in aggregates && Tallied(totals, aggregates, seen, org, from, until)
    ensures
      var counted := b.org == org && from <= b.hour < until;
      Tallied(if counted then totals[b.feature := TotalOf(totals, b.feature) + aggregates[b]] else totals,
              aggregates, seen + {b}, org, from, until)
  {
    var counted := b.org == org && from <= b.hour < until;
    var after := if counted then totals[b.feature := TotalOf(totals, b.feature) + aggregates[b]] else totals;
    forall f: string
      ensures TotalOf(after, f) == SumOver(Part(seen + {b}, org, f, from, until), Quantity(aggregates))
    {
      AddBucket(aggregates, seen, b, org, f, from, until);
    }
  }

  lemma TallyNone(aggregates: map<Bucket, int>, org: nat, from: Instant, until: Instant)
    ensures Tallied(map[], aggregates, {}, org, from, until)
  {
    forall f: string
      ensures SumOver(Part({}, org, f, from, until), Quantity(aggregates)) == 0
    {
      assert Part({}, org, f, from, until) == {};
    }
  }

  function Positive(totals: map<string, int>): map<string, int> {
    map f | f in totals && totals[f] > 0 :: totals[f]
  }

  lemma TalliedIsPeriodSum(totals: map<string, int>, aggregates: map<Bucket, int>, seen: set<Bucket>, org: nat,
                           from: Instant, until: Instant)
    requires Tallied(totals, aggregates, seen, org, from, until) && seen == aggregates.Keys
    ensures IsPeriodUsage(Positive(totals), aggregates, org, from, until)
  {
    forall f: string
      ensures TotalOf(totals, f) == PeriodSum(aggregates, org, f, from, until)
    {
      assert Part(seen, org, f, from, until) == PeriodBuckets(aggregates, org, f, from, until);
    }
  }

  ghost function RowKeys(rows: seq<Event>): set<string> {
    set j | 0 <= j < |rows| :: rows[j].key
  }

  lemma RowKeysAppend(rows: seq<Event>, row: Event)
    ensures RowKeys(rows + [row]) == RowKeys(rows) + {row.key}
  {
    var more := rows + [row];
    assert more[|rows|].key == row.key;
    forall k | k in RowKeys(rows)
      ensures k in RowKeys(more)
    {
      var j :| 0 <= j < |rows| && rows[j].key == k;
      assert more[j].key == k;
    }
  }

  /** Skipping stored and pending keys is inserting or ignoring. */
  lemma RowStep(events: seq<Event>, rows: seq<Event>, org: nat, e: EventIn, now: Instant)
    requires e.recordedAt != Some(Naive) && forall j :: 0 <= j < |rows| ==> rows[j].org == org
    ensures InsertOne(events + rows, org, e, now)
         == if Known(events, org, e.key).Some? || e.key in RowKeys(rows) then events + rows
            else events + (rows + [ToEvent(org, e, now)])
  {
    PendingOrStored(events, rows, org, e.key);
    assert events + (rows + [ToEvent(org, e, now)]) == events + rows + [ToEvent(org, e, now)];
  }

  lemma PendingOrStored(events: seq<Event>, rows: seq<Event>, org: nat, key: string)
    requires forall j :: 0 <= j < |rows| ==> rows[j].org == org
    ensures Known(events + rows, org, key).Some? <==> Known(events, org, key).Some? || key in RowKeys(rows)
  {
    var all := events + rows;
    if Known(events, org, key).Some? {
      assert all[Known(events, org, key).value].key == key;
    }
    if key in RowKeys(rows) {
      var j :| 0 <= j < |rows| && rows[j].key == key;
      assert all[|events| + j] == rows[j];
    }
    if Known(all, org, key).Some? {
      var i := Known(all, org, key).value;
      assert i >= |events| ==> rows[i - |events|].key == key;
    }
  }
}
