/** From hourly aggregates to money: what a sequence of period closes bills. */
module PeriodBilling {
  import opened Wrappers
  import opened Subscriptions
  import opened Sums
  import opened Usage
  import opened UsageStore
  import opened Ledger
  import opened Invoicing

  ghost predicate NonNegative(aggregates: map<Bucket, int>) {
    forall b :: b in aggregates ==> aggregates[b] >= 0
  }

  lemma {:induction false} SumNonNegative<K(!new)>(s: set<K>, f: K -> int)
    requires forall x :: x in s ==> f(x) >= 0
    ensures SumOver(s, f) >= 0
    decreases |s|
  {
    if s == {} {
    } else {
      var x :| x in s;
      SumRemove(s, f, x);
      SumNonNegative(s - {x}, f);
    }
  }

  /* ---------- one close ---------- */

  ghost function AmountAt(usage: map<string, int>, prices: map<string, int>): string -> int {
    f => if f in usage && f in prices then usage[f] * prices[f] else 0
  }

  /** A bill adds up its features, in whatever order they were billed. */
  lemma {:induction false} BillTotalIsSum(features: seq<string>, usage: map<string, int>, prices: map<string, int>)
    requires Priced(features, usage, prices)
    requires forall i, j :: 0 <= i < j < |features| ==> features[i] != features[j]
    ensures BillTotal(features, usage, prices) == SumOver((set f | f in features), AmountAt(usage, prices))
  {
    if features == [] {
      assert (set f | f in features) == {};
    } else {
      var n := |features| - 1;
      var last, all := features[n], set f | f in features;
      BillTotalIsSum(features[..n], usage, prices);
      assert last in all;
      SumRemove(all, AmountAt(usage, prices), last);
      assert all - {last} == set f | f in features[..n];
    }
  }

  /** A bill is the sum over all priced features, those without usage counting nothing. */
  lemma BillIsSumOverPrices(features: seq<string>, usage: map<string, int>, prices: map<string, int>)
    requires IsBill(features, usage, prices)
    ensures Priced(features, usage, prices)
    ensures BillTotal(features, usage, prices) == SumOver(prices.Keys, AmountAt(usage, prices))
  {
    assert forall i :: 0 <= i < |features| ==> features[i] in features;
    var billed := set f | f in features;
    var rest := prices.Keys - billed;
    BillTotalIsSum(features, usage, prices);
    SumZero(rest, AmountAt(usage, prices));
    SumUnion(billed, rest, AmountAt(usage, prices));
    assert billed + rest == prices.Keys;
  }

  /** The price of a feature's usage in a period. */
  ghost function Due(aggregates: map<Bucket, int>, org: nat, prices: map<string, int>, from: Instant, until: Instant)
    : string -> int
  {
    f => if f in prices then PeriodSum(aggregates, org, f, from, until) * prices[f] else 0
  }

  /** The price of a feature's usage in a period, where there is any. */
  ghost function Billed(aggregates: map<Bucket, int>, org: nat, prices: map<string, int>, from: Instant, until: Instant)
    : string -> int
  {
    f => if f in prices && PeriodSum(aggregates, org, f, from, until) > 0
         then PeriodSum(aggregates, org, f, from, until) * prices[f] else 0
  }

  lemma FeatureIsBilled(aggregates: map<Bucket, int>, org: nat, from: Instant, until: Instant, f: string,
                        usage: map<string, int>, prices: map<string, int>)
    requires IsPeriodUsage(usage, aggregates, org, from, until) && f in prices
    ensures AmountAt(usage, prices)(f) == Billed(aggregates, org, prices, from, until)(f)
  {
  }

  /** A close bills exactly the priced features with positive usage in its period, each for all of it. */
  lemma CloseBillsPositiveUsage(aggregates: map<Bucket, int>, org: nat, from: Instant, until: Instant,
                                features: seq<string>, usage: map<string, int>, prices: map<string, int>)
    requires IsPeriodUsage(usage, aggregates, org, from, until) && IsBill(features, usage, prices)
    ensures Priced(features, usage, prices)
    ensures BillTotal(features, usage, prices) == SumOver(prices.Keys, Billed(aggregates, org, prices, from, until))
  {
    var amount, due := AmountAt(usage, prices), Billed(aggregates, org, prices, from, until);
    BillIsSumOverPrices(features, usage, prices);
    forall f | f in prices.Keys
      ensures amount(f) == due(f)
    {
      FeatureIsBilled(aggregates, org, from, until, f, usage, prices);
    }
    SumCongruent(prices.Keys, amount, due);
  }

  /** Over non-negative aggregates leaving out features without usage loses nothing. */
  lemma CloseBillsThePeriod(aggregates: map<Bucket, int>, org: nat, from: Instant, until: Instant,
                            features: seq<string>, usage: map<string, int>, prices: map<string, int>)
    requires NonNegative(aggregates) && IsPeriodUsage(usage, aggregates, org, from, until)
    requires IsBill(features, usage, prices)
    ensures Priced(features, usage, prices)
    ensures BillTotal(features, usage, prices) == SumOver(prices.Keys, Due(aggregates, org, prices, from, until))
  {
    CloseBillsPositiveUsage(aggregates, org, from, until, features, usage, prices);
    forall f | f in prices.Keys
      ensures Billed(aggregates, org, prices, from, until)(f) == Due(aggregates, org, prices, from, until)(f)
    {
      SumNonNegative(PeriodBuckets(aggregates, org, f, from, until), Quantity(aggregates));
    }
    SumCongruent(prices.Keys, Billed(aggregates, org, prices, from, until), Due(aggregates, org, prices, from, until));
  }

  /* ---------- consecutive closes ---------- */

  ghost predicate Increasing(ts: seq<Instant>) {
    forall i, j :: 0 <= i <= j < |ts| ==> ts[i] <= ts[j]
  }

  /** Every hour from the first boundary to the last lies in exactly one of the periods. */
  lemma {:induction false} EveryHourInOnePeriod(ts: seq<Instant>, hour: Instant) returns (p: nat)
    requires |ts| >= 2 && Increasing(ts) && ts[0] <= hour < ts[|ts| - 1]
    ensures p + 1 < |ts| && ts[p] <= hour < ts[p + 1]
    ensures forall i :: 0 <= i < |ts| - 1 && ts[i] <= hour < ts[i + 1] ==> i == p
  {
    var n := |ts| - 1;
    if ts[n - 1] <= hour {
      p := n - 1;
    } else {
      p := EveryHourInOnePeriod(ts[..n], hour);
    }
  }

  /** Splitting an interval splits its usage. */
  lemma PeriodSumSplits(aggregates: map<Bucket, int>, org: nat, f: string, a: Instant, b: Instant, c: Instant)
    requires a <= b <= c
    ensures PeriodSum(aggregates, org, f, a, c)
         == PeriodSum(aggregates, org, f, a, b) + PeriodSum(aggregates, org, f, b, c)
  {
    var left, right := PeriodBuckets(aggregates, org, f, a, b), PeriodBuckets(aggregates, org, f, b, c);
    SumUnion(left, right, Quantity(aggregates));
    assert left + right == PeriodBuckets(aggregates, org, f, a, c);
  }

  /** One period close as a caller makes it. */
  datatype CloseCall = CloseCall(key: string, features: seq<string>, usage: map<string, int>)

  ghost predicate FaithfulCall(call: CloseCall, aggregates: map<Bucket, int>, org: nat, prices: map<string, int>,
                               from: Instant, until: Instant)
  {
    IsPeriodUsage(call.usage, aggregates, org, from, until) && IsBill(call.features, call.usage, prices)
  }

  ghost predicate AllPriced(calls: seq<CloseCall>, prices: map<string, int>) {
    forall i :: 0 <= i < |calls| ==> Priced(calls[i].features, calls[i].usage, prices)
  }

  /** Close the periods between consecutive boundaries, one call each. */
  ghost function CloseAll(b: Books, org: nat, prices: map<string, int>, ts: seq<Instant>, calls: seq<CloseCall>): Books
    requires |ts| == |calls| + 1 && AllPriced(calls, prices)
  {
    if calls == [] then b
    else
      var n := |calls| - 1;
      Close(CloseAll(b, org, prices, ts[..n + 1], calls[..n]), org, true, ts[n], ts[n + 1], calls[n].key,
            calls[n].features, calls[n].usage, prices)
  }

  function TotalFrom(invoices: seq<Invoice>, from: nat): int
    requires from <= |invoices|
  {
    if |invoices| == from then 0 else TotalFrom(invoices[..|invoices| - 1], from) + invoices[|invoices| - 1].total
  }

  ghost predicate FreshKeys(b: Books, calls: seq<CloseCall>) {
    && (forall i, j :: 0 <= i < j < |calls| ==> calls[i].key != calls[j].key)
    && (forall i :: 0 <= i < |calls| ==> FindInvoice(b.invoices, calls[i].key).None?)
  }

  /** `invoices` is `base` followed by one invoice per call, under the calls' keys. */
  ghost predicate Appended(base: seq<Invoice>, invoices: seq<Invoice>, calls: seq<CloseCall>) {
    && |invoices| == |base| + |calls|
    && invoices[..|base|] == base
    && forall i :: 0 <= i < |calls| ==> invoices[|base| + i].key == calls[i].key
  }

  lemma AppendedNext(b: Books, invoices: seq<Invoice>, calls: seq<CloseCall>, next: Invoice)
    requires calls != [] && FreshKeys(b, calls) && Appended(b.invoices, invoices, calls[..|calls| - 1])
    requires next.key == calls[|calls| - 1].key
    ensures FindInvoice(invoices, next.key).None?
    ensures Appended(b.invoices, invoices + [next], calls)
  {
    var n := |b.invoices|;
    forall i | 0 <= i < |invoices|
      ensures invoices[i].key != next.key
    {
      if i < n {
        assert invoices[i] == b.invoices[i];
      } else {
        assert invoices[n + (i - n)].key == calls[..|calls| - 1][i - n].key;
      }
    }
    forall i | 0 <= i < |calls|
      ensures (invoices + [next])[n + i].key == calls[i].key
    {
      if i < |calls| - 1 {
        assert invoices[n + i].key == calls[..|calls| - 1][i].key;
      }
    }
  }

  /** What the calls bill together. */
  ghost function Bills(calls: seq<CloseCall>, prices: map<string, int>): int
    requires AllPriced(calls, prices)
  {
    if calls == [] then 0
    else
      var last := calls[|calls| - 1];
      Bills(calls[..|calls| - 1], prices) + BillTotal(last.features, last.usage, prices)
  }

  lemma TotalFromNext(invoices: seq<Invoice>, next: Invoice, from: nat)
    requires from <= |invoices|
    ensures TotalFrom(invoices + [next], from) == TotalFrom(invoices, from) + next.total
  {
    assert (invoices + [next])[..|invoices|] == invoices;
  }

  lemma CloseAddsInvoice(b: Books, org: nat, start: Instant, end: Instant, call: CloseCall, prices: map<string, int>)
    requires Priced(call.features, call.usage, prices) && FindInvoice(b.invoices, call.key).None?
    ensures Close(b, org, true, start, end, call.key, call.features, call.usage, prices).invoices
         == b.invoices
          + [Invoice(org, Open, start, end, BillTotal(call.features, call.usage, prices), None, call.key)]
  {
  }

  lemma {:induction false} InvoicesCarryTheBills(b: Books, org: nat, prices: map<string, int>, ts: seq<Instant>,
                                                 calls: seq<CloseCall>)
    requires |ts| == |calls| + 1 && FreshKeys(b, calls) && AllPriced(calls, prices)
    ensures Appended(b.invoices, CloseAll(b, org, prices, ts, calls).invoices, calls)
    ensures TotalFrom(CloseAll(b, org, prices, ts, calls).invoices, |b.invoices|) == Bills(calls, prices)
  {
    if calls == [] {
    } else {
      var n := |calls| - 1;
      var call := calls[n];
      InvoicesCarryTheBills(b, org, prices, ts[..n + 1], calls[..n]);
      var before := CloseAll(b, org, prices, ts[..n + 1], calls[..n]);
      var next := Invoice(org, Open, ts[n], ts[n + 1], BillTotal(call.features, call.usage, prices), None, call.key);
      AppendedNext(b, before.invoices, calls, next);
      assert CloseAll(b, org, prices, ts, calls)
          == Close(before, org, true, ts[n], ts[n + 1], call.key, call.features, call.usage, prices);
      CloseAddsInvoice(before, org, ts[n], ts[n + 1], call, prices);
      TotalFromNext(before.invoices, next, |b.invoices|);
    }
  }

  ghost predicate AllFaithful(calls: seq<CloseCall>, aggregates: map<Bucket, int>, org: nat, prices: map<string, int>,
                              ts: seq<Instant>)
    requires |ts| == |calls| + 1
  {
    forall i :: 0 <= i < |calls| ==> FaithfulCall(calls[i], aggregates, org, prices, ts[i], ts[i + 1])
  }

  lemma FaithfulIsPriced(calls: seq<CloseCall>, aggregates: map<Bucket, int>, org: nat, prices: map<string, int>,
                         ts: seq<Instant>)
    requires |ts| == |calls| + 1 && AllFaithful(calls, aggregates, org, prices, ts)
    ensures AllPriced(calls, prices)
  {
    forall i | 0 <= i < |calls|
      ensures Priced(calls[i].features, calls[i].usage, prices)
    {
      assert FaithfulCall(calls[i], aggregates, org, prices, ts[i], ts[i + 1]);
      assert forall k :: 0 <= k < |calls[i].features| ==> calls[i].features[k] in calls[i].features;
    }
  }

  lemma {:induction false} BillsCoverTheSpan(aggregates: map<Bucket, int>, org: nat, prices: map<string, int>,
                                             ts: seq<Instant>, calls: seq<CloseCall>)
    requires NonNegative(aggregates) && |ts| == |calls| + 1 && Increasing(ts) && AllPriced(calls, prices)
    requires AllFaithful(calls, aggregates, org, prices, ts)
    ensures Bills(calls, prices) == SumOver(prices.Keys, Due(aggregates, org, prices, ts[0], ts[|calls|]))
  {
    if calls == [] {
      EmptySpan(aggregates, org, prices, ts[0]);
    } else {
      var n := |calls| - 1;
      var before := ts[..n + 1];
      forall i | 0 <= i < n
        ensures FaithfulCall(calls[..n][i], aggregates, org, prices, before[i], before[i + 1])
      {
        assert FaithfulCall(calls[i], aggregates, org, prices, ts[i], ts[i + 1]);
      }
      BillsCoverTheSpan(aggregates, org, prices, before, calls[..n]);
      assert FaithfulCall(calls[n], aggregates, org, prices, ts[n], ts[n + 1]);
      CloseBillsThePeriod(aggregates, org, ts[n], ts[n + 1], calls[n].features, calls[n].usage, prices);
      SpansAdd(aggregates, org, prices, ts[0], ts[n], ts[n + 1]);
    }
  }

  /** Consecutive closes with distinct new keys bill every priced feature's usage of the whole span exactly once: their
      totals add up to the price of the usage between the first boundary and the last. */
  lemma ConsecutiveClosesBillOnce(b: Books, aggregates: map<Bucket, int>, org: nat, prices: map<string, int>,
                                  ts: seq<Instant>, calls: seq<CloseCall>)
    requires NonNegative(aggregates) && |ts| == |calls| + 1 && Increasing(ts) && FreshKeys(b, calls)
    requires AllFaithful(calls, aggregates, org, prices, ts)
    ensures AllPriced(calls, prices)
    ensures |CloseAll(b, org, prices, ts, calls).invoices| == |b.invoices| + |calls|
    ensures TotalFrom(CloseAll(b, org, prices, ts, calls).invoices, |b.invoices|)
         == SumOver(prices.Keys, Due(aggregates, org, prices, ts[0], ts[|calls|]))
  {
    FaithfulIsPriced(calls, aggregates, org, prices, ts);
    InvoicesCarryTheBills(b, org, prices, ts, calls);
    BillsCoverTheSpan(aggregates, org, prices, ts, calls);
  }

  lemma EmptySpan(aggregates: map<Bucket, int>, org: nat, prices: map<string, int>, t: Instant)
    ensures SumOver(prices.Keys, Due(aggregates, org, prices, t, t)) == 0
  {
    forall f | f in prices.Keys
      ensures Due(aggregates, org, prices, t, t)(f) == 0
    {
      assert PeriodBuckets(aggregates, org, f, t, t) == {};
    }
    SumZero(prices.Keys, Due(aggregates, org, prices, t, t));
  }

  lemma SpansAdd(aggregates: map<Bucket, int>, org: nat, prices: map<string, int>, a: Instant, b: Instant, c: Instant)
    requires a <= b <= c
    ensures SumOver(prices.Keys, Due(aggregates, org, prices, a, c))
         == SumOver(prices.Keys, Due(aggregates, org, prices, a, b))
          + SumOver(prices.Keys, Due(aggregates, org, prices, b, c))
  {
    forall f | f in prices.Keys
      ensures Due(aggregates, org, prices, a, c)(f)
           == Due(aggregates, org, prices, a, b)(f) + Due(aggregates, org, prices, b, c)(f)
    {
      PeriodSumSplits(aggregates, org, f, a, b, c);
      Distribute(PeriodSum(aggregates, org, f, a, b), PeriodSum(aggregates, org, f, b, c), prices[f]);
    }
    SumPointwise(prices.Keys, Due(aggregates, org, prices, a, b), Due(aggregates, org, prices, b, c),
                 Due(aggregates, org, prices, a, c));
  }

  lemma Distribute(x: int, y: int, z: int)
    ensures (x + y) * z == x * z + y * z
  {
  }

  /* ---------- repeating a close ---------- */

  datatype CloseResult = CloseResult(invoice: nat, total: int, charge: Option<nat>)

  function FindCharge(entries: seq<Entry>, n: nat, inv: nat): (r: Option<nat>)
    requires n <= |entries|
    ensures r.Some? ==> r.value < n && entries[r.value].kind == UsageCharge && entries[r.value].invoice == Some(inv)
  {
    if n == 0 then None
    else if entries[n - 1].kind == UsageCharge && entries[n - 1].invoice == Some(inv) then Some(n - 1)
    else FindCharge(entries, n - 1, inv)
  }

  /** The result of the close that creates invoice `inv`: its charge is whatever entry the posting returned, the new
      one or the one that already had the key. */
  function FirstResult(b: Books, inv: nat, key: string): CloseResult
    requires inv < |b.invoices|
  {
    CloseResult(inv, b.invoices[inv].total, FindEntry(b.ledger, |b.ledger|, CloseKey(key, UsageChargePosting)))
  }

  /** The result a close returns for an invoice that exists. */
  function ResultOf(b: Books, inv: nat): CloseResult
    requires inv < |b.invoices|
  {
    CloseResult(inv, b.invoices[inv].total, FindCharge(b.ledger, |b.ledger|, inv))
  }

  /** An invoice that answers for a key, with its charge if it has one. */
  ghost predicate Answers(b: Books, key: string, inv: nat, charge: Option<nat>) {
    && FindInvoice(b.invoices, key) == Some(inv)
    && FindCharge(b.ledger, |b.ledger|, inv) == charge
    && b.invoices[inv].status != Draft
  }

  lemma {:induction false} FindSameKeys(xs: seq<Invoice>, ys: seq<Invoice>, n: nat, key: string)
    requires n <= |xs| && n <= |ys| && forall i :: 0 <= i < n ==> xs[i].key == ys[i].key
    ensures FindBelow(xs, n, key) == FindBelow(ys, n, key)
  {
    if n == 0 {
    } else {
      FindSameKeys(xs, ys, n - 1, key);
    }
  }

  lemma {:induction false} FindChargePrefix(xs: seq<Entry>, ys: seq<Entry>, n: nat, inv: nat)
    requires n <= |xs| && n <= |ys| && xs[..n] == ys[..n]
    ensures FindCharge(xs, n, inv) == FindCharge(ys, n, inv)
  {
    if n == 0 {
    } else {
      assert xs[n - 1] == xs[..n][n - 1] && ys[n - 1] == ys[..n][n - 1];
      assert xs[..n - 1] == xs[..n][..n - 1] && ys[..n - 1] == ys[..n][..n - 1];
      FindChargePrefix(xs, ys, n - 1, inv);
    }
  }

  lemma PostKeepsFoundCharge(entries: seq<Entry>, e: Entry, inv: nat)
    requires e.kind == UsageCharge ==> e.invoice != Some(inv)
    ensures FindCharge(PostEntry(entries, e), |PostEntry(entries, e)|, inv) == FindCharge(entries, |entries|, inv)
  {
    FindChargePrefix(entries, entries + [e], |entries|, inv);
  }

  /** Appending an invoice under another key, or changing anything but keys, leaves the answer of a key alone. */
  lemma InvoicesKeepFound(xs: seq<Invoice>, ys: seq<Invoice>, key: string)
    requires |xs| <= |ys| <= |xs| + 1 && forall i :: 0 <= i < |xs| ==> xs[i].key == ys[i].key
    requires |ys| > |xs| ==> ys[|xs|].key != key
    ensures FindInvoice(ys, key) == FindInvoice(xs, key)
  {
    FindSameKeys(xs, ys, |xs|, key);
  }

  lemma StepKeepsInvoiceKeys(b: Books, step: Step, key: string)
    requires Enabled(step) && FindInvoice(b.invoices, key).Some?
    ensures FindInvoice(Apply(b, step).invoices, key) == FindInvoice(b.invoices, key)
  {
    InvoicesKeepFound(b.invoices, Apply(b, step).invoices, key);
  }

  lemma StepKeepsFoundCharge(b: Books, step: Step, inv: nat)
    requires Enabled(step) && inv < |b.invoices|
    ensures
      var ledger := Apply(b, step).ledger;
      FindCharge(ledger, |ledger|, inv) == FindCharge(b.ledger, |b.ledger|, inv)
  {
    match step
    case CloseStep(org, _, _, _, k, features, usage, prices) =>
      assert forall i :: 0 <= i < |features| ==> features[i] in features;
      PostKeepsFoundCharge(b.ledger, ChargeFor(org, |b.invoices|, BillTotal(features, usage, prices), k), inv);
    case ReverseStep(entry, k) =>
      if entry < |b.ledger| {
        PostKeepsFoundCharge(b.ledger, ReversalOf(b.ledger, entry, k), inv);
      }
    case OtherStep(e) => PostKeepsFoundCharge(b.ledger, e, inv);
    case _ =>
  }

  lemma StepKeepsAnswers(b: Books, step: Step, key: string, inv: nat, charge: Option<nat>)
    requires Enabled(step) && Answers(b, key, inv, charge)
    ensures Answers(Apply(b, step), key, inv, charge)
  {
    StepFreezes(b, step, inv);
    StepKeepsInvoiceKeys(b, step, key);
    StepKeepsFoundCharge(b, step, inv);
  }

  lemma {:induction false} RunKeepsAnswers(b: Books, steps: seq<Step>, key: string, inv: nat, charge: Option<nat>)
    requires forall i :: 0 <= i < |steps| ==> Enabled(steps[i])
    requires Answers(b, key, inv, charge)
    ensures Answers(After(b, steps), key, inv, charge)
    decreases |steps|
  {
    if steps == [] {
    } else {
      StepKeepsAnswers(b, steps[0], key, inv, charge);
      RunKeepsAnswers(Apply(b, steps[0]), steps[1..], key, inv, charge);
    }
  }

  /** No usage charge refers to an invoice that does not exist yet. */
  ghost predicate ChargesHaveInvoices(b: Books) {
    forall k :: 0 <= k < |b.ledger| && b.ledger[k].kind == UsageCharge && b.ledger[k].invoice.Some? ==>
      b.ledger[k].invoice.value < |b.invoices|
  }

  lemma {:induction false} NoChargeFound(entries: seq<Entry>, n: nat, inv: nat)
    requires n <= |entries|
    requires forall k :: 0 <= k < n && entries[k].kind == UsageCharge ==> entries[k].invoice != Some(inv)
    ensures FindCharge(entries, n, inv).None?
  {
    if n == 0 {
    } else {
      NoChargeFound(entries, n - 1, inv);
    }
  }

  lemma CloseAnswers(b: Books, org: nat, start: Instant, end: Instant, key: string, features: seq<string>,
                     usage: map<string, int>, prices: map<string, int>)
    requires Priced(features, usage, prices) && FindInvoice(b.invoices, key).None? && ChargesHaveInvoices(b)
    ensures
      var once, inv := Close(b, org, true, start, end, key, features, usage, prices), |b.invoices|;
      var taken := CloseKey(key, UsageChargePosting) in KeysOf(b.ledger);
      && Answers(once, key, inv, if taken then None else Some(|b.ledger|))
      && once.invoices[inv].total == BillTotal(features, usage, prices)
      && FirstResult(once, inv, key).charge.Some?
      && (!taken ==> FirstResult(once, inv, key).charge == Some(|b.ledger|))
  {
    var once := Close(b, org, true, start, end, key, features, usage, prices);
    var charge := ChargeFor(org, |b.invoices|, BillTotal(features, usage, prices), key);
    assert once.invoices[|b.invoices|].key == key;
    PostedEntry(b.ledger, charge);
    if charge.key in KeysOf(b.ledger) {
      NoChargeFound(b.ledger, |b.ledger|, |b.invoices|);
    } else {
      assert once.ledger[|b.ledger|] == charge;
    }
  }

  /** Repeating a close with the same key, after any further drafts, lines, closes, syncs, reversals and postings and
      whatever the arguments are by then, changes nothing and reports the invoice and the total of the first call.  It
      reports the same charge exactly when the key of the charge was free at the first call: otherwise the first call
      reports the foreign entry under that key, and every repetition none. */
  lemma RepeatedCloseIsNoop(b: Books, org: nat, start: Instant, end: Instant, key: string, features: seq<string>,
                            usage: map<string, int>, prices: map<string, int>, steps: seq<Step>, has: bool,
                            start': Instant, end': Instant, features': seq<string>, usage': map<string, int>,
                            prices': map<string, int>)
    requires Priced(features, usage, prices) && Priced(features', usage', prices')
    requires FindInvoice(b.invoices, key).None? && ChargesHaveInvoices(b)
    requires forall i :: 0 <= i < |steps| ==> Enabled(steps[i])
    ensures
      var once, inv := Close(b, org, true, start, end, key, features, usage, prices), |b.invoices|;
      var first, now := FirstResult(once, inv, key), After(once, steps);
      && Close(now, org, has, start', end', key, features', usage', prices') == now
      && FindInvoice(now.invoices, key) == Some(inv)
      && first.total == BillTotal(features, usage, prices)
      && ResultOf(now, inv) == first.(charge := ResultOf(now, inv).charge)
      && (ResultOf(now, inv) == first <==> CloseKey(key, UsageChargePosting) !in KeysOf(b.ledger))
      && (ResultOf(now, inv).charge.None? <==> CloseKey(key, UsageChargePosting) in KeysOf(b.ledger))
  {
    var once := Close(b, org, true, start, end, key, features, usage, prices);
    CloseAnswers(b, org, start, end, key, features, usage, prices);
    RunKeepsAnswers(once, steps, key, |b.invoices|, FindCharge(once.ledger, |once.ledger|, |b.invoices|));
    ClosedIsFrozen(once, steps, |b.invoices|);
  }
}
