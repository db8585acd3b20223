/** The invoice and ledger tables updated in place. */
module BooksStore {
  import opened Wrappers
  import opened Subscriptions
  import opened Ledger
  import opened Invoicing
  import opened PeriodBilling

  datatype LineOutcome = LineAdded | InvoiceNotFound | InvoiceNotMutable

  /** A ledger-to-invoice discrepancy. */
  datatype InvoiceDiscrepancy = Discrepancy(invoice: nat, expected: int, actual: int, delta: int)

  class BooksTables {
    var invoices: seq<Invoice>
    var lines: seq<Line>
    var ledger: seq<Entry>
    var outbox: seq<Key>

    ghost function Contents(): Books
      reads this
    {
      Books(invoices, lines, ledger, outbox)
    }

    constructor ()
      ensures Contents() == EMPTY
    {
      invoices, lines, ledger, outbox := [], [], [], [];
    }

    method CreateDraftInvoice(org: nat, key: string, start: Instant, end: Instant) returns (inv: nat)
      modifies this`invoices
      ensures Contents() == CreateDraft(old(Contents()), org, key, start, end)
      ensures if FindInvoice(old(invoices), key).Some?
              then FindInvoice(old(invoices), key) == Some(inv) && invoices == old(invoices)
              else && inv == |old(invoices)|
                   && invoices == old(invoices) + [Invoice(org, Draft, start, end, 0, None, key)]
    {
      var existing := FindInvoice(invoices, key);
      if existing.Some? {
        return existing.value;
      }
      invoices := invoices + [Invoice(org, Draft, start, end, 0, None, key)];
      return |invoices| - 1;
    }

    method RecomputeInvoiceTotal(inv: nat)
      requires inv < |invoices|
      modifies this`invoices
      ensures invoices == old(invoices)[inv := old(invoices)[inv].(total := LineSum(lines, inv))]
    {
      var total := 0;
      assert lines[..0] == [];
      for i := 0 to |lines|
        invariant invoices == old(invoices) && total == LineSum(lines[..i], inv)
      {
        assert lines[..i + 1][..i] == lines[..i];
        if lines[i].invoice == inv {
          total := total + lines[i].amount;
        }
      }
      assert lines[..|lines|] == lines;
      invoices := invoices[inv := invoices[inv].(total := total)];
    }

    method AddLineItem(inv: nat, feature: Option<string>, quantity: int, unitAmount: int) returns (outcome: LineOutcome)
      modifies this`invoices, this`lines
      ensures Contents() == AddLine(old(Contents()), inv, feature, quantity, unitAmount)
      ensures outcome == LineAdded <==> CanAddLine(old(Contents()), inv)
      ensures outcome == InvoiceNotFound <==> inv >= |old(invoices)|
      ensures outcome == LineAdded <==> inv < |old(invoices)| && old(invoices)[inv].status == Draft
      ensures outcome != LineAdded ==> Contents() == old(Contents())
      ensures outcome == LineAdded ==>
                && |lines| == |old(lines)| + 1 && lines[..|old(lines)|] == old(lines)
                && var line := lines[|old(lines)|];
                   && line.invoice == inv && line.feature == feature && line.quantity == quantity
                   && line.unitAmount == unitAmount && line.amount == quantity * unitAmount
                   && |invoices| == |old(invoices)|
                   && (TotalsInv(old(Contents())) ==> invoices[inv].total == old(invoices)[inv].total + line.amount)
    {
      if inv >= |invoices| {
        return InvoiceNotFound;
      }
      if invoices[inv].status != Draft {
        return InvoiceNotMutable;
      }
      lines := lines + [Line(inv, feature, quantity, unitAmount, quantity * unitAmount)];
      assert lines[..|old(lines)|] == old(lines);
      RecomputeInvoiceTotal(inv);
      return LineAdded;
    }

    /** Returns the entry under the key, whether it is new or not. */
    method PostLedger(e: Entry) returns (posted: nat)
      modifies this`ledger, this`outbox
      ensures Contents() == PostOther(old(Contents()), e)
      ensures FindEntry(ledger, |ledger|, e.key) == Some(posted)
    {
      PostedEntry(ledger, e);
      var existing := FindEntry(ledger, |ledger|, e.key);
      if existing.Some? {
        return existing.value;
      }
      ledger := ledger + [e];
      if EntryPosted(e.key) !in outbox {
        outbox := outbox + [EntryPosted(e.key)];
      }
      posted := |ledger| - 1;
    }

    /** Bill a period's usage: draft invoice, one line per priced feature, open it, post the charge, announce. */
    method CloseBillingPeriod(org: nat, hasSubscription: bool, start: Instant, end: Instant, key: string,
                              usage: map<string, int>, prices: map<string, int>)
      returns (result: Option<CloseResult>, ghost features: seq<string>)
      requires TotalsInv(Contents())
      modifies this
      ensures IsBill(features, usage, prices) && Priced(features, usage, prices)
      ensures Contents() == Close(old(Contents()), org, hasSubscription, start, end, key, features, usage, prices)
      ensures result.None? <==> FindInvoice(old(invoices), key).None? && !hasSubscription
      ensures FindInvoice(old(invoices), key).None? && hasSubscription ==>
                var total := BillTotal(features, usage, prices);
                && invoices == old(invoices) + [Invoice(org, Open, start, end, total, None, key)]
                && (CloseKey(key, UsageChargePosting) !in KeysOf(old(ledger)) ==>
                      ledger == old(ledger) + [Entry(org, Some(|old(invoices)|), UsageCharge, total, None, None,
                                                     CloseKey(key, UsageChargePosting))])
                && CloseKey(key, PeriodClosed) in outbox
      ensures result.Some? ==>
                && FindInvoice(invoices, key) == Some(result.value.invoice)
                && result.value == if FindInvoice(old(invoices), key).Some?
                                   then ResultOf(Contents(), result.value.invoice)
                                   else FirstResult(Contents(), result.value.invoice, key)
    {
      var existing := FindInvoice(invoices, key);
      if existing.Some? || !hasSubscription {
        features := BillOrder(usage, prices);
        if existing.Some? {
          var inv := existing.value;
          return Some(CloseResult(inv, invoices[inv].total, FindCharge(ledger, |ledger|, inv))), features;
        }
        return None, features;
      }
      var inv := CreateDraftInvoice(org, key, start, end);
      NoLines(lines, inv);
      features := AddUsageLines(inv, usage, prices);
      invoices := invoices[inv := invoices[inv].(status := Open)];
      assert invoices[..inv] == old(invoices);
      var chargeKey := CloseKey(key, UsageChargePosting);
      var posted := PostLedger(Entry(org, Some(inv), UsageCharge, invoices[inv].total, None, None, chargeKey));
      if CloseKey(key, PeriodClosed) !in outbox {
        outbox := outbox + [CloseKey(key, PeriodClosed)];
      }
      assert invoices[inv].key == key;
      result := Some(CloseResult(inv, invoices[inv].total, Some(posted)));
    }

    /** One line per feature with usage and a metered price. */
    method AddUsageLines(inv: nat, usage: map<string, int>, prices: map<string, int>)
      returns (ghost features: seq<string>)
      requires inv == |invoices| - 1 && invoices[inv].status == Draft && invoices[inv].total == 0
      requires LineSum(lines, inv) == 0
      modifies this`invoices, this`lines
      ensures IsBill(features, usage, prices) && Priced(features, usage, prices)
      ensures lines == old(lines) + BillLines(inv, features, usage, prices)
      ensures invoices == old(invoices)[inv := old(invoices)[inv].(total := BillTotal(features, usage, prices))]
    {
      features := [];
      var todo := usage.Keys;
      while todo != {}
        invariant todo <= usage.Keys && Priced(features, usage, prices)
        invariant forall f :: f in features <==> f in usage && f in prices && f !in todo
        invariant forall i, j :: 0 <= i < j < |features| ==> features[i] != features[j]
        invariant lines == old(lines) + BillLines(inv, features, usage, prices)
        invariant invoices == old(invoices)[inv := old(invoices)[inv].(total := BillTotal(features, usage, prices))]
        decreases |todo|
      {
        var f :| f in todo;
        if f in prices {
          BillGrows(old(lines), inv, features, f, usage, prices);
          var _ := AddLineItem(inv, Some(f), usage[f], prices[f]);
          features := features + [f];
        }
        todo := todo - {f};
      }
    }

    method ReverseEntry(entry: nat, key: Key) returns (found: bool)
      modifies this`ledger, this`outbox
      ensures Contents() == Reverse(old(Contents()), entry, key)
      ensures found == (entry < |old(ledger)|)
      ensures if found then Compensates(old(ledger), ledger, entry, key) else Contents() == old(Contents())
    {
      if entry >= |ledger| {
        return false;
      }
      ReversalCompensates(ledger, entry, key);
      var original := ledger[entry];
      var _ := PostLedger(Entry(original.org, original.invoice, Reversal, -original.amount, Some(entry), None, key));
      return true;
    }

    method SyncInvoice(inv: nat, externalId: string) returns (id: Option<string>)
      modifies this`invoices
      ensures Contents() == Sync(old(Contents()), inv, externalId)
      ensures id.Some? <==> inv < |old(invoices)|
      ensures id.Some? ==>
                && id == (if old(invoices)[inv].externalId.Some? then old(invoices)[inv].externalId
                    else Some(externalId))
                && invoices == old(invoices)[inv := old(invoices)[inv].(externalId := id)]
    {
      if inv >= |invoices| {
        return None;
      }
      if invoices[inv].externalId.Some? {
        return invoices[inv].externalId;
      }
      invoices := invoices[inv := invoices[inv].(externalId := Some(externalId))];
      return Some(externalId);
    }

    /** Compare every invoice with the ledger; reports exactly the mismatches, in table order. */
    method DetectLedgerInvoiceDiscrepancies() returns (report: seq<InvoiceDiscrepancy>)
      ensures forall k :: 0 <= k < |report| ==>
                && report[k].invoice < |invoices| && Mismatch(Contents(), report[k].invoice)
                && report[k].expected == invoices[report[k].invoice].total
                && report[k].actual == LedgerTotal(Contents(), report[k].invoice)
                && report[k].delta == report[k].expected - report[k].actual
      ensures forall inv :: 0 <= inv < |invoices| && Mismatch(Contents(), inv) ==>
                exists k :: 0 <= k < |report| && report[k].invoice == inv
      ensures forall i, j :: 0 <= i < j < |report| ==> report[i].invoice < report[j].invoice
    {
      report := [];
      for inv := 0 to |invoices|
        invariant forall k :: 0 <= k < |report| ==>
                    && report[k].invoice < inv && Mismatch(Contents(), report[k].invoice)
                    && report[k].expected == invoices[report[k].invoice].total
                    && report[k].actual == LedgerTotal(Contents(), report[k].invoice)
                    && report[k].delta == report[k].expected - report[k].actual
        invariant forall x :: 0 <= x < inv && Mismatch(Contents(), x) ==>
                    exists k :: 0 <= k < |report| && report[k].invoice == x
        invariant forall i, j :: 0 <= i < j < |report| ==> report[i].invoice < report[j].invoice
      {
        var total := LedgerTotal(Books(invoices, lines, ledger, outbox), inv);
        var expected := invoices[inv].total;
        if total != expected {
          ghost var before := report;
          report := report + [Discrepancy(inv, expected, total, expected - total)];
          assert report[|before|].invoice == inv;
          assert forall k :: 0 <= k < |before| ==> report[k] == before[k];
        }
      }
    }
  }

  /** Adding one line of a bill extends the billed lines and brings the total to the longer bill's. */
  lemma BillGrows(lines: seq<Line>, inv: nat, features: seq<string>, f: string, usage: map<string, int>,
                  prices: map<string, int>)
    requires Priced(features, usage, prices) && f in usage && f in prices && LineSum(lines, inv) == 0
    ensures Priced(features + [f], usage, prices)
    ensures
      var line := Line(inv, Some(f), usage[f], prices[f], usage[f] * prices[f]);
      var longer := lines + BillLines(inv, features + [f], usage, prices);
      && lines + BillLines(inv, features, usage, prices) + [line] == longer
      && LineSum(longer, inv) == BillTotal(features + [f], usage, prices)
  {
    var more := features + [f];
    var line := Line(inv, Some(f), usage[f], prices[f], usage[f] * prices[f]);
    assert BillLines(inv, more, usage, prices) == BillLines(inv, features, usage, prices) + [line];
    LineSumConcat(lines, BillLines(inv, more, usage, prices), inv);
    BillLinesSum(inv, more, usage, prices, inv);
  }

  /** Some order of the billable features. */
  ghost method BillOrder(usage: map<string, int>, prices: map<string, int>) returns (features: seq<string>)
    ensures IsBill(features, usage, prices) && Priced(features, usage, prices)
  {
    features := [];
    var todo := usage.Keys * prices.Keys;
    while todo != {}
      invariant todo <= usage.Keys * prices.Keys
      invariant forall f :: f in features <==> f in usage && f in prices && f !in todo
      invariant forall i, j :: 0 <= i < j < |features| ==> features[i] != features[j]
      decreases |todo|
    {
      var f :| f in todo;
      features := features + [f];
      todo := todo - {f};
    }
    assert forall i :: 0 <= i < |features| ==> features[i] in features;
  }
}
