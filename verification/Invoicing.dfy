/** Invoices, their lines, the usage charges posted for them, and the comparison of invoices with the ledger. */
module Invoicing {
  import opened Wrappers
  import opened Subscriptions
  import opened Ledger

  datatype InvoiceStatus = Draft | Open | Paid | Void | Uncollectible

  datatype Invoice = Invoice(
    org: nat,
    status: InvoiceStatus,
    periodStart: Instant,
    periodEnd: Instant,
    total: int,
    externalId: Option<string>,
    key: string)

  datatype Line = Line(invoice: nat, feature: Option<string>, quantity: int, unitAmount: int, amount: int)

  datatype Books = Books(invoices: seq<Invoice>, lines: seq<Line>, ledger: seq<Entry>, outbox: seq<Key>)

  const EMPTY := Books([], [], [], [])

  /** The sum of an invoice's line amounts. */
  function LineSum(lines: seq<Line>, inv: nat): int {
    if lines == [] then 0
    else
      var l := lines[|lines| - 1];
      LineSum(lines[..|lines| - 1], inv) + (if l.invoice == inv then l.amount else 0)
  }

  lemma {:induction false} LineSumConcat(a: seq<Line>, b: seq<Line>, inv: nat)
    ensures LineSum(a + b, inv) == LineSum(a, inv) + LineSum(b, inv)
  {
    if b == [] {
      assert a + b == a;
    } else {
      assert (a + b)[..|a + b| - 1] == a + b[..|b| - 1];
      LineSumConcat(a, b[..|b| - 1], inv);
    }
  }

  function FindBelow(invoices: seq<Invoice>, n: nat, key: string): (r: Option<nat>)
    requires n <= |invoices|
    ensures r.Some? ==> r.value < n && invoices[r.value].key == key
    ensures r.None? ==> forall i :: 0 <= i < n ==> invoices[i].key != key
  {
    if n == 0 then None
    else if invoices[n - 1].key == key then Some(n - 1)
    else FindBelow(invoices, n - 1, key)
  }

  function FindInvoice(invoices: seq<Invoice>, key: string): (r: Option<nat>)
    ensures r.Some? ==> r.value < |invoices| && invoices[r.value].key == key
    ensures r.None? ==> forall i :: 0 <= i < |invoices| ==> invoices[i].key != key
  {
    FindBelow(invoices, |invoices|, key)
  }

  /* ---------- drafts and lines ---------- */

  function CreateDraft(b: Books, org: nat, key: string, start: Instant, end: Instant): Books {
    if FindInvoice(b.invoices, key).Some? then b
    else b.(invoices := b.invoices + [Invoice(org, Draft, start, end, 0, None, key)])
  }

  predicate CanAddLine(b: Books, inv: nat) {
    inv < |b.invoices| && b.invoices[inv].status == Draft
  }

  function AddLine(b: Books, inv: nat, feature: Option<string>, quantity: int, unitAmount: int): Books {
    if !CanAddLine(b, inv) then b
    else
      var lines := b.lines + [Line(inv, feature, quantity, unitAmount, quantity * unitAmount)];
      b.(lines := lines, invoices := b.invoices[inv := b.invoices[inv].(total := LineSum(lines, inv))])
  }

  /* ---------- closing a period ---------- */

  /** The features a close bills, in some order: those with usage and a metered price. */
  ghost predicate IsBill(features: seq<string>, usage: map<string, int>, prices: map<string, int>) {
    && (forall f :: f in features <==> f in usage && f in prices)
    && (forall i, j :: 0 <= i < j < |features| ==> features[i] != features[j])
  }

  predicate Priced(features: seq<string>, usage: map<string, int>, prices: map<string, int>) {
    forall i :: 0 <= i < |features| ==> features[i] in usage && features[i] in prices
  }

  function BillLines(inv: nat, features: seq<string>, usage: map<string, int>, prices: map<string, int>): seq<Line>
    requires Priced(features, usage, prices)
  {
    seq(|features|, i requires 0 <= i < |features| =>
      var f := features[i];
      Line(inv, Some(f), usage[f], prices[f], usage[f] * prices[f]))
  }

  function BillTotal(features: seq<string>, usage: map<string, int>, prices: map<string, int>): int
    requires Priced(features, usage, prices)
  {
    if features == [] then 0
    else
      var f := features[|features| - 1];
      BillTotal(features[..|features| - 1], usage, prices) + usage[f] * prices[f]
  }

  lemma {:induction false} BillLinesSum(inv: nat, features: seq<string>, usage: map<string, int>,
                                        prices: map<string, int>, x: nat)
    requires Priced(features, usage, prices)
    ensures LineSum(BillLines(inv, features, usage, prices), x)
         == if x == inv then BillTotal(features, usage, prices) else 0
  {
    if features == [] {
    } else {
      var n := |features| - 1;
      assert BillLines(inv, features, usage, prices)[..n] == BillLines(inv, features[..n], usage, prices);
      BillLinesSum(inv, features[..n], usage, prices, x);
    }
  }

  function ChargeFor(org: nat, inv: nat, total: int, key: string): Entry {
    Entry(org, Some(inv), UsageCharge, total, None, None, CloseKey(key, UsageChargePosting))
  }

  function CloseNew(b: Books, org: nat, start: Instant, end: Instant, key: string, features: seq<string>,
                    usage: map<string, int>, prices: map<string, int>): Books
    requires Priced(features, usage, prices)
  {
    var inv, total := |b.invoices|, BillTotal(features, usage, prices);
    var charge := ChargeFor(org, inv, total, key);
    Books(b.invoices + [Invoice(org, Open, start, end, total, None, key)],
          b.lines + BillLines(inv, features, usage, prices),
          PostEntry(b.ledger, charge),
          Enqueue(Announce(b.ledger, b.outbox, charge), CloseKey(key, PeriodClosed)))
  }

  /** A known key returns the existing invoice; an organization without a subscription cannot be closed. */
  function Close(b: Books, org: nat, hasSubscription: bool, start: Instant, end: Instant, key: string,
                 features: seq<string>, usage: map<string, int>, prices: map<string, int>): Books
    requires Priced(features, usage, prices)
  {
    if FindInvoice(b.invoices, key).Some? || !hasSubscription then b
    else CloseNew(b, org, start, end, key, features, usage, prices)
  }

  /* ---------- other movements ---------- */

  /** Sync attaches the provider's invoice id once and touches no amount. */
  function Sync(b: Books, inv: nat, externalId: string): Books {
    if inv >= |b.invoices| || b.invoices[inv].externalId.Some? then b
    else b.(invoices := b.invoices[inv := b.invoices[inv].(externalId := Some(externalId))])
  }

  function Reverse(b: Books, entry: nat, key: Key): Books {
    if entry >= |b.ledger| then b
    else
      var r := ReversalOf(b.ledger, entry, key);
      b.(ledger := PostEntry(b.ledger, r), outbox := Announce(b.ledger, b.outbox, r))
  }

  /** Any posting by another service: payments, prorations, markers. */
  function PostOther(b: Books, e: Entry): Books {
    b.(ledger := PostEntry(b.ledger, e), outbox := Announce(b.ledger, b.outbox, e))
  }

  /* ---------- ledger against invoices ---------- */

  function InvoiceTotal(entries: seq<Entry>, kind: EntryType, inv: nat): int {
    if entries == [] then 0
    else
      var e := entries[|entries| - 1];
      InvoiceTotal(entries[..|entries| - 1], kind, inv)
      + (if e.kind == kind && e.invoice == Some(inv) then e.amount else 0)
  }

  function Charges(entries: seq<Entry>, inv: nat): nat {
    if entries == [] then 0
    else
      var e := entries[|entries| - 1];
      Charges(entries[..|entries| - 1], inv) + (if e.kind == UsageCharge && e.invoice == Some(inv) then 1 else 0)
  }

  function FirstPayment(entries: seq<Entry>, externalId: string): int {
    if entries == [] then 0
    else if entries[0].kind == InvoicePaid && entries[0].externalInvoice == Some(externalId) then entries[0].amount
    else FirstPayment(entries[1..], externalId)
  }

  /** Entry `k` is the earliest payment that carries the provider's invoice id. */
  ghost predicate EarliestPayment(entries: seq<Entry>, k: nat, externalId: string) {
    && k < |entries| && entries[k].kind == InvoicePaid && entries[k].externalInvoice == Some(externalId)
    && forall j :: 0 <= j < k ==> entries[j].kind != InvoicePaid || entries[j].externalInvoice != Some(externalId)
  }

  lemma {:induction false} FirstPaymentIsEarliest(entries: seq<Entry>, externalId: string)
    ensures forall k: nat :: EarliestPayment(entries, k, externalId) ==>
        FirstPayment(entries, externalId) == entries[k].amount
    ensures (forall k: nat :: !EarliestPayment(entries, k, externalId)) ==> FirstPayment(entries, externalId) == 0
    decreases |entries|
  {
    if entries == [] {
    } else if entries[0].kind == InvoicePaid && entries[0].externalInvoice == Some(externalId) {
      assert EarliestPayment(entries, 0, externalId);
    } else {
      FirstPaymentIsEarliest(entries[1..], externalId);
      assert forall k: nat :: k < |entries| - 1 ==> entries[1..][k] == entries[k + 1];
      if k: nat :| EarliestPayment(entries[1..], k, externalId) {
        assert EarliestPayment(entries, k + 1, externalId) by {
          assert forall j :: 0 < j < k + 1 ==> entries[j] == entries[1..][j - 1];
        }
      }
      forall k: nat
        ensures EarliestPayment(entries, k, externalId) <==> k > 0 && EarliestPayment(entries[1..], k - 1, externalId)
      {
        if k > 0 && EarliestPayment(entries[1..], k - 1, externalId) {
          assert forall j :: 0 < j < k ==> entries[j] == entries[1..][j - 1];
        }
        if EarliestPayment(entries, k, externalId) {
          assert forall j :: 0 <= j < k - 1 ==> entries[1..][j] == entries[j + 1];
        }
      }
    }
  }

  /** What the ledger says about an invoice: its usage charges, else its payments, else the payment of its provider
      id. */
  function LedgerTotal(b: Books, inv: nat): int
    requires inv < |b.invoices|
  {
    var usage := InvoiceTotal(b.ledger, UsageCharge, inv);
    var paid := InvoiceTotal(b.ledger, InvoicePaid, inv);
    if usage > 0 then usage
    else if paid > 0 then paid
    else if b.invoices[inv].externalId.Some? && b.invoices[inv].externalId.value != "" then
      FirstPayment(b.ledger, b.invoices[inv].externalId.value)
    else 0
  }

  predicate Mismatch(b: Books, inv: nat)
    requires inv < |b.invoices|
  {
    LedgerTotal(b, inv) != b.invoices[inv].total
  }

  /** When an invoice without a usage charge is not reported: if payments are booked on it, its total must be their sum;
      else, if it has a provider id, the amount of the earliest payment that carries the id, or zero if none does; and
      without a provider id it must be zero. */
  lemma UnchargedInvoiceIsReported(b: Books, inv: nat)
    requires inv < |b.invoices| && InvoiceTotal(b.ledger, UsageCharge, inv) <= 0
    ensures
      var total, paid, id := b.invoices[inv].total, InvoiceTotal(b.ledger, InvoicePaid, inv),
          b.invoices[inv].externalId;
      && (paid > 0 ==> (!Mismatch(b, inv) <==> total == paid))
      && (paid <= 0 && (id.None? || id == Some("")) ==> (!Mismatch(b, inv) <==> total == 0))
      && (paid <= 0 && id.Some? && id != Some("") ==>
            && (forall k: nat :: EarliestPayment(b.ledger, k, id.value) ==>
                  (!Mismatch(b, inv) <==> total == b.ledger[k].amount))
            && ((forall k: nat :: !EarliestPayment(b.ledger, k, id.value)) ==> (!Mismatch(b, inv) <==> total == 0)))
  {
    if b.invoices[inv].externalId.Some? {
      FirstPaymentIsEarliest(b.ledger, b.invoices[inv].externalId.value);
    }
  }

  /* ---------- runs ---------- */

  datatype Step =
    | DraftStep(org: nat, key: string, start: Instant, end: Instant)
    | LineStep(inv: nat, feature: Option<string>, quantity: int, unitAmount: int)
    | CloseStep(org: nat, hasSubscription: bool, start: Instant, end: Instant, key: string, features: seq<string>,
                usage: map<string, int>, prices: map<string, int>)
    | SyncStep(inv: nat, externalId: string)
    | ReverseStep(entry: nat, reversalKey: Key)
    | OtherStep(posting: Entry)

  predicate ReservedKey(k: Key) {
    k.CloseKey? && k.what == UsageChargePosting
  }

  /** Reversals bring keys of their own, and other services post neither usage charges nor under a close's key. */
  ghost predicate Enabled(step: Step) {
    match step
    case CloseStep(_, _, _, _, _, features, usage, prices) => IsBill(features, usage, prices)
    case ReverseStep(_, key) => !ReservedKey(key)
    case OtherStep(e) => e.kind != UsageCharge && !ReservedKey(e.key)
    case _ => true
  }

  ghost function Apply(b: Books, step: Step): Books
    requires Enabled(step)
  {
    match step
    case DraftStep(org, key, start, end) => CreateDraft(b, org, key, start, end)
    case LineStep(inv, feature, quantity, unitAmount) => AddLine(b, inv, feature, quantity, unitAmount)
    case CloseStep(org, has, start, end, key, features, usage, prices) =>
      assert forall i :: 0 <= i < |features| ==> features[i] in features;
      Close(b, org, has, start, end, key, features, usage, prices)
    case SyncStep(inv, externalId) => Sync(b, inv, externalId)
    case ReverseStep(entry, key) => Reverse(b, entry, key)
    case OtherStep(e) => PostOther(b, e)
  }

  ghost function After(b: Books, steps: seq<Step>): Books
    requires forall i :: 0 <= i < |steps| ==> Enabled(steps[i])
    decreases |steps|
  {
    if steps == [] then b else After(Apply(b, steps[0]), steps[1..])
  }

  ghost predicate TotalsInv(b: Books) {
    && (forall inv :: 0 <= inv < |b.invoices| ==> b.invoices[inv].total == LineSum(b.lines, inv))
    && (forall i :: 0 <= i < |b.lines| ==> b.lines[i].invoice < |b.invoices|)
  }

  /** An invoice that was closed has exactly one usage charge, of its total; a draft has none. */
  ghost predicate ChargeInv(b: Books, inv: nat)
    requires inv < |b.invoices|
  {
    && (b.invoices[inv].status == Draft || b.invoices[inv].status == Open)
    && Charges(b.ledger, inv) == (if b.invoices[inv].status == Open then 1 else 0)
    && InvoiceTotal(b.ledger, UsageCharge, inv) == (if b.invoices[inv].status == Open then b.invoices[inv].total else 0)
  }

  ghost predicate LedgerInv(b: Books) {
    && (forall k :: 0 <= k < |b.ledger| && b.ledger[k].kind == UsageCharge ==>
          b.ledger[k].invoice.Some? && b.ledger[k].invoice.value < |b.invoices|)
    && (forall k: Key :: k in KeysOf(b.ledger) && ReservedKey(k) ==> FindInvoice(b.invoices, k.idem).Some?)
  }

  ghost predicate Inv(b: Books) {
    && TotalsInv(b)
    && (forall inv :: 0 <= inv < |b.invoices| ==> ChargeInv(b, inv))
    && LedgerInv(b)
  }

  lemma {:induction false} NoLines(lines: seq<Line>, inv: nat)
    requires forall i :: 0 <= i < |lines| ==> lines[i].invoice != inv
    ensures LineSum(lines, inv) == 0
  {
    if lines == [] {
    } else {
      NoLines(lines[..|lines| - 1], inv);
    }
  }

  lemma {:induction false} NoCharges(entries: seq<Entry>, inv: nat)
    requires forall k :: 0 <= k < |entries| && entries[k].kind == UsageCharge ==> entries[k].invoice != Some(inv)
    ensures Charges(entries, inv) == 0 && InvoiceTotal(entries, UsageCharge, inv) == 0
  {
    if entries == [] {
    } else {
      NoCharges(entries[..|entries| - 1], inv);
    }
  }

  /** Posting anything but a usage charge moves no usage charge. */
  lemma PostKeepsCharges(entries: seq<Entry>, e: Entry, inv: nat)
    ensures
      var after := PostEntry(entries, e);
      var added := e.key !in KeysOf(entries) && e.kind == UsageCharge && e.invoice == Some(inv);
      && Charges(after, inv) == Charges(entries, inv) + (if added then 1 else 0)
      && InvoiceTotal(after, UsageCharge, inv)
         == InvoiceTotal(entries, UsageCharge, inv) + (if added then e.amount else 0)
  {
    assert (entries + [e])[..|entries|] == entries;
  }

  lemma FoundStaysFound(invoices: seq<Invoice>, more: seq<Invoice>, key: string)
    requires |invoices| <= |more| && forall i :: 0 <= i < |invoices| ==> more[i].key == invoices[i].key
    requires FindInvoice(invoices, key).Some?
    ensures FindInvoice(more, key).Some?
  {
    assert more[FindInvoice(invoices, key).value].key == key;
  }

  lemma DraftKeepsInv(b: Books, org: nat, key: string, start: Instant, end: Instant)
    requires Inv(b)
    ensures Inv(CreateDraft(b, org, key, start, end))
  {
    var b' := CreateDraft(b, org, key, start, end);
    if b' != b {
      var n := |b.invoices|;
      NoLines(b.lines, n);
      NoCharges(b.ledger, n);
      forall inv | 0 <= inv < |b'.invoices| ensures ChargeInv(b', inv) {
        assert inv < n ==> ChargeInv(b, inv);
      }
      forall k: Key | k in KeysOf(b.ledger) && ReservedKey(k) ensures FindInvoice(b'.invoices, k.idem).Some? {
        FoundStaysFound(b.invoices, b'.invoices, k.idem);
      }
    }
  }

  lemma LineKeepsInv(b: Books, inv: nat, feature: Option<string>, quantity: int, unitAmount: int)
    requires Inv(b)
    ensures Inv(AddLine(b, inv, feature, quantity, unitAmount))
  {
    var b' := AddLine(b, inv, feature, quantity, unitAmount);
    if CanAddLine(b, inv) {
      assert b'.lines[..|b.lines|] == b.lines;
      forall x | 0 <= x < |b'.invoices| ensures ChargeInv(b', x) {
        assert ChargeInv(b, x);
      }
      forall k: Key | k in KeysOf(b.ledger) && ReservedKey(k) ensures FindInvoice(b'.invoices, k.idem).Some? {
        FoundStaysFound(b.invoices, b'.invoices, k.idem);
      }
    }
  }

  lemma PostKeepsInv(b: Books, e: Entry)
    requires Inv(b) && e.kind != UsageCharge && !ReservedKey(e.key)
    ensures Inv(PostOther(b, e))
  {
    var b' := PostOther(b, e);
    forall inv | 0 <= inv < |b'.invoices| ensures ChargeInv(b', inv) {
      assert ChargeInv(b, inv);
      PostKeepsCharges(b.ledger, e, inv);
    }
    KeysOfAppend(b.ledger, e);
  }

  lemma CloseKeepsTotals(b: Books, org: nat, start: Instant, end: Instant, key: string, features: seq<string>,
                         usage: map<string, int>, prices: map<string, int>)
    requires TotalsInv(b) && Priced(features, usage, prices)
    ensures TotalsInv(CloseNew(b, org, start, end, key, features, usage, prices))
  {
    var b' := CloseNew(b, org, start, end, key, features, usage, prices);
    var n := |b.invoices|;
    NoLines(b.lines, n);
    forall inv | 0 <= inv < |b'.invoices| ensures b'.invoices[inv].total == LineSum(b'.lines, inv) {
      LineSumConcat(b.lines, BillLines(n, features, usage, prices), inv);
      BillLinesSum(n, features, usage, prices, inv);
    }
  }

  /** The charge of a close is posted exactly when nobody has used its key before: then the new invoice has its one
      equal charge, otherwise it has none. */
  lemma ChargeIffKeyIsFree(b: Books, org: nat, start: Instant, end: Instant, key: string, features: seq<string>,
                           usage: map<string, int>, prices: map<string, int>)
    requires Priced(features, usage, prices)
    requires forall k :: 0 <= k < |b.ledger| && b.ledger[k].kind == UsageCharge ==>
        b.ledger[k].invoice != Some(|b.invoices|)
    ensures
      var b', n := CloseNew(b, org, start, end, key, features, usage, prices), |b.invoices|;
      if CloseKey(key, UsageChargePosting) !in KeysOf(b.ledger) then
        Charges(b'.ledger, n) == 1 && InvoiceTotal(b'.ledger, UsageCharge, n) == b'.invoices[n].total
      else
        Charges(b'.ledger, n) == 0
  {
    var n := |b.invoices|;
    NoCharges(b.ledger, n);
    PostKeepsCharges(b.ledger, ChargeFor(org, n, BillTotal(features, usage, prices), key), n);
  }

  lemma CloseKeepsInv(b: Books, org: nat, start: Instant, end: Instant, key: string, features: seq<string>,
                      usage: map<string, int>, prices: map<string, int>)
    requires Inv(b) && Priced(features, usage, prices) && FindInvoice(b.invoices, key).None?
    ensures Inv(CloseNew(b, org, start, end, key, features, usage, prices))
  {
    var b' := CloseNew(b, org, start, end, key, features, usage, prices);
    var n := |b.invoices|;
    var charge := ChargeFor(org, n, BillTotal(features, usage, prices), key);
    CloseKeepsTotals(b, org, start, end, key, features, usage, prices);
    assert charge.key !in KeysOf(b.ledger);
    ChargeIffKeyIsFree(b, org, start, end, key, features, usage, prices);
    forall inv | 0 <= inv < |b'.invoices| ensures ChargeInv(b', inv) {
      if inv < n {
        assert ChargeInv(b, inv);
        PostKeepsCharges(b.ledger, charge, inv);
      }
    }
    KeysOfAppend(b.ledger, charge);
    forall k: Key | k in KeysOf(b'.ledger) && ReservedKey(k) ensures FindInvoice(b'.invoices, k.idem).Some? {
      if k == charge.key {
        assert b'.invoices[n].key == k.idem;
      } else {
        FoundStaysFound(b.invoices, b'.invoices, k.idem);
      }
    }
  }

  lemma SyncKeepsInv(b: Books, inv: nat, externalId: string)
    requires Inv(b)
    ensures Inv(Sync(b, inv, externalId))
  {
    var b' := Sync(b, inv, externalId);
    forall x | 0 <= x < |b'.invoices| ensures ChargeInv(b', x) {
      assert ChargeInv(b, x);
    }
    forall k: Key | k in KeysOf(b.ledger) && ReservedKey(k) ensures FindInvoice(b'.invoices, k.idem).Some? {
      FoundStaysFound(b.invoices, b'.invoices, k.idem);
    }
  }

  lemma StepKeepsInv(b: Books, step: Step)
    requires Inv(b) && Enabled(step)
    ensures Inv(Apply(b, step))
  {
    match step
    case DraftStep(org, key, start, end) => DraftKeepsInv(b, org, key, start, end);
    case LineStep(inv, feature, quantity, unitAmount) => LineKeepsInv(b, inv, feature, quantity, unitAmount);
    case CloseStep(org, has, start, end, key, features, usage, prices) =>
      assert forall i :: 0 <= i < |features| ==> features[i] in features;
      if FindInvoice(b.invoices, key).None? && has {
        CloseKeepsInv(b, org, start, end, key, features, usage, prices);
      }
    case SyncStep(inv, externalId) => SyncKeepsInv(b, inv, externalId);
    case ReverseStep(entry, key) =>
      if entry < |b.ledger| {
        PostKeepsInv(b, ReversalOf(b.ledger, entry, key));
      }
    case OtherStep(e) => PostKeepsInv(b, e);
  }

  lemma {:induction false} RunKeepsInv(b: Books, steps: seq<Step>)
    requires Inv(b) && forall i :: 0 <= i < |steps| ==> Enabled(steps[i])
    ensures Inv(After(b, steps))
    decreases |steps|
  {
    if steps == [] {
    } else {
      StepKeepsInv(b, steps[0]);
      RunKeepsInv(Apply(b, steps[0]), steps[1..]);
    }
  }

  /** After every run every total is the sum of its lines; every closed invoice has exactly one usage charge, of its
      total; and if that total is positive, reconciliation does not report the invoice, whatever was paid, synced or
      reversed. */
  lemma ClosedInvoicesReconcile(steps: seq<Step>, inv: nat)
    requires forall i :: 0 <= i < |steps| ==> Enabled(steps[i])
    ensures
      var b := After(EMPTY, steps);
      inv < |b.invoices| ==>
        && b.invoices[inv].total == LineSum(b.lines, inv)
        && (b.invoices[inv].status == Open ==>
              Charges(b.ledger, inv) == 1 && InvoiceTotal(b.ledger, UsageCharge, inv) == b.invoices[inv].total)
        && (b.invoices[inv].status == Open && b.invoices[inv].total > 0 ==> !Mismatch(b, inv))
  {
    RunKeepsInv(EMPTY, steps);
    var b := After(EMPTY, steps);
    if inv < |b.invoices| {
      assert ChargeInv(b, inv);
    }
  }

  lemma StepFreezes(b: Books, step: Step, inv: nat)
    requires Enabled(step) && inv < |b.invoices| && b.invoices[inv].status != Draft
    ensures
      var b' := Apply(b, step);
      && inv < |b'.invoices|
      && b'.invoices[inv] == b.invoices[inv].(externalId := b'.invoices[inv].externalId)
      && LineSum(b'.lines, inv) == LineSum(b.lines, inv)
  {
    match step
    case LineStep(x, feature, quantity, unitAmount) =>
      var b' := Apply(b, step);
      if CanAddLine(b, x) {
        assert b'.lines[..|b.lines|] == b.lines;
      }
    case CloseStep(org, has, start, end, key, features, usage, prices) =>
      assert forall i :: 0 <= i < |features| ==> features[i] in features;
      if FindInvoice(b.invoices, key).None? && has {
        LineSumConcat(b.lines, BillLines(|b.invoices|, features, usage, prices), inv);
        BillLinesSum(|b.invoices|, features, usage, prices, inv);
      }
    case _ =>
  }

  /** Once an invoice is no longer a draft, its lines, total, period and status never change again. */
  lemma {:induction false} ClosedIsFrozen(b: Books, steps: seq<Step>, inv: nat)
    requires forall i :: 0 <= i < |steps| ==> Enabled(steps[i])
    requires inv < |b.invoices| && b.invoices[inv].status != Draft
    ensures
      var b' := After(b, steps);
      && inv < |b'.invoices|
      && b'.invoices[inv] == b.invoices[inv].(externalId := b'.invoices[inv].externalId)
      && LineSum(b'.lines, inv) == LineSum(b.lines, inv)
    decreases |steps|
  {
    if steps == [] {
    } else {
      StepFreezes(b, steps[0], inv);
      ClosedIsFrozen(Apply(b, steps[0]), steps[1..], inv);
    }
  }

  lemma {:induction false} NothingForNewInvoice(entries: seq<Entry>, kind: EntryType, inv: nat)
    requires forall k :: 0 <= k < |entries| ==> entries[k].invoice != Some(inv)
    ensures InvoiceTotal(entries, kind, inv) == 0
  {
    if entries == [] {
    } else {
      NothingForNewInvoice(entries[..|entries| - 1], kind, inv);
    }
  }

  /** A close with a positive bill is reported by the next reconciliation exactly when the key of its charge was taken
      before: the charge is then dropped. */
  lemma ReportedIffKeyTaken(b: Books, org: nat, start: Instant, end: Instant, key: string, features: seq<string>,
                            usage: map<string, int>, prices: map<string, int>)
    requires Priced(features, usage, prices) && BillTotal(features, usage, prices) > 0
    requires forall k :: 0 <= k < |b.ledger| && b.ledger[k].invoice.Some? ==> b.ledger[k].invoice.value < |b.invoices|
    ensures
      var b' := CloseNew(b, org, start, end, key, features, usage, prices);
      Mismatch(b', |b.invoices|) <==> CloseKey(key, UsageChargePosting) in KeysOf(b.ledger)
  {
    ChargeIffKeyIsFree(b, org, start, end, key, features, usage, prices);
    NothingForNewInvoice(b.ledger, InvoicePaid, |b.invoices|);
    NothingForNewInvoice(b.ledger, UsageCharge, |b.invoices|);
  }

  /** It can be taken: a reversal may use any key, including the one a later close will want. */
  lemma ReversalCanTakeTheKey(org: nat, key: string)
    ensures
      var payment := Entry(org, None, InvoicePaid, 5, None, None, CallerKey("payment"));
      var taken := CloseKey(key, UsageChargePosting);
      taken in KeysOf(Reverse(PostOther(EMPTY, payment), 0, taken).ledger)
  {
    var payment := Entry(org, None, InvoicePaid, 5, None, None, CallerKey("payment"));
    var b := PostOther(EMPTY, payment);
    assert b.ledger == [payment];
    var r := ReversalOf(b.ledger, 0, CloseKey(key, UsageChargePosting));
    assert forall k :: k in KeysOf([payment]) ==> k == payment.key;
    KeysOfAppend(b.ledger, r);
  }
}
