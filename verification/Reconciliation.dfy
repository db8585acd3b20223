/** Comparing the provider's invoices with the payments the platform has recorded. */
module Reconciliation {
  import opened Wrappers
  import opened Ledger

  /** A provider invoice as far as it can be read: each field present only if it has the right type. */
  datatype ProviderInvoice = ProviderInvoice(
    id: Option<string>,
    status: Option<string>,
    amountPaid: Option<int>,
    amountDue: Option<int>)

  datatype Record = Record(amount: int, status: string, org: nat)

  datatype Row =
    | MissingInPlatform(id: string, expected: int)
    | AmountMismatch(id: string, expected: int, actual: int, delta: int)
    | StatusMismatch(id: string, expected: int, actual: int)
    | MissingAtProvider(id: string, expected: int)

  predicate Readable(p: ProviderInvoice) {
    p.id.Some? && p.id.value != ""
  }

  /** The amount that counts: of a paid invoice what was paid, of any other, or if that is unreadable, what is due. */
  function ProviderAmount(p: ProviderInvoice): (amount: int)
    ensures p.status == Some("paid") && p.amountPaid.Some? ==> p.amountPaid == Some(amount)
    ensures (p.status != Some("paid") || p.amountPaid.None?) && p.amountDue.Some? ==> p.amountDue == Some(amount)
    ensures (p.status != Some("paid") || p.amountPaid.None?) && p.amountDue.None? ==> amount == 0
  {
    if p.status == Some("paid") && p.amountPaid.Some? then p.amountPaid.value
    else if p.amountDue.Some? then p.amountDue.value
    else 0
  }

  function ProviderStatus(p: ProviderInvoice): string {
    if p.status.Some? then p.status.value else "unknown"
  }

  /** The platform's view: the payments by provider invoice id, a later payment replacing an earlier one. */
  function PlatformIndex(entries: seq<Entry>): map<string, Record> {
    if entries == [] then map[]
    else
      var before, e := PlatformIndex(entries[..|entries| - 1]), entries[|entries| - 1];
      if e.kind == InvoicePaid && e.externalInvoice.Some? && e.externalInvoice.value != "" then
        before[e.externalInvoice.value := Record(e.amount, "paid", e.org)]
      else before
  }

  predicate PaymentFor(e: Entry, id: string) {
    e.kind == InvoicePaid && e.externalInvoice == Some(id)
  }

  ghost predicate HasPayment(entries: seq<Entry>, id: string) {
    exists k :: 0 <= k < |entries| && PaymentFor(entries[k], id)
  }

  /** Entry `k` is the last payment that carries the provider invoice id. */
  ghost predicate LastPayment(entries: seq<Entry>, k: nat, id: string) {
    k < |entries| && PaymentFor(entries[k], id) && forall j :: k < j < |entries| ==> !PaymentFor(entries[j], id)
  }

  /** An index of the payments: an id has a record exactly when it is not empty and some payment carries it, and the
      record is amount, "paid" and organization of the last one that does. */
  ghost predicate IndexesPayments(index: map<string, Record>, entries: seq<Entry>) {
    && (forall id :: id in index <==> id != "" && HasPayment(entries, id))
    && (forall id, k: nat :: id in index && LastPayment(entries, k, id) ==>
          index[id] == Record(entries[k].amount, "paid", entries[k].org))
  }

  lemma {:induction false} LastPaymentExists(entries: seq<Entry>, i: nat, id: string) returns (k: nat)
    requires i < |entries| && PaymentFor(entries[i], id)
    ensures LastPayment(entries, k, id)
    decreases |entries| - i
  {
    if forall j :: i < j < |entries| ==> !PaymentFor(entries[j], id) {
      k := i;
    } else {
      var j :| i < j < |entries| && PaymentFor(entries[j], id);
      k := LastPaymentExists(entries, j, id);
    }
  }

  lemma {:induction false} PlatformIndexIsExact(entries: seq<Entry>)
    ensures IndexesPayments(PlatformIndex(entries), entries)
  {
    if entries == [] {
    } else {
      var n := |entries| - 1;
      var before, e, index := PlatformIndex(entries[..n]), entries[n], PlatformIndex(entries);
      PlatformIndexIsExact(entries[..n]);
      forall id
        ensures id in index <==> id != "" && HasPayment(entries, id)
      {
        IndexNext(entries, id);
      }
      forall id, k: nat | id in index && LastPayment(entries, k, id)
        ensures index[id] == Record(entries[k].amount, "paid", entries[k].org)
      {
        if k < n {
          assert LastPayment(entries[..n], k, id);
        }
      }
    }
  }

  lemma IndexNext(entries: seq<Entry>, id: string)
    requires entries != []
    ensures HasPayment(entries, id) <==>
              PaymentFor(entries[|entries| - 1], id) || HasPayment(entries[..|entries| - 1], id)
  {
    var n := |entries| - 1;
    if k :| 0 <= k < n && PaymentFor(entries[..n][k], id) {
      assert PaymentFor(entries[k], id);
    }
    if k :| 0 <= k < |entries| && PaymentFor(entries[k], id) {
      assert k < n ==> PaymentFor(entries[..n][k], id);
    }
  }

  /** What one provider invoice adds to the report. */
  function RowsFor(p: ProviderInvoice, index: map<string, Record>): seq<Row> {
    if !Readable(p) then []
    else
      var id, amount := p.id.value, ProviderAmount(p);
      if id !in index then [MissingInPlatform(id, amount)]
      else
        var r := index[id];
        (if amount != r.amount then [AmountMismatch(id, amount, r.amount, amount - r.amount)] else [])
        + (if ProviderStatus(p) != r.status then [StatusMismatch(id, amount, r.amount)] else [])
  }

  function ProviderRows(ps: seq<ProviderInvoice>, index: map<string, Record>): seq<Row> {
    if ps == [] then []
    else ProviderRows(ps[..|ps| - 1], index) + RowsFor(ps[|ps| - 1], index)
  }

  ghost predicate SeenAtProvider(ps: seq<ProviderInvoice>, id: string) {
    exists i :: 0 <= i < |ps| && Readable(ps[i]) && ps[i].id.value == id
  }

  /** The rows for platform records the provider does not know, in some order. */
  ghost predicate IsMissingList(rows: seq<Row>, ps: seq<ProviderInvoice>, index: map<string, Record>) {
    && (forall k :: 0 <= k < |rows| ==>
          rows[k].MissingAtProvider? && rows[k].id in index && !SeenAtProvider(ps, rows[k].id)
          && rows[k].expected == index[rows[k].id].amount)
    && (forall id :: id in index && !SeenAtProvider(ps, id) ==> MissingAtProvider(id, index[id].amount) in rows)
    && (forall i, j :: 0 <= i < j < |rows| ==> rows[i] != rows[j])
  }

  ghost predicate IsReport(report: seq<Row>, ps: seq<ProviderInvoice>, index: map<string, Record>) {
    exists missing: seq<Row> :: report == ProviderRows(ps, index) + missing && IsMissingList(missing, ps, index)
  }

  /* ---------- soundness and completeness ---------- */

  predicate Agrees(p: ProviderInvoice, index: map<string, Record>) {
    Readable(p) ==>
      && p.id.value in index
      && index[p.id.value].status == (if p.status.Some? then p.status.value else "unknown")
      && (if p.status == Some("paid") && p.amountPaid.Some? then p.amountPaid == Some(index[p.id.value].amount)
          else if p.amountDue.Some? then p.amountDue == Some(index[p.id.value].amount)
          else index[p.id.value].amount == 0)
  }

  lemma NoRowsIffAgrees(p: ProviderInvoice, index: map<string, Record>)
    ensures RowsFor(p, index) == [] <==> Agrees(p, index)
  {
  }

  lemma {:induction false} NoProviderRowsIffAgree(ps: seq<ProviderInvoice>, index: map<string, Record>)
    ensures ProviderRows(ps, index) == [] <==> forall i :: 0 <= i < |ps| ==> Agrees(ps[i], index)
  {
    if ps == [] {
    } else {
      var n := |ps| - 1;
      NoProviderRowsIffAgree(ps[..n], index);
      NoRowsIffAgrees(ps[n], index);
      assert ProviderRows(ps, index) == [] <==> ProviderRows(ps[..n], index) == [] && RowsFor(ps[n], index) == [];
      assert forall i :: 0 <= i < n ==> ps[..n][i] == ps[i];
    }
  }

  /** The report is empty exactly when every readable provider invoice has a platform record with equal amount and
      status and the provider knows every platform record. */
  lemma EmptyReportIffConsistent(report: seq<Row>, ps: seq<ProviderInvoice>, index: map<string, Record>)
    requires IsReport(report, ps, index)
    ensures report == [] <==>
              && (forall i :: 0 <= i < |ps| ==> Agrees(ps[i], index))
              && (forall id :: id in index ==> SeenAtProvider(ps, id))
  {
    NoProviderRowsIffAgree(ps, index);
    var missing: seq<Row> :| report == ProviderRows(ps, index) + missing && IsMissingList(missing, ps, index);
    assert forall id :: id in index && !SeenAtProvider(ps, id) ==> |missing| > 0;
    if missing != [] {
      assert missing[0].id in index && !SeenAtProvider(ps, missing[0].id);
    }
  }

  predicate Carries(p: ProviderInvoice, id: string, amount: int) {
    Readable(p) && p.id == Some(id) && ProviderAmount(p) == amount
  }

  /** What a row means when it is about this provider invoice: no platform record; a record of another amount, with both
      amounts and their difference; a record of another status. */
  ghost predicate RowFor(row: Row, p: ProviderInvoice, index: map<string, Record>) {
    match row
    case MissingInPlatform(id, expected) => id !in index && Carries(p, id, expected)
    case AmountMismatch(id, expected, actual, delta) =>
      id in index && actual == index[id].amount && expected != actual && delta == expected - actual
      && Carries(p, id, expected)
    case StatusMismatch(id, expected, actual) =>
      id in index && actual == index[id].amount && Carries(p, id, expected) && ProviderStatus(p) != index[id].status
    case MissingAtProvider(_, _) => false
  }

  lemma RowsForAreExact(p: ProviderInvoice, index: map<string, Record>, row: Row)
    ensures row in RowsFor(p, index) <==> RowFor(row, p, index)
  {
  }

  lemma {:induction false} ProviderRowsAreExact(ps: seq<ProviderInvoice>, index: map<string, Record>, row: Row)
    ensures row in ProviderRows(ps, index) <==> exists i :: 0 <= i < |ps| && RowFor(row, ps[i], index)
  {
    if ps == [] {
    } else {
      var n := |ps| - 1;
      ProviderRowsAreExact(ps[..n], index, row);
      RowsForAreExact(ps[n], index, row);
      if i :| 0 <= i < n && RowFor(row, ps[..n][i], index) {
        assert RowFor(row, ps[i], index);
      }
      if i :| 0 <= i < |ps| && RowFor(row, ps[i], index) {
        assert i < n ==> RowFor(row, ps[..n][i], index);
      }
    }
  }

  ghost predicate RowForProvider(row: Row, ps: seq<ProviderInvoice>, index: map<string, Record>) {
    exists i :: 0 <= i < |ps| && RowFor(row, ps[i], index)
  }

  /** The report says exactly what is wrong: a row stands in it exactly when it is right about some provider invoice,
      or it names a platform record, with its amount, that the provider does not know. */
  lemma ReportIsExact(report: seq<Row>, ps: seq<ProviderInvoice>, index: map<string, Record>, row: Row)
    requires IsReport(report, ps, index)
    ensures row in report <==>
              || RowForProvider(row, ps, index)
              || (&& row.MissingAtProvider? && row.id in index && row.expected == index[row.id].amount
                  && !SeenAtProvider(ps, row.id))
  {
    var missing: seq<Row> :| report == ProviderRows(ps, index) + missing && IsMissingList(missing, ps, index);
    ProviderRowsAreExact(ps, index, row);
    assert row in report <==> row in ProviderRows(ps, index) || row in missing;
  }

  function Abs(x: int): nat {
    if x < 0 then -x else x
  }

  /** The statistic a run records: absolute deltas of the rows that have one. */
  function TotalDelta(rows: seq<Row>): nat {
    if rows == [] then 0
    else
      var r := rows[|rows| - 1];
      TotalDelta(rows[..|rows| - 1]) + (if r.AmountMismatch? then Abs(r.delta) else 0)
  }

  lemma {:induction false} TotalDeltaConcat(a: seq<Row>, b: seq<Row>)
    ensures TotalDelta(a + b) == TotalDelta(a) + TotalDelta(b)
  {
    if b == [] {
      assert a + b == a;
    } else {
      assert (a + b)[..|a + b| - 1] == a + b[..|b| - 1];
      TotalDeltaConcat(a, b[..|b| - 1]);
    }
  }

  /** How far the two sides are apart on the invoices both know. */
  function Distance(ps: seq<ProviderInvoice>, index: map<string, Record>): nat {
    if ps == [] then 0
    else
      var p := ps[|ps| - 1];
      Distance(ps[..|ps| - 1], index)
      + (if Readable(p) && p.id.value in index then Abs(ProviderAmount(p) - index[p.id.value].amount) else 0)
  }

  lemma RowsForDelta(p: ProviderInvoice, index: map<string, Record>)
    ensures TotalDelta(RowsFor(p, index))
         == if Readable(p) && p.id.value in index then Abs(ProviderAmount(p) - index[p.id.value].amount) else 0
  {
    if Readable(p) && p.id.value in index {
      var amount, r := ProviderAmount(p), index[p.id.value];
      var a := if amount != r.amount then [AmountMismatch(p.id.value, amount, r.amount, amount - r.amount)] else [];
      var b := if ProviderStatus(p) != r.status then [StatusMismatch(p.id.value, amount, r.amount)] else [];
      TotalDeltaConcat(a, b);
    }
  }

  lemma {:induction false} ProviderRowsDelta(ps: seq<ProviderInvoice>, index: map<string, Record>)
    ensures TotalDelta(ProviderRows(ps, index)) == Distance(ps, index)
  {
    if ps == [] {
    } else {
      var n := |ps| - 1;
      ProviderRowsDelta(ps[..n], index);
      RowsForDelta(ps[n], index);
      TotalDeltaConcat(ProviderRows(ps[..n], index), RowsFor(ps[n], index));
    }
  }

  lemma {:induction false} MissingRowsHaveNoDelta(rows: seq<Row>)
    requires forall k :: 0 <= k < |rows| ==> rows[k].MissingAtProvider?
    ensures TotalDelta(rows) == 0
  {
    if rows == [] {
    } else {
      MissingRowsHaveNoDelta(rows[..|rows| - 1]);
    }
  }

  /** The absolute deltas of a report add up to the distance between provider and platform on matched invoices. */
  lemma DeltasAreTheDistance(report: seq<Row>, ps: seq<ProviderInvoice>, index: map<string, Record>)
    requires IsReport(report, ps, index)
    ensures TotalDelta(report) == Distance(ps, index)
  {
    var missing: seq<Row> :| report == ProviderRows(ps, index) + missing && IsMissingList(missing, ps, index);
    ProviderRowsDelta(ps, index);
    MissingRowsHaveNoDelta(missing);
    TotalDeltaConcat(ProviderRows(ps, index), missing);
  }

  /* ---------- the detection loop ---------- */

  method LoadPlatformIndex(entries: seq<Entry>) returns (index: map<string, Record>)
    ensures index == PlatformIndex(entries) && IndexesPayments(index, entries)
  {
    PlatformIndexIsExact(entries);
    index := map[];
    assert entries[..0] == [];
    for i := 0 to |entries|
      invariant index == PlatformIndex(entries[..i])
    {
      var e := entries[i];
      assert entries[..i + 1][..i] == entries[..i];
      if e.kind == InvoicePaid && e.externalInvoice.Some? && e.externalInvoice.value != "" {
        index := index[e.externalInvoice.value := Record(e.amount, "paid", e.org)];
      }
    }
    assert entries[..|entries|] == entries;
  }

  method DetectDiscrepancies(ps: seq<ProviderInvoice>, index: map<string, Record>) returns (report: seq<Row>)
    ensures IsReport(report, ps, index)
  {
    report := [];
    var seen: set<string> := {};
    assert ps[..0] == [];
    for i := 0 to |ps|
      invariant report == ProviderRows(ps[..i], index)
      invariant forall id :: id in seen <==> SeenAtProvider(ps[..i], id)
    {
      assert ps[..i + 1][..i] == ps[..i];
      var p := ps[i];
      SeenNext(ps, i);
      if Readable(p) {
        var id := p.id.value;
        seen := seen + {id};
        var amount := ProviderAmount(p);
        if id !in index {
          report := report + [MissingInPlatform(id, amount)];
        } else {
          var r := index[id];
          var found: seq<Row> := [];
          if amount != r.amount {
            found := found + [AmountMismatch(id, amount, r.amount, amount - r.amount)];
          }
          if ProviderStatus(p) != r.status {
            found := found + [StatusMismatch(id, amount, r.amount)];
          }
          assert found == RowsFor(p, index);
          report := report + found;
        }
      }
    }
    assert ps[..|ps|] == ps;
    var missing := MissingRecords(seen, index);
    assert IsMissingList(missing, ps, index);
    report := report + missing;
  }

  lemma SeenNext(ps: seq<ProviderInvoice>, i: nat)
    requires i < |ps|
    ensures forall id :: SeenAtProvider(ps[..i + 1], id) <==>
              SeenAtProvider(ps[..i], id) || (Readable(ps[i]) && ps[i].id.value == id)
  {
    var shorter, longer := ps[..i], ps[..i + 1];
    assert longer[i] == ps[i];
    forall id
      ensures SeenAtProvider(longer, id) <==> SeenAtProvider(shorter, id) || (Readable(ps[i]) && ps[i].id.value == id)
    {
      if k :| 0 <= k < |shorter| && Readable(shorter[k]) && shorter[k].id.value == id {
        assert longer[k] == shorter[k];
      }
      if k :| 0 <= k < |longer| && Readable(longer[k]) && longer[k].id.value == id {
        assert k < i ==> shorter[k] == longer[k];
      }
    }
  }

  /** The platform records that were not seen, each once. */
  method MissingRecords(seen: set<string>, index: map<string, Record>) returns (rows: seq<Row>)
    ensures forall k :: 0 <= k < |rows| ==>
              rows[k].MissingAtProvider? && rows[k].id in index && rows[k].id !in seen
              && rows[k].expected == index[rows[k].id].amount
    ensures forall id :: id in index && id !in seen ==> MissingAtProvider(id, index[id].amount) in rows
    ensures forall i, j :: 0 <= i < j < |rows| ==> rows[i] != rows[j]
  {
    rows := [];
    var todo := index.Keys - seen;
    while todo != {}
      invariant todo <= index.Keys - seen
      invariant forall k :: 0 <= k < |rows| ==>
                  rows[k].MissingAtProvider? && rows[k].id in index && rows[k].id !in seen && rows[k].id !in todo
                  && rows[k].expected == index[rows[k].id].amount
      invariant forall id :: id in index && id !in seen && id !in todo ==>
          MissingAtProvider(id, index[id].amount) in rows
      invariant forall i, j :: 0 <= i < j < |rows| ==> rows[i] != rows[j]
      decreases |todo|
    {
      var id :| id in todo;
      rows := rows + [MissingAtProvider(id, index[id].amount)];
      todo := todo - {id};
    }
  }
}
