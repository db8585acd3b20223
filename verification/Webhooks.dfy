/** Webhook rows and the reading of their payloads. */
module Webhooks {
  import opened Text
  import opened Wrappers

  datatype Json =
    | Null
    | Bool(b: bool)
    | Int(n: int)
    | Float
    | Str(s: string)
    | Array
    | Object(fields: map<string, Json>)

  datatype EventType = InvoicePaidEvent | PaymentFailedEvent | OtherEvent(name: string)

  datatype WebhookStatus = Received | Processing | Processed | Failed | Skipped

  datatype Webhook = Webhook(
    providerEventId: string,
    eventType: EventType,
    payload: map<string, Json>,
    status: WebhookStatus,
    attempts: nat)

  predicate Terminal(status: WebhookStatus) {
    status == Processed || status == Failed || status == Skipped
  }

  function DataObject(payload: map<string, Json>): Option<map<string, Json>> {
    if "data" in payload && payload["data"].Object? then
      var data := payload["data"].fields;
      if "object" in data && data["object"].Object? then Some(data["object"].fields) else None
    else None
  }

  /** The external subscription id a payment event names; absent, empty and non-string ids are poison. */
  function NamedSubscription(payload: map<string, Json>): Option<string> {
    var invoice := DataObject(payload);
    if invoice.Some? && "subscription" in invoice.value && invoice.value["subscription"].Str?
       && invoice.value["subscription"].s != "" then
      Some(invoice.value["subscription"].s)
    else None
  }

  /** The paid amount in cents; anything that is not an integer counts as zero, and booleans are integers. */
  function AmountPaid(payload: map<string, Json>): int {
    var invoice := DataObject(payload);
    if invoice.Some? && "amount_paid" in invoice.value then
      match invoice.value["amount_paid"]
      case Int(n) => n
      case Bool(b) => if b then 1 else 0
      case _ => 0
    else 0
  }

  /** The provider's invoice id as the ledger metadata records it, rendered as text. */
  function InvoiceId(payload: map<string, Json>): string {
    var invoice := DataObject(payload);
    if invoice.None? || "id" !in invoice.value then ""
    else
      match invoice.value["id"]
      case Str(s) => s
      case Int(n) => if n < 0 then "-" + Decimal(-n) else Decimal(n)
      case Bool(b) => if b then "True" else "False"
      case Null => "None"
      case _ => "(unrendered)"
  }

  /** The payload of an invoice event with the given invoice fields. */
  function InvoicePayload(fields: map<string, Json>): map<string, Json> {
    map["data" := Object(map["object" := Object(fields)])]
  }

  /** What is read from an invoice event, field by field: the subscription only from a string that is not empty; the
      amount from an integer or a truth value, else zero; the invoice id rendered as text. */
  lemma ReadsInvoiceFields(fields: map<string, Json>)
    ensures
      var payload := InvoicePayload(fields);
      && (NamedSubscription(payload).Some? <==>
            "subscription" in fields && fields["subscription"].Str? && fields["subscription"] != Str(""))
      && (NamedSubscription(payload).Some? ==> fields["subscription"] == Str(NamedSubscription(payload).value))
      && ("amount_paid" in fields && fields["amount_paid"].Int? ==> fields["amount_paid"] == Int(AmountPaid(payload)))
      && ("amount_paid" in fields && fields["amount_paid"] == Bool(true) ==> AmountPaid(payload) == 1)
      && ("amount_paid" !in fields || !(fields["amount_paid"].Int? || fields["amount_paid"].Bool?) ==>
            AmountPaid(payload) == 0)
      && ("id" in fields && fields["id"].Str? ==> fields["id"] == Str(InvoiceId(payload)))
      && ("id" in fields && fields["id"].Int? ==>
            InvoiceId(payload) == if fields["id"].n < 0 then "-"
                + Decimal(-fields["id"].n) else Decimal(fields["id"].n))
      && ("id" in fields && fields["id"] == Null ==> InvoiceId(payload) == "None")
      && ("id" !in fields ==> InvoiceId(payload) == "")
  {
  }

  /** Without an invoice object nothing is read: no subscription, no amount, no id. */
  lemma ReadsNothingElse(payload: map<string, Json>)
    requires !("data" in payload && payload["data"].Object? && "object" in payload["data"].fields
               && payload["data"].fields["object"].Object?)
    ensures NamedSubscription(payload).None? && AmountPaid(payload) == 0 && InvoiceId(payload) == ""
  {
  }

  predicate PaidAndProcessed(w: Webhook) {
    w.eventType == InvoicePaidEvent && w.status == Processed
  }

  function Contribution(w: Webhook): int {
    if PaidAndProcessed(w) then AmountPaid(w.payload) else 0
  }

  /** The money the processed payment webhooks report. */
  function Reported(webhooks: seq<Webhook>): int {
    if webhooks == [] then 0
    else Reported(webhooks[..|webhooks| - 1]) + Contribution(webhooks[|webhooks| - 1])
  }

  lemma {:induction false} ReportedUpdate(webhooks: seq<Webhook>, i: nat, w: Webhook)
    requires i < |webhooks|
    ensures Reported(webhooks[i := w]) == Reported(webhooks) - Contribution(webhooks[i]) + Contribution(w)
  {
    var n := |webhooks| - 1;
    if i == n {
      assert webhooks[i := w][..n] == webhooks[..n];
    } else {
      assert webhooks[i := w][..n] == webhooks[..n][i := w];
      ReportedUpdate(webhooks[..n], i, w);
    }
  }

  function FindByProviderId(webhooks: seq<Webhook>, id: string): (r: Option<nat>)
    ensures r.Some? ==> r.value < |webhooks| && webhooks[r.value].providerEventId == id
    ensures r.None? ==> forall i :: 0 <= i < |webhooks| ==> webhooks[i].providerEventId != id
  {
    if webhooks == [] then None
    else if webhooks[|webhooks| - 1].providerEventId == id then Some(|webhooks| - 1)
    else FindByProviderId(webhooks[..|webhooks| - 1], id)
  }
}
