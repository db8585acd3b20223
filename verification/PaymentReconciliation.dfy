/** Reconciliation of the provider's invoices with the payments that webhooks have brought in. */
module PaymentReconciliation {
  import opened Wrappers
  import opened Ledger
  import opened Webhooks
  import opened Lifecycle
  import opened LifecycleRuns
  import opened Reconciliation

  /** Webhook `w` is a processed payment of the provider's invoice. */
  ghost predicate Brings(db: Db, w: nat, id: string) {
    w < |db.webhooks| && PaidAndProcessed(db.webhooks[w]) && InvoiceId(db.webhooks[w].payload) == id
  }

  /** Of the webhooks that bring payments of the invoice, `w` is the one processed last. */
  ghost predicate BringsLast(db: Db, w: nat, id: string) {
    && Brings(db, w, id)
    && exists k: nat :: LastPayment(db.ledger, k, id) && db.ledger[k].key == WebhookKey(w, InvoicePaidPosting)
  }

  lemma PaymentsComeFromWebhooks(steps: seq<Step>, env: Env, k: nat, id: string) returns (w: nat)
    requires
      var db := After(EMPTY, steps, env);
      k < |db.ledger| && PaymentFor(db.ledger[k], id)
    ensures
      var db := After(EMPTY, steps, env);
      && Brings(db, w, id) && db.ledger[k].key == WebhookKey(w, InvoicePaidPosting)
      && db.ledger[k].amount == AmountPaid(db.webhooks[w].payload)
  {
    var db := After(EMPTY, steps, env);
    EmptyIsInv(env);
    RunKeepsInv(EMPTY, steps, env);
    assert EntryInv(db.ledger[k], db.webhooks);
    w := db.ledger[k].key.webhook;
  }

  lemma WebhooksMakePayments(steps: seq<Step>, env: Env, w: nat, id: string)
    requires Brings(After(EMPTY, steps, env), w, id)
    ensures HasPayment(After(EMPTY, steps, env).ledger, id)
  {
    var db := After(EMPTY, steps, env);
    EmptyIsInv(env);
    RunKeepsInv(EMPTY, steps, env);
    OneSetOfRowsPerWebhook(steps, w, env);
    var k :| 0 <= k < |db.ledger| && db.ledger[k].key == WebhookKey(w, InvoicePaidPosting);
    assert EntryInv(db.ledger[k], db.webhooks);
    assert PaymentFor(db.ledger[k], id);
  }

  /** After every run the platform's index holds exactly the invoice ids of the processed payment webhooks, except empty
      ones, each with what the webhook processed last reports. */
  lemma IndexHoldsTheWebhooks(steps: seq<Step>, env: Env, id: string)
    ensures
      var db := After(EMPTY, steps, env);
      var index := PlatformIndex(db.ledger);
      && (id in index <==> id != "" && exists w: nat :: Brings(db, w, id))
      && (id in index ==> exists w: nat :: BringsLast(db, w, id))
      && (forall w: nat :: id in index && BringsLast(db, w, id) ==>
            index[id].status == "paid" && index[id].amount == AmountPaid(db.webhooks[w].payload))
  {
    var db := After(EMPTY, steps, env);
    var index := PlatformIndex(db.ledger);
    PlatformIndexIsExact(db.ledger);
    if id != "" && HasPayment(db.ledger, id) {
      var i :| 0 <= i < |db.ledger| && PaymentFor(db.ledger[i], id);
      var k := LastPaymentExists(db.ledger, i, id);
      var w := PaymentsComeFromWebhooks(steps, env, k, id);
      assert BringsLast(db, w, id);
    }
    if w: nat :| Brings(db, w, id) {
      WebhooksMakePayments(steps, env, w, id);
    }
    forall w: nat | id in index && BringsLast(db, w, id)
      ensures index[id].status == "paid" && index[id].amount == AmountPaid(db.webhooks[w].payload)
    {
      var k: nat :| LastPayment(db.ledger, k, id) && db.ledger[k].key == WebhookKey(w, InvoicePaidPosting);
      var x := PaymentsComeFromWebhooks(steps, env, k, id);
    }
  }

  /** The provider invoice agrees with the webhooks: it is paid, and the webhook that brought its payment last reports
      the amount that was paid, or if that is unreadable the amount due. */
  ghost predicate AgreesWithWebhooks(db: Db, p: ProviderInvoice) {
    Readable(p) ==>
      && p.status == Some("paid")
      && exists w: nat :: BringsLast(db, w, p.id.value) && ProviderAmount(p) == AmountPaid(db.webhooks[w].payload)
  }

  /** After every run, reconciliation reports nothing exactly when every readable provider invoice agrees with the
      webhooks and every invoice that a processed payment webhook names is known to the provider. */
  lemma NothingReportedIffWebhooksAgree(steps: seq<Step>, env: Env, ps: seq<ProviderInvoice>, report: seq<Row>)
    requires IsReport(report, ps, PlatformIndex(After(EMPTY, steps, env).ledger))
    ensures
      var db := After(EMPTY, steps, env);
      report == [] <==>
        && (forall i :: 0 <= i < |ps| ==> AgreesWithWebhooks(db, ps[i]))
        && (forall w: nat, id :: Brings(db, w, id) && id != "" ==> SeenAtProvider(ps, id))
  {
    var db := After(EMPTY, steps, env);
    var index := PlatformIndex(db.ledger);
    EmptyReportIffConsistent(report, ps, index);
    forall i | 0 <= i < |ps|
      ensures Agrees(ps[i], index) <==> AgreesWithWebhooks(db, ps[i])
    {
      AgreementIsTheSame(steps, env, ps[i]);
    }
    forall id
      ensures id in index <==> id != "" && exists w: nat :: Brings(db, w, id)
    {
      IndexHoldsTheWebhooks(steps, env, id);
    }
  }

  lemma AgreementIsTheSame(steps: seq<Step>, env: Env, p: ProviderInvoice)
    ensures
      var db := After(EMPTY, steps, env);
      Agrees(p, PlatformIndex(db.ledger)) <==> AgreesWithWebhooks(db, p)
  {
    var db := After(EMPTY, steps, env);
    if Readable(p) {
      var id := p.id.value;
      IndexHoldsTheWebhooks(steps, env, id);
      if w: nat :| BringsLast(db, w, id) {
        assert Brings(db, w, id);
      }
    }
  }
}
