/** When payment webhooks go through, and what that means for renewals and for the ledger. */
module Payments {
  import opened Wrappers
  import opened Subscriptions
  import opened Ledger
  import opened Webhooks
  import opened Lifecycle
  import opened LifecycleRuns

  /* ---------- one webhook ---------- */

  lemma ProcessedIff(db: Db, w: nat, now: Instant, env: Env)
    requires SubsInv(db, env) && w < |db.webhooks| && !Terminal(db.webhooks[w].status)
    ensures
      var after, payload := Process(db, w, now, env).webhooks[w].status, db.webhooks[w].payload;
      match db.webhooks[w].eventType
      case InvoicePaidEvent => after == if Payable(db, payload) then Processed else Failed
      case PaymentFailedEvent => after == if PaidUp(db, payload) then Processed else Failed
      case OtherEvent(_) => after == Skipped
  {
    var payload := db.webhooks[w].payload;
    assert Target(db, payload, Active).Some? <==> Payable(db, payload);
    assert Target(db, payload, PastDue).Some? <==> PaidUp(db, payload);
  }

  /** After every run, an unfinished payment webhook goes through exactly when it names a subscription that is
      incomplete, trialing or past due, and an unfinished payment failure exactly when it names an active one;
      otherwise each fails. */
  lemma PaymentGoesThroughIffWaiting(steps: seq<Step>, w: nat, now: Instant, env: Env)
    requires
      var db := After(EMPTY, steps, env);
      w < |db.webhooks| && db.webhooks[w].status in {Received, Processing}
    ensures
      var db := After(EMPTY, steps, env);
      var after, payload := Process(db, w, now, env).webhooks[w].status, db.webhooks[w].payload;
      && (db.webhooks[w].eventType == InvoicePaidEvent ==>
            (after == Processed <==> Payable(db, payload)) && (after == Failed <==> !Payable(db, payload)))
      && (db.webhooks[w].eventType == PaymentFailedEvent ==>
            (after == Processed <==> PaidUp(db, payload)) && (after == Failed <==> !PaidUp(db, payload)))
  {
    RunKeepsSubs(EMPTY, steps, env);
    ProcessedIff(After(EMPTY, steps, env), w, now, env);
  }

  /* ---------- renewals ---------- */

  predicate Names(db: Db, payload: map<string, Json>, i: nat) {
    NamedSubscription(payload).Some? && FindByExternalId(db.subs, NamedSubscription(payload).value) == Some(i)
  }

  /** The step processes an event of the given type for subscription `i`, successfully. */
  predicate GoesThrough(db: Db, step: Step, env: Env, eventType: EventType, i: nat) {
    (step.ProcessStep? || step.ReplayStep?)
    && var w := step.webhook;
    && HasType(db, w, eventType) && db.webhooks[w].status != Processed && Names(db, db.webhooks[w].payload, i)
    && HasStatus(Apply(db, step, env), w, eventType, Processed)
  }

  predicate HasType(db: Db, w: nat, eventType: EventType) {
    w < |db.webhooks| && db.webhooks[w].eventType == eventType
  }

  /** How many events of a type go through for a subscription in a run. */
  function Count(db: Db, steps: seq<Step>, env: Env, eventType: EventType, i: nat): nat
    decreases |steps|
  {
    if steps == [] then 0
    else
      (if GoesThrough(db, steps[0], env, eventType, i) then 1 else 0)
      + Count(Apply(db, steps[0], env), steps[1..], env, eventType, i)
  }

  /** The subscription takes no payment now. */
  predicate Settled(db: Db, i: nat) {
    i < |db.subs| && (db.subs[i].status == Active || Over(db.subs[i].status))
  }

  function One(b: bool): nat {
    if b then 1 else 0
  }

  lemma ProcessBalances(db: Db, w: nat, now: Instant, env: Env, i: nat)
    requires SubsInv(db, env)
    ensures
      var step := ProcessStep(w, now);
      One(GoesThrough(db, step, env, InvoicePaidEvent, i)) + One(Settled(db, i))
      <= One(GoesThrough(db, step, env, PaymentFailedEvent, i)) + One(Settled(Apply(db, step, env), i))
  {
    if w < |db.webhooks| && !Terminal(db.webhooks[w].status) {
      ProcessedIff(db, w, now, env);
    }
  }

  lemma OtherStepsStaySettled(db: Db, step: Step, env: Env, i: nat)
    requires SubsInv(db, env) && !step.ProcessStep? && !step.ReplayStep?
    ensures Settled(db, i) ==> Settled(Apply(db, step, env), i)
  {
    match step
    case SweepStep(now, locked) => SweepToSubs(db, |db.subs|, now, locked, env);
    case ChangePlanStep(j, plan, idem) => ChangePlanKeepsSubs(db, j, plan, idem, env);
    case _ =>
  }

  lemma StepBalances(db: Db, step: Step, env: Env, i: nat)
    requires SubsInv(db, env)
    ensures One(GoesThrough(db, step, env, InvoicePaidEvent, i)) + One(Settled(db, i))
         <= One(GoesThrough(db, step, env, PaymentFailedEvent, i)) + One(Settled(Apply(db, step, env), i))
  {
    match step
    case ProcessStep(w, now) => ProcessBalances(db, w, now, env, i);
    case ReplayStep(w, now) => ReplayBalances(db, w, now, env, i);
    case _ => OtherStepsStaySettled(db, step, env, i);
  }

  lemma ReplayBalances(db: Db, w: nat, now: Instant, env: Env, i: nat)
    requires SubsInv(db, env)
    ensures
      var step := ReplayStep(w, now);
      One(GoesThrough(db, step, env, InvoicePaidEvent, i)) + One(Settled(db, i))
      <= One(GoesThrough(db, step, env, PaymentFailedEvent, i)) + One(Settled(Apply(db, step, env), i))
  {
    if w < |db.webhooks| && db.webhooks[w].status != Processed && db.webhooks[w].status != Skipped {
      var reset := db.(webhooks := db.webhooks[w := db.webhooks[w].(status := Received)]);
      ProcessBalances(reset, w, now, env, i);
      assert Apply(db, ReplayStep(w, now), env) == Apply(reset, ProcessStep(w, now), env);
      forall t: EventType
        ensures GoesThrough(db, ReplayStep(w, now), env, t, i) <==> GoesThrough(reset, ProcessStep(w, now), env, t, i)
      {
      }
    }
  }

  /** In every run the payments of a subscription that go through are balanced by its payment failures: at most one more
      payment than failures, and none that is not made up for once the subscription is settled. */
  lemma {:induction false} PaymentsNeedFailures(db: Db, steps: seq<Step>, env: Env, i: nat)
    requires SubsInv(db, env)
    ensures Count(db, steps, env, InvoicePaidEvent, i) + One(Settled(db, i))
         <= Count(db, steps, env, PaymentFailedEvent, i) + One(Settled(After(db, steps, env), i))
    decreases |steps|
  {
    if steps == [] {
    } else {
      StepBalances(db, steps[0], env, i);
      StepKeepsSubs(db, steps[0], env);
      PaymentsNeedFailures(Apply(db, steps[0], env), steps[1..], env, i);
    }
  }

  /** So a renewal is never posted: over a whole run a subscription has at most one more payment than payment failures,
      and from a state in which it is active no payment goes through unless a failure does. */
  lemma RenewalsAreRefused(steps: seq<Step>, more: seq<Step>, env: Env, i: nat)
    ensures Count(EMPTY, steps, env, InvoicePaidEvent, i) <= Count(EMPTY, steps, env, PaymentFailedEvent, i) + 1
    ensures
      var db := After(EMPTY, steps, env);
      i < |db.subs| && db.subs[i].status == Active && Count(db, more, env, PaymentFailedEvent, i) == 0 ==>
        Count(db, more, env, InvoicePaidEvent, i) == 0
  {
    PaymentsNeedFailures(EMPTY, steps, env, i);
    RunKeepsSubs(EMPTY, steps, env);
    PaymentsNeedFailures(After(EMPTY, steps, env), more, env, i);
  }

  /** The payload of an invoice event for a subscription. */
  function InvoiceFor(subscription: string, amount: int): (payload: map<string, Json>)
    ensures NamedSubscription(payload) == if subscription == "" then None else Some(subscription)
    ensures AmountPaid(payload) == amount
  {
    var invoice := map["subscription" := Str(subscription), "amount_paid" := Int(amount)];
    map["data" := Object(map["object" := Object(invoice)])]
  }

  lemma OneMore(db: Db, steps: seq<Step>, step: Step, env: Env)
    ensures After(db, steps + [step], env) == Apply(After(db, steps, env), step, env)
    decreases |steps|
  {
    if steps == [] {
      assert [step][1..] == [] && steps + [step] == [step];
    } else {
      assert (steps + [step])[1..] == steps[1..] + [step];
      OneMore(Apply(db, steps[0], env), steps[1..], step, env);
    }
  }

  /** One incomplete subscription, linked to the provider as "s". */
  lemma LinkedSubscription(org: nat, plan: nat, now: Instant, env: Env) returns (steps: seq<Step>)
    requires org in env.orgs && plan in env.catalog && env.catalog[plan].published && env.catalog[plan].trialDays.None?
    ensures
      var db := After(EMPTY, steps, env);
      && db == EMPTY.(subs := db.subs) && |db.subs| == 1
      && db.subs[0].externalId == Some("s") && db.subs[0].status == Incomplete && db.subs[0].org == org
  {
    steps := [];
    OneMore(EMPTY, steps, CreateStep(org, plan, "k", now), env);
    steps := steps + [CreateStep(org, plan, "k", now)];
    OneMore(EMPTY, steps, LinkStep(0, "s"), env);
    steps := steps + [LinkStep(0, "s")];
  }

  /** Processing a payment of the only subscription. */
  lemma ProcessPayment(db: Db, w: nat, now: Instant, env: Env)
    requires SubsInv(db, env) && |db.subs| == 1 && db.subs[0].externalId == Some("s") && w < |db.webhooks|
    requires !Terminal(db.webhooks[w].status) && db.webhooks[w].eventType == InvoicePaidEvent
    requires NamedSubscription(db.webhooks[w].payload) == Some("s")
    ensures
      var db', paid := Process(db, w, now, env), Payable(db, db.webhooks[w].payload);
      var status := if paid then Processed else Failed;
      && db'.webhooks == db.webhooks[w := db.webhooks[w].(status := status, attempts := db.webhooks[w].attempts + 1)]
      && |db'.subs| == 1 && db'.subs[0].externalId == Some("s")
      && db'.subs[0].status == if paid then Active else db.subs[0].status
  {
    ProcessedIff(db, w, now, env);
    assert FindByExternalId(db.subs, "s") == Some(0);
  }

  /** The provider reports a payment of "s": the webhook is stored and processed. */
  lemma Deliver(steps: seq<Step>, id: string, amount: int, now: Instant, env: Env) returns (more: seq<Step>)
    requires
      var db := After(EMPTY, steps, env);
      |db.subs| == 1 && db.subs[0].externalId == Some("s") && FindByProviderId(db.webhooks, id).None?
    ensures
      var db, db', payload := After(EMPTY, steps, env), After(EMPTY, more, env), InvoiceFor("s", amount);
      var status := if Payable(db, payload) then Processed else Failed;
      && db'.webhooks == db.webhooks + [Webhook(id, InvoicePaidEvent, payload, status, 1)]
      && |db'.subs| == 1 && db'.subs[0].externalId == Some("s")
      && db'.subs[0].status == if Payable(db, payload) then Active else db.subs[0].status
  {
    var db, payload := After(EMPTY, steps, env), InvoiceFor("s", amount);
    RunKeepsSubs(EMPTY, steps, env);
    more := PersistAndProcess(steps, id, payload, now, env);
    ProcessPayment(Persist(db, id, InvoicePaidEvent, payload), |db.webhooks|, now, env);
  }

  lemma PersistAndProcess(steps: seq<Step>, id: string, payload: map<string, Json>, now: Instant, env: Env)
    returns (more: seq<Step>)
    ensures
      var db := After(EMPTY, steps, env);
      After(EMPTY, more, env) == Process(Persist(db, id, InvoicePaidEvent, payload), |db.webhooks|, now, env)
  {
    var persist := PersistStep(id, InvoicePaidEvent, payload);
    var process := ProcessStep(|After(EMPTY, steps, env).webhooks|, now);
    OneMore(EMPTY, steps, persist, env);
    OneMore(EMPTY, steps + [persist], process, env);
    more := steps + [persist] + [process];
  }

  /** A reachable renewal: both invoices of a subscription are paid, the second webhook fails, and its money is
      missing from the ledger. */
  lemma SecondPaymentIsLost(org: nat, plan: nat, now: Instant, first: int, second: int, env: Env)
    returns (steps: seq<Step>)
    requires org in env.orgs && plan in env.catalog && env.catalog[plan].published && env.catalog[plan].trialDays.None?
    ensures
      var db := After(EMPTY, steps, env);
      && db.webhooks == [Webhook("e1", InvoicePaidEvent, InvoiceFor("s", first), Processed, 1),
                         Webhook("e2", InvoicePaidEvent, InvoiceFor("s", second), Failed, 1)]
      && Total(db.ledger, InvoicePaid) == first
  {
    steps := LinkedSubscription(org, plan, now, env);
    steps := Deliver(steps, "e1", first, now, env);
    steps := Deliver(steps, "e2", second, now, env);
    PaymentsAreConserved(steps, env);
    ReportedByTwo(After(EMPTY, steps, env).webhooks);
  }

  lemma ReportedByTwo(webhooks: seq<Webhook>)
    requires |webhooks| == 2
    ensures Reported(webhooks) == Contribution(webhooks[0]) + Contribution(webhooks[1])
  {
    assert webhooks[..1] == [webhooks[0]] && [webhooks[0]][..0] == [];
    assert Reported([]) == 0;
  }

  /* ---------- reversals under a webhook's key ---------- */

  /** A payment that goes through moves the ledger by what its webhook reports exactly when nobody has posted under
      its key before, unless it reports nothing. */
  lemma PaymentIsPostedIffKeyFree(db: Db, w: nat, now: Instant, env: Env)
    requires SubsInv(db, env) && w < |db.webhooks| && !Terminal(db.webhooks[w].status)
    requires db.webhooks[w].eventType == InvoicePaidEvent && Payable(db, db.webhooks[w].payload)
    ensures
      var db' := Process(db, w, now, env);
      Total(db'.ledger, InvoicePaid) - Total(db.ledger, InvoicePaid) == Reported(db'.webhooks) - Reported(db.webhooks)
      <==> WebhookKey(w, InvoicePaidPosting) !in KeysOf(db.ledger) || AmountPaid(db.webhooks[w].payload) == 0
  {
    var db' := Process(db, w, now, env);
    ProcessedIff(db, w, now, env);
    ReportedUpdate(db.webhooks, w, db'.webhooks[w]);
    var i := Target(db, db.webhooks[w].payload, Active).value;
    var e := Entry(db.subs[i].org, None, InvoicePaid, AmountPaid(db.webhooks[w].payload), None,
                   Some(InvoiceId(db.webhooks[w].payload)), WebhookKey(w, InvoicePaidPosting));
    TotalAppend(db.ledger, e, InvoicePaid);
  }

  /** A reversal that a caller files under the key of a waiting payment makes that payment vanish: in every reachable
      state with an entry to reverse and an unposted payment webhook for a subscription that waits for it. */
  lemma ReversalCanSwallowAPayment(steps: seq<Step>, entry: nat, w: nat, now: Instant, env: Env)
    requires
      var db := After(EMPTY, steps, env);
      && entry < |db.ledger| && w < |db.webhooks| && !Terminal(db.webhooks[w].status)
      && db.webhooks[w].eventType == InvoicePaidEvent && Payable(db, db.webhooks[w].payload)
    ensures
      var db := After(EMPTY, steps, env);
      var after := Process(Reverse(db, entry, WebhookKey(w, InvoicePaidPosting)), w, now, env);
      && after.webhooks[w].status == Processed
      && Total(after.ledger, InvoicePaid) == Reported(after.webhooks) - AmountPaid(db.webhooks[w].payload)
  {
    var db, key := After(EMPTY, steps, env), WebhookKey(w, InvoicePaidPosting);
    EmptyIsInv(env);
    RunKeepsInv(EMPTY, steps, env);
    assert WebhookKeys(db, w);
    var reversed := Reverse(db, entry, key);
    PostFresh(db, ReversalOf(db.ledger, entry, key));
    ProcessedIff(reversed, w, now, env);
    var after := Process(reversed, w, now, env);
    ReportedUpdate(db.webhooks, w, after.webhooks[w]);
  }

  /** A revocation leaves its marker in the ledger, as the one new entry, exactly when nobody has posted under the
      marker's key before; otherwise the ledger stays as it was. */
  lemma MarkerIsPostedIffKeyFree(db: Db, i: nat, now: Instant)
    requires i < |db.subs|
    ensures
      var db', key := Revoke(db, i, now), GraceKey(i, RevokedMarker);
      && (|db'.ledger| == |db.ledger| + 1 && db'.ledger[|db.ledger|].kind == RevokedAccess <==>
          key !in KeysOf(db.ledger))
      && (db'.ledger == db.ledger <==> key in KeysOf(db.ledger))
      && Over(db'.subs[i].status)
  {
  }

  /** The money a plan change moves: one cent up or down, or nothing between plans of the same price. */
  function Prorated(entries: seq<Entry>): int {
    Total(entries, ProrationDebit) + Total(entries, ProrationCredit)
  }

  function Sign(x: int): int {
    if x > 0 then 1 else if x < 0 then -1 else 0
  }

  /** A plan change moves the prorations by the sign of the price difference exactly when the prices are equal or
      nobody has posted under the key of the entry before; otherwise it moves nothing, and the plan changes all the
      same. */
  lemma ProrationIsPostedIffKeyFree(db: Db, i: nat, plan: nat, idem: string, env: Env)
    requires CanChangePlan(db, i, plan, idem, env)
    ensures
      var db', rise := ChangePlan(db, i, plan, idem, env), FlatPrice(plan, env) - FlatPrice(db.subs[i].plan, env);
      var key := PlanChangeKey(idem, if rise > 0 then Debit else Credit);
      && db'.subs[i].plan == plan
      && (Prorated(db'.ledger) - Prorated(db.ledger) == Sign(rise) <==> rise == 0 || key !in KeysOf(db.ledger))
      && (Prorated(db'.ledger) == Prorated(db.ledger) <==> rise == 0 || key in KeysOf(db.ledger))
  {
    var org := db.subs[i].org;
    var debit := Entry(org, None, ProrationDebit, 1, None, None, PlanChangeKey(idem, Debit));
    var credit := Entry(org, None, ProrationCredit, -1, None, None, PlanChangeKey(idem, Credit));
    TotalAppend(db.ledger, debit, ProrationDebit);
    TotalAppend(db.ledger, debit, ProrationCredit);
    TotalAppend(db.ledger, credit, ProrationDebit);
    TotalAppend(db.ledger, credit, ProrationCredit);
  }

  /** Likewise a reversal under the key of a revocation marker: the subscription is revoked, but the ledger never says
      so. */
  lemma ReversalCanSwallowAMarker(steps: seq<Step>, entry: nat, i: nat, now: Instant, env: Env)
    requires
      var db := After(EMPTY, steps, env);
      entry < |db.ledger| && i < |db.subs| && db.subs[i].status == PastDue
    ensures
      var db, key := After(EMPTY, steps, env), GraceKey(i, RevokedMarker);
      var reversed := Reverse(db, entry, key);
      && |reversed.ledger| == |db.ledger| + 1
      && Over(Revoke(reversed, i, now).subs[i].status) && Revoke(reversed, i, now).ledger == reversed.ledger
      && (forall k :: 0 <= k < |reversed.ledger| && reversed.ledger[k].key == key ==>
          reversed.ledger[k].kind == Reversal)
  {
    var db, key := After(EMPTY, steps, env), GraceKey(i, RevokedMarker);
    EmptyIsInv(env);
    RunKeepsInv(EMPTY, steps, env);
    assert SubKeys(db, i);
    PostFresh(db, ReversalOf(db.ledger, entry, key));
  }
}
