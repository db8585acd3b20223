/** The lifecycle tables updated in place, one method per service call, each tied to its function in `Lifecycle`. */
module BillingStore {
  import opened Wrappers
  import opened Subscriptions
  import opened Ledger
  import opened Webhooks
  import opened Lifecycle
  import opened LifecycleRuns
  import opened Payments
  import Dunning

  datatype CancelOutcome = CancelScheduled | CanceledNow | NoSuchSubscription | IllegalTransition

  /** How many of the first `n` subscriptions the sweep revokes. */
  function ExpiredCount(subs: seq<Sub>, n: nat, now: Instant, locked: set<nat>, env: Env): nat
    requires n <= |subs|
  {
    if n == 0 then 0
    else ExpiredCount(subs, n - 1, now, locked, env) + (if Expired(subs[n - 1], n - 1, now, locked, env) then 1 else 0)
  }

  /** One payment of the named subscription, under fresh keys: it becomes active without a clock, and exactly one
      ledger row of the paid amount, its announcement and one activation event appear. */
  ghost predicate AddsPayment(db: Db, db': Db, w: nat, payload: map<string, Json>) {
    && (exists i: nat ::
          OnlySub(db, db', i, payload) && db'.subs[i].status == Active && db'.subs[i].pastDueEnteredAt.None?)
    && |db'.ledger| == |db.ledger| + 1 && db'.ledger[..|db.ledger|] == db.ledger
    && db'.ledger[|db.ledger|].kind == InvoicePaid && db'.ledger[|db.ledger|].amount == AmountPaid(payload)
    && db'.outbox == db.outbox + [WebhookKey(w, Activated), EntryPosted(WebhookKey(w, InvoicePaidPosting))]
    && Total(db'.ledger, InvoicePaid) == Total(db.ledger, InvoicePaid) + AmountPaid(payload)
    && db'.webhooks == db.webhooks && db'.dunning == db.dunning
  }

  /** One failed payment: the named subscription is past due since now, two events appear, no money moves, and if
      dunning is on a campaign runs for the subscription unless this webhook has already started one. */
  ghost predicate AddsFailure(db: Db, db': Db, w: nat, payload: map<string, Json>, now: Instant, env: Env) {
    && (exists i: nat ::
          && OnlySub(db, db', i, payload) && db'.subs[i].status == PastDue && db'.subs[i].pastDueEnteredAt == Some(now)
          && (env.dunningEnabled ==>
                || (&& Dunning.FindRunning(db.dunning.campaigns, i).Some?
                    && db'.dunning == db.dunning)
                || (&& Dunning.FindByKey(db.dunning.campaigns, WebhookKey(w, CampaignStart)).Some?
                    && db'.dunning == db.dunning)
                || (&& |db'.dunning.campaigns| == |db.dunning.campaigns| + 1
                    && var c := db'.dunning.campaigns[|db.dunning.campaigns|];
                       && c.subscription == i && c.org == db.subs[i].org && c.startedAt == now
                       && c.status == Dunning.Running)))
    && db'.outbox == db.outbox + [WebhookKey(w, PaymentFailed), WebhookKey(w, PastDueNotice)]
    && db'.ledger == db.ledger && db'.webhooks == db.webhooks
    && (!env.dunningEnabled ==> db'.dunning == db.dunning)
  }

  /** The payload names subscription `i`, and only its status and clock differ. */
  ghost predicate OnlySub(db: Db, db': Db, i: nat, payload: map<string, Json>) {
    && Names(db, payload, i) && |db'.subs| == |db.subs|
    && (forall x :: 0 <= x < |db.subs| && x != i ==> db'.subs[x] == db.subs[x])
    && i < |db.subs|
    && db'.subs[i] == db.subs[i].(status := db'.subs[i].status, pastDueEnteredAt := db'.subs[i].pastDueEnteredAt)
  }

  ghost predicate AddsRevocation(db: Db, db': Db, i: nat) {
    && |db'.ledger| == |db.ledger| + 1 && db'.ledger[..|db.ledger|] == db.ledger
    && db'.ledger[|db.ledger|].kind == RevokedAccess && db'.ledger[|db.ledger|].amount == 0
    && db'.outbox == db.outbox + [EntryPosted(GraceKey(i, RevokedMarker)), GraceKey(i, AccessRevoked)]
    && Total(db'.ledger, InvoicePaid) == Total(db.ledger, InvoicePaid)
  }

  /** A payment of a subscription that waits for one, or a payment failure of one that is paid up. */
  predicate CanProcess(db: Db, webhook: Webhook) {
    || (webhook.eventType == InvoicePaidEvent && Payable(db, webhook.payload))
    || (webhook.eventType == PaymentFailedEvent && PaidUp(db, webhook.payload))
  }

  /** With the foreign keys in place a payment goes through exactly when the payload names a subscription that waits
      for one, and otherwise nothing changes; with the keys in order, one that goes through adds exactly its rows. */
  ghost predicate PaymentHandled(db: Db, h: Handled, w: nat, payload: map<string, Json>, env: Env) {
    && (SubsInv(db, env) ==>
          h.status == (if Payable(db, payload) then Processed else Failed) && (h.status == Failed ==> h.db == db))
    && (KeysInv(db) && !HasStatus(db, w, InvoicePaidEvent, Processed) && h.status == Processed ==>
          AddsPayment(db, h.db, w, payload))
  }

  /** The same for a failed payment, which goes through exactly when the subscription is paid up. */
  ghost predicate FailureHandled(db: Db, h: Handled, w: nat, payload: map<string, Json>, now: Instant, env: Env) {
    && (SubsInv(db, env) ==>
          h.status == (if PaidUp(db, payload) then Processed else Failed) && (h.status == Failed ==> h.db == db))
    && (KeysInv(db) && !HasStatus(db, w, PaymentFailedEvent, Processed) && h.status == Processed ==>
          AddsFailure(db, h.db, w, payload, now, env))
  }

  /** What processing promises: the invariants of every run are kept; a finished webhook is left alone; another one,
      with the foreign keys in place, ends processed, failed or skipped exactly by its event and the status of the
      subscription it names, after one more attempt, and unless it was processed nothing but its own row has changed. */
  ghost predicate WebhookHandled(db: Db, db': Db, w: nat, env: Env) {
    && (LifecycleRuns.Inv(db, env) ==> LifecycleRuns.Inv(db', env))
    && (w >= |db.webhooks| || db.webhooks[w].status in {Processed, Failed, Skipped} ==> db' == db)
    && (w < |db.webhooks| && db.webhooks[w].status in {Received, Processing} && SubsInv(db, env) ==>
          && |db'.webhooks| == |db.webhooks|
          && (db'.webhooks[w].status == Processed <==> CanProcess(db, db.webhooks[w]))
          && (db'.webhooks[w].status == Skipped <==> db.webhooks[w].eventType.OtherEvent?)
          && db'.webhooks[w].status in {Processed, Failed, Skipped}
          && db'.webhooks[w].attempts == db.webhooks[w].attempts + 1
          && (db'.webhooks[w].status != Processed ==> db' == db.(webhooks := db.webhooks[w := db'.webhooks[w]])))
  }

  lemma ProcessIsHandled(db: Db, w: nat, now: Instant, env: Env)
    ensures WebhookHandled(db, Process(db, w, now, env), w, env)
  {
    if LifecycleRuns.Inv(db, env) {
      LifecycleRuns.StepKeepsInv(db, ProcessStep(w, now), env);
    }
    if SubsInv(db, env) && w < |db.webhooks| && !Terminal(db.webhooks[w].status) {
      ProcessedIff(db, w, now, env);
      UnfinishedChangesNothing(db, w, now, env);
    }
  }

  /** A replay is one more try, whose outcome depends only on the event and the subscription it names. */
  ghost predicate RetriedOnce(db: Db, db': Db, w: nat, env: Env) {
    SubsInv(db, env) && w < |db.webhooks| ==>
      && |db'.webhooks| == |db.webhooks|
      && (db'.webhooks[w].status == Processed <==> CanProcess(db, db.webhooks[w]))
      && db'.webhooks[w].attempts == db.webhooks[w].attempts + 1
  }

  lemma RetryIsOneTry(db: Db, w: nat, now: Instant, env: Env)
    requires w < |db.webhooks| && db.webhooks[w].status != Processed && db.webhooks[w].status != Skipped
    ensures RetriedOnce(db, Replay(db, w, now, env), w, env)
  {
    var reset := db.(webhooks := db.webhooks[w := db.webhooks[w].(status := Received)]);
    ProcessIsHandled(reset, w, now, env);
    assert CanProcess(reset, reset.webhooks[w]) <==> CanProcess(db, db.webhooks[w]);
  }

  lemma PaidIsHandled(db: Db, w: nat, payload: map<string, Json>, now: Instant, env: Env)
    ensures PaymentHandled(db, HandlePaid(db, w, payload, now, env), w, payload, env)
  {
    if SubsInv(db, env) {
      PaidIff(db, w, payload, now, env);
    }
    if KeysInv(db) && !HasStatus(db, w, InvoicePaidEvent, Processed) {
      PaidRows(db, w, payload, now, env);
    }
  }

  lemma FailedIsHandled(db: Db, w: nat, payload: map<string, Json>, now: Instant, env: Env)
    ensures FailureHandled(db, HandlePaymentFailed(db, w, payload, now, env), w, payload, now, env)
  {
    if SubsInv(db, env) {
      FailedIff(db, w, payload, now, env);
    }
    if KeysInv(db) && !HasStatus(db, w, PaymentFailedEvent, Processed) {
      FailedRows(db, w, payload, now, env);
    }
  }

  lemma PaidIff(db: Db, w: nat, payload: map<string, Json>, now: Instant, env: Env)
    requires SubsInv(db, env)
    ensures
      var h := HandlePaid(db, w, payload, now, env);
      && h.status == (if Payable(db, payload) then Processed else Failed)
      && (h.status == Failed ==> h.db == db)
  {
    assert Target(db, payload, Active).Some? <==> Payable(db, payload);
  }

  lemma PaidRows(db: Db, w: nat, payload: map<string, Json>, now: Instant, env: Env)
    requires KeysInv(db) && !HasStatus(db, w, InvoicePaidEvent, Processed)
    ensures
      var h := HandlePaid(db, w, payload, now, env);
      h.status == Processed ==> AddsPayment(db, h.db, w, payload)
  {
    var h := HandlePaid(db, w, payload, now, env);
    if h.status == Processed {
      assert WebhookKeys(db, w);
      var e := h.db.ledger[|db.ledger|];
      assert h.db.ledger == db.ledger + [e];
      TotalAppend(db.ledger, e, InvoicePaid);
      assert OnlySub(db, h.db, Target(db, payload, Active).value, payload);
    }
  }

  lemma FailedIff(db: Db, w: nat, payload: map<string, Json>, now: Instant, env: Env)
    requires SubsInv(db, env)
    ensures
      var h := HandlePaymentFailed(db, w, payload, now, env);
      && h.status == (if PaidUp(db, payload) then Processed else Failed)
      && (h.status == Failed ==> h.db == db)
  {
    assert Target(db, payload, PastDue).Some? <==> PaidUp(db, payload);
  }

  lemma FailedRows(db: Db, w: nat, payload: map<string, Json>, now: Instant, env: Env)
    requires KeysInv(db) && !HasStatus(db, w, PaymentFailedEvent, Processed)
    ensures
      var h := HandlePaymentFailed(db, w, payload, now, env);
      h.status == Processed ==> AddsFailure(db, h.db, w, payload, now, env)
  {
    var h := HandlePaymentFailed(db, w, payload, now, env);
    if h.status == Processed {
      assert WebhookKeys(db, w);
      assert OnlySub(db, h.db, Target(db, payload, PastDue).value, payload);
    }
  }

  /** A revocation of an expired subscription takes nothing away that the grace rules still gave. */
  ghost predicate AccessNeutral(before: Sub, after: Sub, i: nat, now: Instant) {
    && after.plan == before.plan
    && forall locked, env, later: Instant, enforcement :: Expired(before, i, now, locked, env) && later >= now ==>
         (HasAccess(after, later, enforcement, env) <==> HasAccess(before, later, enforcement, env))
  }

  /** The rows that differ. */
  ghost function Changed(before: seq<Sub>, after: seq<Sub>): set<nat> {
    set i: nat | i < |before| && i < |after| && after[i] != before[i]
  }

  ghost function ExpiredRows(subs: seq<Sub>, n: nat, now: Instant, locked: set<nat>, env: Env): set<nat>
    requires n <= |subs|
  {
    set i: nat | i < n && Expired(subs[i], i, now, locked, env)
  }

  lemma {:induction false} CountIsCardinality(subs: seq<Sub>, n: nat, now: Instant, locked: set<nat>, env: Env)
    requires n <= |subs|
    ensures ExpiredCount(subs, n, now, locked, env) == |ExpiredRows(subs, n, now, locked, env)|
  {
    if n == 0 {
    } else {
      CountIsCardinality(subs, n - 1, now, locked, env);
      if Expired(subs[n - 1], n - 1, now, locked, env) {
        assert ExpiredRows(subs, n, now, locked, env) == ExpiredRows(subs, n - 1, now, locked, env) + {n - 1};
      } else {
        assert ExpiredRows(subs, n, now, locked, env) == ExpiredRows(subs, n - 1, now, locked, env);
      }
    }
  }

  lemma CountIsChanged(db: Db, now: Instant, locked: set<nat>, env: Env)
    ensures ExpiredCount(db.subs, |db.subs|, now, locked, env) == |Changed(db.subs, Sweep(db, now, locked, env).subs)|
  {
    SweepToSubs(db, |db.subs|, now, locked, env);
    CountIsCardinality(db.subs, |db.subs|, now, locked, env);
    assert Changed(db.subs, Sweep(db, now, locked, env).subs) == ExpiredRows(db.subs, |db.subs|, now, locked, env);
  }

  /** Exactly the unlocked rows change whose grace has ended. */
  ghost predicate RevokesTheExpired(before: seq<Sub>, after: seq<Sub>, now: Instant, locked: set<nat>, env: Env) {
    && |after| == |before|
    && forall i :: 0 <= i < |before| ==>
         (after[i] != before[i] <==>
            i !in locked && exists deadline :: GraceEnds(before[i], env, deadline) && now >= deadline)
  }

  lemma SweepChangesExactly(db: Db, now: Instant, locked: set<nat>, env: Env)
    ensures RevokesTheExpired(db.subs, Sweep(db, now, locked, env).subs, now, locked, env)
  {
    forall i | 0 <= i < |db.subs|
      ensures Sweep(db, now, locked, env).subs[i] != db.subs[i] <==>
                i !in locked && exists deadline :: GraceEnds(db.subs[i], env, deadline) && now >= deadline
    {
      if db.subs[i].plan in env.catalog {
        SweepIsExactAndAccessNeutral(db, now, locked, env, i, now, Hard);
      } else {
        SweepToSubs(db, |db.subs|, now, locked, env);
      }
    }
  }

  /** The subscription is over, unpaid or canceled as it had asked, without a clock; no other changes; no answer about
      access changes if its grace was over; and with the keys in order exactly the marker, its announcement and the
      event appear. */
  ghost predicate RevocationDone(db: Db, db': Db, i: nat, now: Instant)
    requires i < |db.subs|
  {
    && |db'.subs| == |db.subs| && (forall x :: 0 <= x < |db.subs| && x != i ==> db'.subs[x] == db.subs[x])
    && db'.subs[i].status == (if db.subs[i].cancelAtPeriodEnd then Canceled else Unpaid)
    && db'.subs[i].canceledAt == (if db.subs[i].cancelAtPeriodEnd then Some(now) else db.subs[i].canceledAt)
    && !db'.subs[i].cancelAtPeriodEnd && db'.subs[i].pastDueEnteredAt.None?
    && AccessNeutral(db.subs[i], db'.subs[i], i, now)
    && (KeysInv(db) && !Over(db.subs[i].status) ==> AddsRevocation(db, db', i))
  }

  lemma RevokeIsDone(db: Db, i: nat, now: Instant)
    requires i < |db.subs|
    ensures RevocationDone(db, Revoke(db, i, now), i, now)
  {
    if KeysInv(db) && !Over(db.subs[i].status) {
      RevokedRows(db, i, now);
    }
    RevokedIsNeutral(db.subs[i], i, now);
  }

  lemma RevokedIsNeutral(sub: Sub, i: nat, now: Instant)
    ensures AccessNeutral(sub, Revoked(sub, now), i, now)
  {
    var after := Revoked(sub, now);
    forall locked, env, later: Instant, enforcement | Expired(sub, i, now, locked, env) && later >= now
      ensures HasAccess(after, later, enforcement, env) <==> HasAccess(sub, later, enforcement, env)
    {
      assert !GraceActive(sub.status, env.catalog[sub.plan].graceDays, sub.pastDueEnteredAt, later);
    }
  }

  lemma RevokedRows(db: Db, i: nat, now: Instant)
    requires KeysInv(db) && i < |db.subs| && !Over(db.subs[i].status)
    ensures AddsRevocation(db, Revoke(db, i, now), i)
  {
    RevokeAddsItsRows(db, i, now);
    var marker := Entry(db.subs[i].org, None, RevokedAccess, 0, None, None, GraceKey(i, RevokedMarker));
    TotalAppend(db.ledger, marker, InvoicePaid);
  }

  /** A subscription as it is created: a period of 30 days, or 365 on a yearly plan; trialing for the plan's trial
      days if there are any, else incomplete; nothing canceled, no clock, not linked. */
  ghost predicate IsNewSub(sub: Sub, org: nat, planId: nat, plan: Plan, key: string, now: Instant) {
    var trial := plan.trialDays.Some? && plan.trialDays.value > 0;
    && sub.org == org && sub.plan == planId && sub.key == key && sub.periodStart == now
    && sub.periodEnd == now + (if plan.yearly then 365 * 86_400_000_000 else 30 * 86_400_000_000)
    && sub.status == (if trial then Trialing else Incomplete)
    && sub.trialEnd == (if trial then Some(now + plan.trialDays.value * 86_400_000_000) else None)
    && !sub.cancelAtPeriodEnd && sub.canceledAt.None? && sub.pastDueEnteredAt.None? && sub.externalId.None?
  }

  class BillingTables {
    var subs: seq<Sub>
    var webhooks: seq<Webhook>
    var ledger: seq<Entry>
    var outbox: seq<Key>
    var dunning: Dunning.Tables

    ghost function Contents(): Db
      reads this
    {
      Db(subs, webhooks, ledger, outbox, dunning)
    }

    constructor ()
      ensures Contents() == EMPTY
    {
      subs, webhooks, ledger, outbox, dunning := [], [], [], [], Dunning.Tables([], []);
    }

    method EnqueueOutbox(key: Key)
      modifies this`outbox
      ensures outbox == Enqueue(old(outbox), key)
    {
      if key !in outbox {
        outbox := outbox + [key];
      }
    }

    method EnqueueBoth(first: Key, second: Key)
      modifies this`outbox
      ensures outbox == Enqueue(Enqueue(old(outbox), first), second)
    {
      EnqueueOutbox(first);
      EnqueueOutbox(second);
    }

    /** Insert the entry and announce it, unless its key is already posted; returns the entry under that key. */
    method PostLedger(e: Entry) returns (posted: Entry)
      modifies this`ledger, this`outbox
      ensures Contents() == Post(old(Contents()), e)
      ensures posted in ledger && posted.key == e.key
    {
      for i := 0 to |ledger|
        invariant forall j :: 0 <= j < i ==> ledger[j].key != e.key
        invariant ledger == old(ledger) && outbox == old(outbox)
      {
        if ledger[i].key == e.key {
          return ledger[i];
        }
      }
      ledger := ledger + [e];
      EnqueueOutbox(EntryPosted(e.key));
      posted := e;
      assert ledger[|old(ledger)|] == e;
    }

    method CreateSubscription(org: nat, plan: nat, key: string, now: Instant, env: Env) returns (i: Option<nat>)
      modifies this`subs, this`outbox
      ensures Contents() == Create(old(Contents()), org, plan, key, now, env)
      ensures i.Some? <==>
                || FindByKey(old(subs), key).Some?
                || (plan in env.catalog && env.catalog[plan].published && org in env.orgs)
      ensures FindByKey(old(subs), key).Some? || i.None? ==> Contents() == old(Contents())
      ensures i.Some? ==> i.value < |subs| && subs[i.value].key == key
      ensures i.Some? && FindByKey(old(subs), key).None? ==>
                && subs == old(subs) + [subs[i.value]]
                && IsNewSub(subs[i.value], org, plan, env.catalog[plan], key, now)
    {
      var existing := FindByKey(subs, key);
      if existing.Some? {
        return existing;
      }
      if plan !in env.catalog || !env.catalog[plan].published || org !in env.orgs {
        return None;
      }
      var row := env.catalog[plan];
      var status := InitialStatus(row);
      var trialEnd := if status == Trialing then Some(now + row.trialDays.value * DAY) else None;
      var periodEnd := now + (if row.yearly then 365 else 30) * DAY;
      subs := subs + [Sub(org, plan, status, now, periodEnd, trialEnd, false, None, None, None, key)];
      if status == Trialing {
        EnqueueOutbox(SubscriptionKey(|subs| - 1, TrialStarted));
      }
      return Some(|subs| - 1);
    }

    method CancelSubscription(i: nat, atPeriodEnd: bool, now: Instant) returns (outcome: CancelOutcome)
      modifies this`subs, this`outbox
      ensures Contents() == Cancel(old(Contents()), i, atPeriodEnd, now)
      ensures i < |old(subs)| && atPeriodEnd ==> subs == old(subs)[i := old(subs)[i].(cancelAtPeriodEnd := true)]
      ensures outcome == CanceledNow ==>
                && i < |old(subs)| && old(subs)[i].status in {Incomplete, Trialing, Active, PastDue}
                && subs == old(subs)[i := old(subs)[i].(status := Canceled, canceledAt := Some(now),
                                                        cancelAtPeriodEnd := false)]
      ensures outcome == CanceledNow <==> !atPeriodEnd && CanCancel(old(Contents()), i)
      ensures outcome == CancelScheduled <==> atPeriodEnd && i < |old(subs)|
    {
      if i >= |subs| {
        return NoSuchSubscription;
      }
      if atPeriodEnd {
        subs := subs[i := subs[i].(cancelAtPeriodEnd := true)];
        return CancelScheduled;
      }
      if !Legal(subs[i].status, Canceled) {
        return IllegalTransition;
      }
      var sub := subs[i].(status := Canceled);
      sub := sub.(canceledAt := Some(now));
      sub := sub.(cancelAtPeriodEnd := false);
      subs := subs[i := sub];
      EnqueueOutbox(SubscriptionKey(i, CancelNotice));
      return CanceledNow;
    }

    method ChangePlanTo(i: nat, plan: nat, idem: string, env: Env) returns (changed: bool)
      modifies this`subs, this`ledger, this`outbox
      ensures Contents() == ChangePlan(old(Contents()), i, plan, idem, env)
      ensures changed == CanChangePlan(old(Contents()), i, plan, idem, env)
      ensures changed <==>
                && i < |old(subs)| && old(subs)[i].status in {Incomplete, Trialing, Active, PastDue}
                && old(subs)[i].plan != plan && plan in env.catalog && env.catalog[plan].published
                && PlanChangeKey(idem, PlanChanged) !in old(outbox)
      ensures changed ==>
                && subs == old(subs)[i := old(subs)[i].(plan := plan)]
                && PlanChangeKey(idem, PlanChanged) in outbox
      ensures !changed ==> Contents() == old(Contents())
    {
      if i >= |subs| || PlanChangeKey(idem, PlanChanged) in outbox || subs[i].status == Canceled
         || subs[i].status == Unpaid || subs[i].plan == plan || plan !in env.catalog || !env.catalog[plan].published {
        return false;
      }
      var sub := subs[i];
      var oldPrice, newPrice := FlatPrice(sub.plan, env), FlatPrice(plan, env);
      if newPrice > oldPrice {
        var _ := PostLedger(Entry(sub.org, None, ProrationDebit, 1, None, None, PlanChangeKey(idem, Debit)));
      } else if newPrice < oldPrice {
        var _ := PostLedger(Entry(sub.org, None, ProrationCredit, -1, None, None, PlanChangeKey(idem, Credit)));
      }
      subs := subs[i := sub.(plan := plan)];
      EnqueueOutbox(PlanChangeKey(idem, PlanChanged));
      return true;
    }

    method PersistWebhook(id: string, eventType: EventType, payload: map<string, Json>) returns (w: Option<nat>)
      modifies this`webhooks
      ensures Contents() == Persist(old(Contents()), id, eventType, payload)
      ensures w.Some? <==> FindByProviderId(old(webhooks), id).None?
      ensures w.Some? ==>
                w.value == |old(webhooks)| && webhooks == old(webhooks) + [Webhook(id, eventType, payload, Received, 0)]
    {
      var existing := FindByProviderId(webhooks, id);
      if existing.Some? {
        return None;
      }
      webhooks := webhooks + [Webhook(id, eventType, payload, Received, 0)];
      return Some(|webhooks| - 1);
    }

    /** Move the named subscription to a status, starting or stopping the grace clock. */
    method TransitionSubscription(payload: map<string, Json>, status: Status, now: Instant) returns (i: Option<nat>)
      modifies this`subs
      ensures i == Target(old(Contents()), payload, status)
      ensures i.None? ==> subs == old(subs)
      ensures i.Some? ==> subs == old(subs)[i.value := EnterStatus(old(subs)[i.value], status, now)]
    {
      var id := NamedSubscription(payload);
      if id.None? {
        return None;
      }
      i := FindByExternalId(subs, id.value);
      if i.None? || !Legal(subs[i.value].status, status) {
        return None;
      }
      var sub := subs[i.value].(status := status);
      if status == PastDue {
        sub := sub.(pastDueEnteredAt := Some(now));
      } else if status == Active {
        sub := sub.(pastDueEnteredAt := None);
      }
      subs := subs[i.value := sub];
    }

    method HandleInvoicePaid(w: nat, payload: map<string, Json>, now: Instant, env: Env) returns (status: WebhookStatus)
      modifies this`subs, this`ledger, this`outbox
      ensures Handled(Contents(), status) == HandlePaid(old(Contents()), w, payload, now, env)
      ensures PaymentHandled(old(Contents()), Handled(Contents(), status), w, payload, env)
    {
      PaidIsHandled(Contents(), w, payload, now, env);
      var i := TransitionSubscription(payload, Active, now);
      if i.None? || subs[i.value].org !in env.orgs {
        return Failed;
      }
      EnqueueOutbox(WebhookKey(w, Activated));
      var _ := PostLedger(Entry(subs[i.value].org, None, InvoicePaid, AmountPaid(payload), None,
                                Some(InvoiceId(payload)), WebhookKey(w, InvoicePaidPosting)));
      return Processed;
    }

    method HandleInvoicePaymentFailed(w: nat, payload: map<string, Json>, now: Instant, env: Env)
      returns (status: WebhookStatus)
      modifies this`subs, this`outbox, this`dunning
      ensures Handled(Contents(), status) == HandlePaymentFailed(old(Contents()), w, payload, now, env)
      ensures FailureHandled(old(Contents()), Handled(Contents(), status), w, payload, now, env)
    {
      FailedIsHandled(Contents(), w, payload, now, env);
      var i := TransitionSubscription(payload, PastDue, now);
      if i.None? || subs[i.value].plan !in env.catalog || subs[i.value].org !in env.orgs {
        return Failed;
      }
      EnqueueBoth(WebhookKey(w, PaymentFailed), WebhookKey(w, PastDueNotice));
      if env.dunningEnabled {
        dunning := Dunning.StartCampaign(dunning, i.value, subs[i.value].org, WebhookKey(w, CampaignStart), now);
      }
      return Processed;
    }

    /** Process a received webhook; a finished one is left alone, a poisonous one is marked failed. */
    method ProcessWebhook(w: nat, now: Instant, env: Env)
      modifies this
      ensures Contents() == Process(old(Contents()), w, now, env)
      ensures WebhookHandled(old(Contents()), Contents(), w, env)
    {
      ProcessIsHandled(Contents(), w, now, env);
      if w >= |webhooks| || Terminal(webhooks[w].status) {
        return;
      }
      var row := webhooks[w].(status := Processing, attempts := webhooks[w].attempts + 1);
      ghost var before := Contents();
      var status: WebhookStatus;
      match row.eventType {
        case InvoicePaidEvent => status := HandleInvoicePaid(w, row.payload, now, env);
        case PaymentFailedEvent => status := HandleInvoicePaymentFailed(w, row.payload, now, env);
        case OtherEvent(_) => status := Skipped;
      }
      assert Handled(Contents(), status) == Dispatch(before, w, now, env);
      webhooks := webhooks[w := row.(status := status)];
    }

    method ReplayWebhook(w: nat, now: Instant, env: Env) returns (replayed: bool)
      modifies this
      ensures Contents() == Replay(old(Contents()), w, now, env)
      ensures replayed <==>
                w < |old(webhooks)| && old(webhooks)[w].status != Processed && old(webhooks)[w].status != Skipped
      ensures if replayed then RetriedOnce(old(Contents()), Contents(), w, env) else Contents() == old(Contents())
    {
      if w >= |webhooks| || webhooks[w].status == Processed || webhooks[w].status == Skipped {
        return false;
      }
      RetryIsOneTry(Contents(), w, now, env);
      webhooks := webhooks[w := webhooks[w].(status := Received)];
      ProcessWebhook(w, now, env);
      return true;
    }

    method RevokeExpired(i: nat, now: Instant)
      requires i < |subs|
      modifies this`subs, this`ledger, this`outbox
      ensures Contents() == Revoke(old(Contents()), i, now)
      ensures RevocationDone(old(Contents()), Contents(), i, now)
    {
      RevokeIsDone(Contents(), i, now);
      var sub := subs[i];
      if sub.cancelAtPeriodEnd {
        sub := sub.(status := Canceled, canceledAt := Some(now), cancelAtPeriodEnd := false);
      } else {
        sub := sub.(status := Unpaid);
      }
      sub := sub.(pastDueEnteredAt := None);
      subs := subs[i := sub];
      var _ := PostLedger(Entry(sub.org, None, RevokedAccess, 0, None, None, GraceKey(i, RevokedMarker)));
      EnqueueOutbox(GraceKey(i, AccessRevoked));
    }

    /** Revoke access where the grace window has ended; reports how many and which organizations. */
    method EnforceGraceExpiry(now: Instant, locked: set<nat>, env: Env) returns (processed: nat, orgs: set<nat>)
      modifies this`subs, this`ledger, this`outbox
      ensures Contents() == Sweep(old(Contents()), now, locked, env)
      ensures RevokesTheExpired(old(subs), subs, now, locked, env)
      ensures processed == ExpiredCount(old(subs), |old(subs)|, now, locked, env)
      ensures processed == |Changed(old(subs), subs)|
      ensures forall o :: o in orgs <==>
                exists i :: 0 <= i < |old(subs)| && Expired(old(subs)[i], i, now, locked, env) && old(subs)[i].org == o
    {
      processed, orgs := 0, {};
      ghost var before := Contents();
      for i := 0 to |subs|
        invariant |subs| == |old(subs)|
        invariant Contents() == SweepTo(before, i, now, locked, env)
        invariant processed == ExpiredCount(old(subs), i, now, locked, env)
        invariant forall o :: o in orgs <==>
                    exists j :: 0 <= j < i && Expired(old(subs)[j], j, now, locked, env) && old(subs)[j].org == o
      {
        var sub := subs[i];
        assert sub == old(subs)[i];
        if sub.status == PastDue && sub.pastDueEnteredAt.Some? && sub.plan in env.catalog && i !in locked {
          var graceUntil := GraceUntil(sub.pastDueEnteredAt.value, env.catalog[sub.plan].graceDays);
          if now >= graceUntil {
            RevokeExpired(i, now);
            processed := processed + 1;
            orgs := orgs + {sub.org};
          }
        }
      }
      SweepChangesExactly(before, now, locked, env);
      CountIsChanged(before, now, locked, env);
    }
  }
}
