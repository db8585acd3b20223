/**
 The subscription lifecycle: creation, payment webhooks, cancellation, plan changes and the grace sweep, over one set of
 tables.  Each operation is one transaction; its result is a function of the tables before it.
 */
module Lifecycle {
  import opened Wrappers
  import opened Subscriptions
  import opened Ledger
  import opened Webhooks
  import Dunning

  datatype Plan = Plan(published: bool, trialDays: Option<int>, yearly: bool, graceDays: int, flatPrice: int)

  /** The catalog, the organizations and the dunning switch. */
  datatype Env = Env(catalog: map<nat, Plan>, orgs: set<nat>, dunningEnabled: bool)

  datatype Sub = Sub(
    org: nat,
    plan: nat,
    status: Status,
    periodStart: Instant,
    periodEnd: Instant,
    trialEnd: Option<Instant>,
    cancelAtPeriodEnd: bool,
    canceledAt: Option<Instant>,
    pastDueEnteredAt: Option<Instant>,
    externalId: Option<string>,
    key: string)

  datatype Db = Db(
    subs: seq<Sub>,
    webhooks: seq<Webhook>,
    ledger: seq<Entry>,
    outbox: seq<Key>,
    dunning: Dunning.Tables)

  const EMPTY := Db([], [], [], [], Dunning.Tables([], []))

  /** Post an entry and announce it. */
  function Post(db: Db, e: Entry): Db {
    db.(ledger := PostEntry(db.ledger, e), outbox := Announce(db.ledger, db.outbox, e))
  }

  function Emit(db: Db, key: Key): Db {
    db.(outbox := Enqueue(db.outbox, key))
  }

  function SetSub(db: Db, i: nat, sub: Sub): Db
    requires i < |db.subs|
  {
    db.(subs := db.subs[i := sub])
  }

  /* ---------- create, link, cancel ---------- */

  function FindByKey(subs: seq<Sub>, key: string): (r: Option<nat>)
    ensures r.Some? ==> r.value < |subs| && subs[r.value].key == key
    ensures r.None? ==> forall i :: 0 <= i < |subs| ==> subs[i].key != key
  {
    if subs == [] then None
    else if subs[|subs| - 1].key == key then Some(|subs| - 1)
    else FindByKey(subs[..|subs| - 1], key)
  }

  function FindByExternalId(subs: seq<Sub>, id: string): (r: Option<nat>)
    ensures r.Some? ==> r.value < |subs| && subs[r.value].externalId == Some(id)
    ensures r.None? ==> forall i :: 0 <= i < |subs| ==> subs[i].externalId != Some(id)
  {
    if subs == [] then None
    else if subs[|subs| - 1].externalId == Some(id) then Some(|subs| - 1)
    else FindByExternalId(subs[..|subs| - 1], id)
  }

  function InitialStatus(plan: Plan): Status {
    if plan.trialDays.Some? && plan.trialDays.value > 0 then Trialing else Incomplete
  }

  function NewSub(org: nat, planId: nat, plan: Plan, key: string, now: Instant): Sub {
    var status := InitialStatus(plan);
    Sub(org, planId, status, now, now + (if plan.yearly then 365 else 30) * DAY,
        if status == Trialing then Some(now + plan.trialDays.value * DAY) else None,
        false, None, None, None, key)
  }

  predicate CanCreate(db: Db, org: nat, plan: nat, key: string, env: Env) {
    FindByKey(db.subs, key).None? && plan in env.catalog && env.catalog[plan].published && org in env.orgs
  }

  function Create(db: Db, org: nat, plan: nat, key: string, now: Instant, env: Env): Db {
    if !CanCreate(db, org, plan, key, env) then db
    else
      var sub := NewSub(org, plan, env.catalog[plan], key, now);
      var db1 := db.(subs := db.subs + [sub]);
      if sub.status == Trialing then Emit(db1, SubscriptionKey(|db.subs|, TrialStarted)) else db1
  }

  /** The provider's id is attached once the provider knows the subscription; the column is unique. */
  function Link(db: Db, i: nat, externalId: string): Db {
    if i >= |db.subs| || FindByExternalId(db.subs, externalId).Some? then db
    else SetSub(db, i, db.subs[i].(externalId := Some(externalId)))
  }

  predicate CanCancel(db: Db, i: nat) {
    i < |db.subs| && Legal(db.subs[i].status, Canceled)
  }

  function Cancel(db: Db, i: nat, atPeriodEnd: bool, now: Instant): Db {
    if i >= |db.subs| then db
    else if atPeriodEnd then SetSub(db, i, db.subs[i].(cancelAtPeriodEnd := true))
    else if !CanCancel(db, i) then db
    else
      var canceled := db.subs[i].(status := Canceled, canceledAt := Some(now), cancelAtPeriodEnd := false);
      Emit(SetSub(db, i, canceled), SubscriptionKey(i, CancelNotice))
  }

  /* ---------- plan change ---------- */

  predicate CanChangePlan(db: Db, i: nat, plan: nat, idem: string, env: Env) {
    && i < |db.subs|
    && PlanChangeKey(idem, PlanChanged) !in db.outbox
    && db.subs[i].status != Canceled && db.subs[i].status != Unpaid
    && db.subs[i].plan != plan
    && plan in env.catalog && env.catalog[plan].published
  }

  /** The flat price of a plan; a plan without flat prices costs nothing. */
  function FlatPrice(plan: nat, env: Env): int {
    if plan in env.catalog then env.catalog[plan].flatPrice else 0
  }

  function Proration(db: Db, sub: Sub, plan: nat, idem: string, env: Env): Db {
    var before, after := FlatPrice(sub.plan, env), FlatPrice(plan, env);
    if after > before then
      Post(db, Entry(sub.org, None, ProrationDebit, 1, None, None, PlanChangeKey(idem, Debit)))
    else if after < before then
      Post(db, Entry(sub.org, None, ProrationCredit, -1, None, None, PlanChangeKey(idem, Credit)))
    else db
  }

  function ChangePlan(db: Db, i: nat, plan: nat, idem: string, env: Env): Db {
    if !CanChangePlan(db, i, plan, idem, env) then db
    else
      var sub := db.subs[i];
      Emit(SetSub(Proration(db, sub, plan, idem, env), i, sub.(plan := plan)), PlanChangeKey(idem, PlanChanged))
  }

  /* ---------- webhooks ---------- */

  /** Insert the webhook unless its provider event id is known. */
  function Persist(db: Db, providerEventId: string, eventType: EventType, payload: map<string, Json>): Db {
    if FindByProviderId(db.webhooks, providerEventId).Some? then db
    else db.(webhooks := db.webhooks + [Webhook(providerEventId, eventType, payload, Received, 0)])
  }

  /** What a handler did: the tables it leaves, and whether it raised. */
  datatype Handled = Handled(db: Db, status: WebhookStatus)

  function EnterStatus(sub: Sub, status: Status, now: Instant): Sub {
    sub.(status := status,
         pastDueEnteredAt := if status == PastDue then Some(now)
                             else if status == Active then None
                             else sub.pastDueEnteredAt)
  }

  /** The subscription a payment event moves to `status`, if it exists and may go there. */
  function Target(db: Db, payload: map<string, Json>, status: Status): (r: Option<nat>)
    ensures r.Some? ==> r.value < |db.subs| && Legal(db.subs[r.value].status, status)
  {
    var id := NamedSubscription(payload);
    if id.None? then None
    else
      var i := FindByExternalId(db.subs, id.value);
      if i.None? || !Legal(db.subs[i.value].status, status) then None else i
  }

  /** The status of the subscription a payload names, if there is one. */
  function NamedStatus(db: Db, payload: map<string, Json>): Option<Status> {
    var id := NamedSubscription(payload);
    if id.None? then None
    else
      var i := FindByExternalId(db.subs, id.value);
      if i.None? then None else Some(db.subs[i.value].status)
  }

  /** The payload names a subscription that waits for a payment. */
  predicate Payable(db: Db, payload: map<string, Json>) {
    NamedStatus(db, payload) in {Some(Incomplete), Some(Trialing), Some(PastDue)}
  }

  /** The payload names a subscription that is paid up. */
  predicate PaidUp(db: Db, payload: map<string, Json>) {
    NamedStatus(db, payload) == Some(Active)
  }

  function HandlePaid(db: Db, w: nat, payload: map<string, Json>, now: Instant, env: Env): Handled {
    var target := Target(db, payload, Active);
    if target.None? then Handled(db, Failed)
    else
      var sub := EnterStatus(db.subs[target.value], Active, now);
      var db1 := SetSub(db, target.value, sub);
      if sub.org !in env.orgs then Handled(db1, Failed)
      else
        var db2 := Emit(db1, WebhookKey(w, Activated));
        Handled(Post(db2, Entry(sub.org, None, InvoicePaid, AmountPaid(payload), None,
                                Some(InvoiceId(payload)), WebhookKey(w, InvoicePaidPosting))), Processed)
  }

  function HandlePaymentFailed(db: Db, w: nat, payload: map<string, Json>, now: Instant, env: Env): Handled {
    var target := Target(db, payload, PastDue);
    if target.None? then Handled(db, Failed)
    else
      var i := target.value;
      var sub := EnterStatus(db.subs[i], PastDue, now);
      var db1 := SetSub(db, i, sub);
      if sub.plan !in env.catalog || sub.org !in env.orgs then Handled(db1, Failed)
      else
        var db2 := Emit(Emit(db1, WebhookKey(w, PaymentFailed)), WebhookKey(w, PastDueNotice));
        Handled(if env.dunningEnabled
                then db2.(dunning := Dunning.StartCampaign(db2.dunning, i, sub.org, WebhookKey(w, CampaignStart), now))
                else db2, Processed)
  }

  function Dispatch(db: Db, w: nat, now: Instant, env: Env): Handled
    requires w < |db.webhooks|
  {
    match db.webhooks[w].eventType
    case InvoicePaidEvent => HandlePaid(db, w, db.webhooks[w].payload, now, env)
    case PaymentFailedEvent => HandlePaymentFailed(db, w, db.webhooks[w].payload, now, env)
    case OtherEvent(_) => Handled(db, Skipped)
  }

  function Process(db: Db, w: nat, now: Instant, env: Env): Db {
    if w >= |db.webhooks| || Terminal(db.webhooks[w].status) then db
    else
      var h := Dispatch(db, w, now, env);
      h.db.(webhooks := db.webhooks[w := db.webhooks[w].(status := h.status, attempts := db.webhooks[w].attempts + 1)])
  }

  /** An admin replay gives a failed or stuck webhook another try and leaves finished ones alone. */
  function Replay(db: Db, w: nat, now: Instant, env: Env): Db {
    if w >= |db.webhooks| || db.webhooks[w].status == Processed || db.webhooks[w].status == Skipped then db
    else Process(db.(webhooks := db.webhooks[w := db.webhooks[w].(status := Received)]), w, now, env)
  }

  /* ---------- reversals ---------- */

  /** The ledger keys that webhooks, revocations and plan changes post under. */
  predicate Reserved(k: Key) {
    k.WebhookKey? || k.GraceKey? || k.PlanChangeKey?
  }

  type FreeKey = k: Key | !Reserved(k) witness CallerKey("")

  /** A compensating entry; an unknown entry is refused. */
  function Reverse(db: Db, entry: nat, key: Key): Db {
    if entry >= |db.ledger| then db else Post(db, ReversalOf(db.ledger, entry, key))
  }

  /* ---------- the grace sweep ---------- */

  /** A row the sweep selects: past due with a clock, its plan known, not locked by someone else. */
  predicate Selected(sub: Sub, i: nat, locked: set<nat>, env: Env) {
    sub.status == PastDue && sub.pastDueEnteredAt.Some? && sub.plan in env.catalog && i !in locked
  }

  predicate Expired(sub: Sub, i: nat, now: Instant, locked: set<nat>, env: Env) {
    Selected(sub, i, locked, env) && now >= GraceUntil(sub.pastDueEnteredAt.value, env.catalog[sub.plan].graceDays)
  }

  function Revoked(sub: Sub, now: Instant): Sub {
    if sub.cancelAtPeriodEnd then
      sub.(status := Canceled, canceledAt := Some(now), cancelAtPeriodEnd := false, pastDueEnteredAt := None)
    else
      sub.(status := Unpaid, pastDueEnteredAt := None)
  }

  function Revoke(db: Db, i: nat, now: Instant): Db
    requires i < |db.subs|
  {
    var sub := db.subs[i];
    var db1 := SetSub(db, i, Revoked(sub, now));
    Emit(Post(db1, Entry(sub.org, None, RevokedAccess, 0, None, None, GraceKey(i, RevokedMarker))),
         GraceKey(i, AccessRevoked))
  }

  /** The sweep over the first `n` subscriptions. */
  function SweepTo(db: Db, n: nat, now: Instant, locked: set<nat>, env: Env): (r: Db)
    requires n <= |db.subs|
    ensures |r.subs| == |db.subs|
    ensures forall i :: n <= i < |db.subs| ==> r.subs[i] == db.subs[i]
  {
    if n == 0 then db
    else
      var before := SweepTo(db, n - 1, now, locked, env);
      if Expired(before.subs[n - 1], n - 1, now, locked, env) then Revoke(before, n - 1, now) else before
  }

  function Sweep(db: Db, now: Instant, locked: set<nat>, env: Env): Db {
    SweepTo(db, |db.subs|, now, locked, env)
  }

  /** The sweep touches exactly the expired subscriptions, each as `Revoked` says. */
  lemma {:induction false} SweepToSubs(db: Db, n: nat, now: Instant, locked: set<nat>, env: Env)
    requires n <= |db.subs|
    ensures forall i :: 0 <= i < n ==>
              SweepTo(db, n, now, locked, env).subs[i]
              == if Expired(db.subs[i], i, now, locked, env) then Revoked(db.subs[i], now) else db.subs[i]
  {
    if n == 0 {
    } else {
      SweepToSubs(db, n - 1, now, locked, env);
    }
  }

  /** The access a subscription grants at an instant, for a feature with the given enforcement. */
  predicate HasAccess(sub: Sub, at: Instant, enforcement: Enforcement, env: Env)
    requires sub.plan in env.catalog
  {
    DecideAccess(sub.status, GraceActive(sub.status, env.catalog[sub.plan].graceDays, sub.pastDueEnteredAt, at),
                 enforcement).allowed
  }

  /** The instant at which the grace of a past-due subscription ends: its clock plus its plan's grace days. */
  ghost predicate GraceEnds(sub: Sub, env: Env, deadline: Instant) {
    && sub.status == PastDue && sub.pastDueEnteredAt.Some? && sub.plan in env.catalog
    && deadline == sub.pastDueEnteredAt.value + env.catalog[sub.plan].graceDays * 86_400_000_000
  }

  /** Access is granted exactly while the subscription is active or trialing, or past due and before the end of its
      grace. */
  lemma AccessUntilDeadline(sub: Sub, at: Instant, enforcement: Enforcement, env: Env)
    requires sub.plan in env.catalog
    ensures HasAccess(sub, at, enforcement, env) <==>
              || sub.status == Active || sub.status == Trialing
              || exists deadline :: GraceEnds(sub, env, deadline) && at < deadline
  {
    if sub.status == PastDue && sub.pastDueEnteredAt.Some? {
      assert GraceEnds(sub, env, sub.pastDueEnteredAt.value + env.catalog[sub.plan].graceDays * 86_400_000_000);
    }
  }

  /** The sweep revokes exactly the unlocked past-due subscriptions with a clock whose grace days are over: each of
      them is untouched by every sweep before its deadline and revoked by every sweep from then on. And it never
      changes an answer: access at the time of the sweep and at any later time is the same before and after it. */
  lemma SweepIsExactAndAccessNeutral(db: Db, now: Instant, locked: set<nat>, env: Env, i: nat, later: Instant,
                                     enforcement: Enforcement)
    requires i < |db.subs| && db.subs[i].plan in env.catalog && later >= now
    ensures
      var before, after := db.subs[i], Sweep(db, now, locked, env).subs[i];
      && (after != before <==> i !in locked && exists deadline :: GraceEnds(before, env, deadline) && now >= deadline)
      && (after != before ==>
            after.status == (if before.cancelAtPeriodEnd then Canceled else Unpaid) && after.pastDueEnteredAt.None?)
      && after.plan == before.plan
      && (HasAccess(after, later, enforcement, env) <==> HasAccess(before, later, enforcement, env))
  {
    SweepToSubs(db, |db.subs|, now, locked, env);
    var before := db.subs[i];
    if before.status == PastDue && before.pastDueEnteredAt.Some? {
      assert GraceEnds(before, env, before.pastDueEnteredAt.value
          + env.catalog[before.plan].graceDays * 86_400_000_000);
    }
  }

  /* ---------- cancellation ---------- */

  /** An immediate cancellation succeeds exactly from the four live statuses and then ends the subscription, dated and
      with no cancellation left to come; from the two final ones it changes nothing. A scheduled one only sets its
      mark. */
  lemma CancellationIsExact(db: Db, i: nat, atPeriodEnd: bool, now: Instant)
    requires i < |db.subs|
    ensures
      var before, db' := db.subs[i], Cancel(db, i, atPeriodEnd, now);
      && |db'.subs| == |db.subs| && (forall x :: 0 <= x < |db.subs| && x != i ==> db'.subs[x] == db.subs[x])
      && (if atPeriodEnd then db' == db.(subs := db.subs[i := before.(cancelAtPeriodEnd := true)])
          else if before.status in {Incomplete, Trialing, Active, PastDue} then
            && db'.subs[i] == before.(status := Canceled, canceledAt := Some(now), cancelAtPeriodEnd := false)
            && SubscriptionKey(i, CancelNotice) in db'.outbox
          else db' == db)
  {
  }
}
