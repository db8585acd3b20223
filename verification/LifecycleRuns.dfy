/** What holds after every sequence of lifecycle operations. */
module LifecycleRuns {
  import opened Wrappers
  import opened Subscriptions
  import opened Ledger
  import opened Webhooks
  import opened Lifecycle

  datatype Step =
    | CreateStep(org: nat, plan: nat, key: string, now: Instant)
    | LinkStep(sub: nat, externalId: string)
    | CancelStep(sub: nat, atPeriodEnd: bool, now: Instant)
    | ChangePlanStep(sub: nat, plan: nat, idem: string)
    | PersistStep(providerEventId: string, eventType: EventType, payload: map<string, Json>)
    | ProcessStep(webhook: nat, now: Instant)
    | ReplayStep(webhook: nat, now: Instant)
    | SweepStep(now: Instant, locked: set<nat>)
    | ReverseStep(entry: nat, reversalKey: FreeKey)      // callers keep away from the other services' keys

  function Apply(db: Db, step: Step, env: Env): Db {
    match step
    case CreateStep(org, plan, key, now) => Create(db, org, plan, key, now, env)
    case LinkStep(i, externalId) => Link(db, i, externalId)
    case CancelStep(i, atPeriodEnd, now) => Cancel(db, i, atPeriodEnd, now)
    case ChangePlanStep(i, plan, idem) => ChangePlan(db, i, plan, idem, env)
    case PersistStep(id, eventType, payload) => Persist(db, id, eventType, payload)
    case ProcessStep(w, now) => Process(db, w, now, env)
    case ReplayStep(w, now) => Replay(db, w, now, env)
    case SweepStep(now, locked) => Sweep(db, now, locked, env)
    case ReverseStep(entry, key) => Reverse(db, entry, key)
  }

  function After(db: Db, steps: seq<Step>, env: Env): Db
    decreases |steps|
  {
    if steps == [] then db else After(Apply(db, steps[0], env), steps[1..], env)
  }

  /* ---------- subscriptions ---------- */

  /** Past due implies a clock; a clock implies past due or canceled (cancelling keeps it); canceled exactly when the
      cancellation date is set; and the foreign keys hold. */
  predicate SubInv(sub: Sub, env: Env) {
    && (sub.status == PastDue ==> sub.pastDueEnteredAt.Some?)
    && (sub.pastDueEnteredAt.Some? ==> sub.status == PastDue || sub.status == Canceled)
    && (sub.status == Canceled <==> sub.canceledAt.Some?)
    && sub.plan in env.catalog
    && sub.org in env.orgs
  }

  ghost predicate SubsInv(db: Db, env: Env) {
    forall i :: 0 <= i < |db.subs| ==> SubInv(db.subs[i], env)
  }

  predicate Over(status: Status) {
    status == Canceled || status == Unpaid
  }

  /** A step keeps every row's invariant, never removes a row, and never revives one that is over. */
  lemma StepKeepsSubs(db: Db, step: Step, env: Env)
    requires SubsInv(db, env)
    ensures
      var db' := Apply(db, step, env);
      && SubsInv(db', env)
      && |db.subs| <= |db'.subs|
      && (forall i :: 0 <= i < |db.subs| && Over(db.subs[i].status) ==> db'.subs[i].status == db.subs[i].status)
  {
    match step
    case SweepStep(now, locked) => SweepToSubs(db, |db.subs|, now, locked, env);
    case ProcessStep(w, now) => ProcessKeepsSubs(db, w, now, env);
    case ReplayStep(w, now) =>
      if w < |db.webhooks| {
        ProcessKeepsSubs(db.(webhooks := db.webhooks[w := db.webhooks[w].(status := Received)]), w, now, env);
      }
    case CreateStep(_, _, _, _) =>
    case LinkStep(_, _) =>
    case CancelStep(_, _, _) =>
    case ChangePlanStep(i, plan, idem) => ChangePlanKeepsSubs(db, i, plan, idem, env);
    case PersistStep(_, _, _) =>
    case ReverseStep(_, _) =>
  }

  lemma ChangePlanKeepsSubs(db: Db, i: nat, plan: nat, idem: string, env: Env)
    requires SubsInv(db, env)
    ensures
      var db' := ChangePlan(db, i, plan, idem, env);
      && SubsInv(db', env) && |db'.subs| == |db.subs|
      && forall j :: 0 <= j < |db.subs| ==> db'.subs[j].status == db.subs[j].status
  {
  }

  lemma EnterKeepsSubInv(sub: Sub, status: Status, now: Instant, env: Env)
    requires SubInv(sub, env) && Legal(sub.status, status) && (status == Active || status == PastDue)
    ensures SubInv(EnterStatus(sub, status, now), env) && !Over(sub.status)
  {
  }

  /** A handler changes at most the subscription its payload names. */
  lemma DispatchSubs(db: Db, w: nat, now: Instant, env: Env)
    requires w < |db.webhooks|
    ensures
      var subs, payload := Dispatch(db, w, now, env).db.subs, db.webhooks[w].payload;
      || subs == db.subs
      || (exists status :: (status == Active || status == PastDue) && Target(db, payload, status).Some?
            && var i := Target(db, payload, status).value; subs == db.subs[i := EnterStatus(db.subs[i], status, now)])
  {
  }

  /** A webhook changes at most one subscription, along a legal transition. */
  lemma ProcessKeepsSubs(db: Db, w: nat, now: Instant, env: Env)
    requires SubsInv(db, env)
    ensures
      var db' := Process(db, w, now, env);
      && SubsInv(db', env)
      && |db.subs| == |db'.subs|
      && (forall i :: 0 <= i < |db.subs| ==> db'.subs[i] == db.subs[i] || !Over(db.subs[i].status))
  {
    if w < |db.webhooks| && !Terminal(db.webhooks[w].status) {
      DispatchSubs(db, w, now, env);
      var subs, payload := Dispatch(db, w, now, env).db.subs, db.webhooks[w].payload;
      if subs != db.subs {
        var status :| (status == Active || status == PastDue) && Target(db, payload, status).Some?
          && var i := Target(db, payload, status).value; subs == db.subs[i := EnterStatus(db.subs[i], status, now)];
        EnterKeepsSubInv(db.subs[Target(db, payload, status).value], status, now, env);
      }
    }
  }

  lemma {:induction false} RunKeepsSubs(db: Db, steps: seq<Step>, env: Env)
    requires SubsInv(db, env)
    ensures
      var db' := After(db, steps, env);
      && SubsInv(db', env)
      && |db.subs| <= |db'.subs|
      && (forall i :: 0 <= i < |db.subs| && Over(db.subs[i].status) ==> db'.subs[i].status == db.subs[i].status)
    decreases |steps|
  {
    if steps == [] {
    } else {
      StepKeepsSubs(db, steps[0], env);
      RunKeepsSubs(Apply(db, steps[0], env), steps[1..], env);
    }
  }

  /* ---------- keys ---------- */

  predicate HasStatus(db: Db, w: nat, eventType: EventType, status: WebhookStatus) {
    w < |db.webhooks| && db.webhooks[w].eventType == eventType && db.webhooks[w].status == status
  }

  /** A webhook's rows exist exactly when it has been processed. */
  ghost predicate WebhookKeys(db: Db, w: nat) {
    var posted := WebhookKey(w, InvoicePaidPosting);
    && (WebhookKey(w, Activated) in db.outbox <==> HasStatus(db, w, InvoicePaidEvent, Processed))
    && (posted in KeysOf(db.ledger) <==> HasStatus(db, w, InvoicePaidEvent, Processed))
    && (EntryPosted(posted) in db.outbox <==> HasStatus(db, w, InvoicePaidEvent, Processed))
    && (WebhookKey(w, PaymentFailed) in db.outbox <==> HasStatus(db, w, PaymentFailedEvent, Processed))
    && (WebhookKey(w, PastDueNotice) in db.outbox <==> HasStatus(db, w, PaymentFailedEvent, Processed))
  }

  /** A per-subscription key is used only once its event can no longer recur. */
  ghost predicate SubKeys(db: Db, i: nat) {
    var marker := GraceKey(i, RevokedMarker);
    && (SubscriptionKey(i, TrialStarted) in db.outbox ==> i < |db.subs|)
    && (SubscriptionKey(i, CancelNotice) in db.outbox ==> i < |db.subs| && db.subs[i].status == Canceled)
    && (marker in KeysOf(db.ledger) || EntryPosted(marker) in db.outbox || GraceKey(i, AccessRevoked) in db.outbox ==>
          i < |db.subs| && Over(db.subs[i].status))
  }

  ghost predicate PlanKeys(db: Db, idem: string) {
    PlanChangeKey(idem, PlanChanged) !in db.outbox ==>
      && PlanChangeKey(idem, Debit) !in KeysOf(db.ledger) && EntryPosted(PlanChangeKey(idem, Debit)) !in db.outbox
      && PlanChangeKey(idem, Credit) !in KeysOf(db.ledger) && EntryPosted(PlanChangeKey(idem, Credit)) !in db.outbox
  }

  ghost predicate KeysInv(db: Db) {
    && Distinct(db.outbox) && DistinctKeys(db.ledger)
    && (forall w: nat :: WebhookKeys(db, w))
    && (forall i: nat :: SubKeys(db, i))
    && (forall idem: string :: PlanKeys(db, idem))
    && (forall w :: 0 <= w < |db.webhooks| ==> db.webhooks[w].status != Processing)
  }

  /* ---------- money ---------- */

  /** Every payment entry is the one posting of a processed payment webhook, with the amount it reports. */
  predicate EntryInv(e: Entry, webhooks: seq<Webhook>) {
    if e.key.WebhookKey? && e.key.what == InvoicePaidPosting then
      && e.kind == InvoicePaid
      && e.key.webhook < |webhooks|
      && PaidAndProcessed(webhooks[e.key.webhook])
      && e.amount == AmountPaid(webhooks[e.key.webhook].payload)
      && e.externalInvoice == Some(InvoiceId(webhooks[e.key.webhook].payload))
    else e.kind != InvoicePaid
  }

  ghost predicate MoneyInv(db: Db) {
    && Total(db.ledger, InvoicePaid) == Reported(db.webhooks)
    && EntriesInv(db.ledger, db.webhooks)
  }

  ghost predicate EntriesInv(ledger: seq<Entry>, webhooks: seq<Webhook>) {
    forall k :: 0 <= k < |ledger| ==> EntryInv(ledger[k], webhooks)
  }

  ghost predicate Inv(db: Db, env: Env) {
    SubsInv(db, env) && KeysInv(db) && MoneyInv(db)
  }

  /* ---------- which keys an operation may add ---------- */

  predicate OfWebhook(k: Key) {
    k.WebhookKey? || (k.EntryPosted? && k.entry.WebhookKey?)
  }

  predicate OfSub(k: Key) {
    k.SubscriptionKey? || k.GraceKey? || (k.EntryPosted? && k.entry.GraceKey?)
  }

  predicate OfPlanChange(k: Key) {
    k.PlanChangeKey? || (k.EntryPosted? && k.entry.PlanChangeKey?)
  }

  /** Rows are only added, and none of the added ones is in `side`. */
  ghost predicate AddsNone(db: Db, db': Db, side: Key -> bool) {
    && (forall k :: k in db.outbox ==> k in db'.outbox)
    && (forall k :: k in KeysOf(db.ledger) ==> k in KeysOf(db'.ledger))
    && (forall k :: k in db'.outbox && side(k) ==> k in db.outbox)
    && (forall k :: k in KeysOf(db'.ledger) && side(k) ==> k in KeysOf(db.ledger))
  }

  lemma FrameWebhooks(db: Db, db': Db)
    requires forall w: nat :: WebhookKeys(db, w)
    requires AddsNone(db, db', OfWebhook)
    requires forall w: nat, t, st :: HasStatus(db', w, t, st) && st == Processed <==>
        HasStatus(db, w, t, st) && st == Processed
    ensures forall w: nat :: WebhookKeys(db', w)
  {
    forall w: nat ensures WebhookKeys(db', w) {
      assert WebhookKeys(db, w);
    }
  }

  lemma FrameSubs(db: Db, db': Db)
    requires forall i: nat :: SubKeys(db, i)
    requires AddsNone(db, db', OfSub) && |db.subs| <= |db'.subs|
    requires forall i :: 0 <= i < |db.subs| && Over(db.subs[i].status) ==> db'.subs[i].status == db.subs[i].status
    ensures forall i: nat :: SubKeys(db', i)
  {
    forall i: nat ensures SubKeys(db', i) {
      assert SubKeys(db, i);
    }
  }

  lemma FramePlans(db: Db, db': Db)
    requires forall idem: string :: PlanKeys(db, idem)
    requires AddsNone(db, db', OfPlanChange)
    ensures forall idem: string :: PlanKeys(db', idem)
  {
    forall idem: string ensures PlanKeys(db', idem) {
      assert PlanKeys(db, idem);
    }
  }

  /* ---------- each operation ---------- */

  lemma PostFresh(db: Db, e: Entry)
    requires Distinct(db.outbox) && DistinctKeys(db.ledger) && e.key !in KeysOf(db.ledger)
    ensures
      var db' := Post(db, e);
      && Distinct(db'.outbox) && DistinctKeys(db'.ledger)
      && db'.ledger == db.ledger + [e]
      && KeysOf(db'.ledger) == KeysOf(db.ledger) + {e.key}
      && (forall k :: k in db'.outbox <==> k in db.outbox || k == EntryPosted(e.key))
      && Total(db'.ledger, InvoicePaid)
         == Total(db.ledger, InvoicePaid) + (if e.kind == InvoicePaid then e.amount else 0)
  {
    PostKeepsDistinct(db.ledger, e);
    TotalAppend(db.ledger, e, InvoicePaid);
  }

  lemma CreateKeepsInv(db: Db, org: nat, plan: nat, key: string, now: Instant, env: Env)
    requires Inv(db, env)
    ensures KeysInv(Create(db, org, plan, key, now, env)) && MoneyInv(Create(db, org, plan, key, now, env))
  {
    var db' := Create(db, org, plan, key, now, env);
    forall w: nat ensures WebhookKeys(db', w) { assert WebhookKeys(db, w); }
    forall i: nat ensures SubKeys(db', i) { assert SubKeys(db, i); }
    forall idem: string ensures PlanKeys(db', idem) { assert PlanKeys(db, idem); }
  }

  /** Changing one subscription without reviving it disturbs no key. */
  lemma SetSubKeepsInv(db: Db, i: nat, sub: Sub, env: Env)
    requires Inv(db, env) && i < |db.subs|
    requires Over(db.subs[i].status) ==> sub.status == db.subs[i].status
    ensures KeysInv(SetSub(db, i, sub)) && MoneyInv(SetSub(db, i, sub))
  {
    var db' := SetSub(db, i, sub);
    forall w: nat ensures WebhookKeys(db', w) { assert WebhookKeys(db, w); }
    forall j: nat ensures SubKeys(db', j) { assert SubKeys(db, j); }
    forall idem: string ensures PlanKeys(db', idem) { assert PlanKeys(db, idem); }
  }

  lemma CancelKeepsInv(db: Db, i: nat, now: Instant, env: Env)
    requires Inv(db, env) && CanCancel(db, i)
    ensures KeysInv(Cancel(db, i, false, now)) && MoneyInv(Cancel(db, i, false, now))
    ensures Cancel(db, i, false, now).outbox == db.outbox + [SubscriptionKey(i, CancelNotice)]
  {
    var db' := Cancel(db, i, false, now);
    SetSubKeepsInv(db, i, db'.subs[i], env);
    var db1 := SetSub(db, i, db'.subs[i]);
    assert SubKeys(db, i);
    forall w: nat ensures WebhookKeys(db', w) { assert WebhookKeys(db1, w); }
    forall j: nat ensures SubKeys(db', j) { assert SubKeys(db1, j); }
    forall idem: string ensures PlanKeys(db', idem) { assert PlanKeys(db1, idem); }
  }

  lemma PersistKeepsInv(db: Db, id: string, eventType: EventType, payload: map<string, Json>, env: Env)
    requires Inv(db, env)
    ensures KeysInv(Persist(db, id, eventType, payload)) && MoneyInv(Persist(db, id, eventType, payload))
  {
    var db' := Persist(db, id, eventType, payload);
    if db' != db {
      assert db'.webhooks[..|db.webhooks|] == db.webhooks;
      forall w: nat ensures WebhookKeys(db', w) { assert WebhookKeys(db, w); }
      forall j: nat ensures SubKeys(db', j) { assert SubKeys(db, j); }
      forall idem: string ensures PlanKeys(db', idem) { assert PlanKeys(db, idem); }
      forall k | 0 <= k < |db'.ledger| ensures EntryInv(db'.ledger[k], db'.webhooks) {
        assert EntryInv(db.ledger[k], db.webhooks);
      }
    }
  }

  lemma AppendKeepsEntries(ledger: seq<Entry>, webhooks: seq<Webhook>, e: Entry)
    requires EntriesInv(ledger, webhooks) && EntryInv(e, webhooks)
    ensures EntriesInv(ledger + [e], webhooks)
  {
  }

  /** A posting that is not a payment leaves the money invariant alone. */
  lemma {:induction false} PostOtherKeepsMoney(db: Db, e: Entry)
    requires MoneyInv(db) && e.kind != InvoicePaid && !e.key.WebhookKey?
    ensures MoneyInv(Post(db, e))
  {
    TotalAppend(db.ledger, e, InvoicePaid);
    AppendKeepsEntries(db.ledger, db.webhooks, e);
  }

  lemma ReverseKeepsInv(db: Db, entry: nat, key: FreeKey)
    requires KeysInv(db) && MoneyInv(db)
    ensures KeysInv(Reverse(db, entry, key)) && MoneyInv(Reverse(db, entry, key))
  {
    if entry < |db.ledger| && key !in KeysOf(db.ledger) {
      var db' := Reverse(db, entry, key);
      PostFresh(db, ReversalOf(db.ledger, entry, key));
      PostOtherKeepsMoney(db, ReversalOf(db.ledger, entry, key));
      forall w: nat ensures WebhookKeys(db', w) { assert WebhookKeys(db, w); }
      forall i: nat ensures SubKeys(db', i) { assert SubKeys(db, i); }
      forall idem: string ensures PlanKeys(db', idem) { assert PlanKeys(db, idem); }
    }
  }

  ghost predicate OnlyProration(k: Key, idem: string) {
    k == PlanChangeKey(idem, Debit) || k == PlanChangeKey(idem, Credit)
  }

  lemma ProrationIsFresh(db: Db, sub: Sub, plan: nat, idem: string, env: Env)
    requires Distinct(db.outbox) && DistinctKeys(db.ledger)
    requires PlanChangeKey(idem, Debit) !in KeysOf(db.ledger) && PlanChangeKey(idem, Credit) !in KeysOf(db.ledger)
    ensures
      var db' := Proration(db, sub, plan, idem, env);
      && db' == db.(ledger := db'.ledger, outbox := db'.outbox)
      && Distinct(db'.outbox) && DistinctKeys(db'.ledger)
      && (forall k :: k in KeysOf(db'.ledger) && !OnlyProration(k, idem) ==> k in KeysOf(db.ledger))
      && (forall k :: k in db'.outbox && !(k.EntryPosted? && OnlyProration(k.entry, idem)) ==> k in db.outbox)
      && (forall k :: k in KeysOf(db.ledger) ==> k in KeysOf(db'.ledger))
      && (forall k :: k in db.outbox ==> k in db'.outbox)
  {
    var before, after := FlatPrice(sub.plan, env), FlatPrice(plan, env);
    if after > before {
      PostFresh(db, Entry(sub.org, None, ProrationDebit, 1, None, None, PlanChangeKey(idem, Debit)));
    } else if after < before {
      PostFresh(db, Entry(sub.org, None, ProrationCredit, -1, None, None, PlanChangeKey(idem, Credit)));
    }
  }

  lemma ProrationKeepsMoney(db: Db, sub: Sub, plan: nat, idem: string, env: Env)
    requires MoneyInv(db)
    ensures MoneyInv(Proration(db, sub, plan, idem, env))
  {
    PostOtherKeepsMoney(db, Entry(sub.org, None, ProrationDebit, 1, None, None, PlanChangeKey(idem, Debit)));
    PostOtherKeepsMoney(db, Entry(sub.org, None, ProrationCredit, -1, None, None, PlanChangeKey(idem, Credit)));
  }

  lemma ChangePlanAddsItsRows(db: Db, i: nat, plan: nat, idem: string, env: Env)
    requires KeysInv(db) && CanChangePlan(db, i, plan, idem, env)
    ensures
      var db' := ChangePlan(db, i, plan, idem, env);
      && Distinct(db'.outbox) && DistinctKeys(db'.ledger)
      && AddsNone(db, db', OfWebhook) && AddsNone(db, db', OfSub)
      && PlanChangeKey(idem, PlanChanged) in db'.outbox
      && (forall k :: k in KeysOf(db'.ledger) && !OnlyProration(k, idem) ==> k in KeysOf(db.ledger))
      && (forall k :: k in db'.outbox && !(k.EntryPosted? && OnlyProration(k.entry, idem)) ==>
            k in db.outbox || k == PlanChangeKey(idem, PlanChanged))
  {
    assert PlanKeys(db, idem);
    ProrationIsFresh(db, db.subs[i], plan, idem, env);
    EnqueueKeepsDistinct(Proration(db, db.subs[i], plan, idem, env).outbox, PlanChangeKey(idem, PlanChanged));
  }

  lemma ChangePlanKeepsInv(db: Db, i: nat, plan: nat, idem: string, env: Env)
    requires Inv(db, env) && CanChangePlan(db, i, plan, idem, env)
    ensures KeysInv(ChangePlan(db, i, plan, idem, env)) && MoneyInv(ChangePlan(db, i, plan, idem, env))
  {
    var db' := ChangePlan(db, i, plan, idem, env);
    ChangePlanAddsItsRows(db, i, plan, idem, env);
    ChangePlanKeepsSubs(db, i, plan, idem, env);
    ProrationKeepsMoney(db, db.subs[i], plan, idem, env);
    FrameWebhooks(db, db');
    FrameSubs(db, db');
    forall x: string ensures PlanKeys(db', x) { assert PlanKeys(db, x); }
  }

  /* ---------- processing a webhook ---------- */

  /** Given the foreign keys, a handler that does not finish has changed nothing. */
  lemma UnfinishedChangesNothing(db: Db, w: nat, now: Instant, env: Env)
    requires SubsInv(db, env) && w < |db.webhooks|
    ensures Dispatch(db, w, now, env).status != Processed ==> Dispatch(db, w, now, env).db == db
  {
  }

  lemma MarkKeepsInv(db: Db, w: nat, row: Webhook, env: Env)
    requires Inv(db, env) && w < |db.webhooks| && db.webhooks[w].status != Processed
    requires row.status != Processed && row.status != Processing
    requires row.payload == db.webhooks[w].payload && row.eventType == db.webhooks[w].eventType
    ensures Inv(db.(webhooks := db.webhooks[w := row]), env)
  {
    var db' := db.(webhooks := db.webhooks[w := row]);
    ReportedUpdate(db.webhooks, w, row);
    forall x: nat ensures WebhookKeys(db', x) { assert WebhookKeys(db, x); }
    forall j: nat ensures SubKeys(db', j) { assert SubKeys(db, j); }
    forall x: string ensures PlanKeys(db', x) { assert PlanKeys(db, x); }
    forall k | 0 <= k < |db'.ledger| ensures EntryInv(db'.ledger[k], db'.webhooks) {
      assert EntryInv(db.ledger[k], db.webhooks);
    }
  }

  /** A payment that goes through: one activation event, one ledger row, one announcement, all new. */
  lemma PaidAddsItsRows(db: Db, w: nat, now: Instant, env: Env)
    requires Inv(db, env) && w < |db.webhooks| && db.webhooks[w].status != Processed
    requires db.webhooks[w].eventType == InvoicePaidEvent && Dispatch(db, w, now, env).status == Processed
    ensures
      var h, payload := Dispatch(db, w, now, env).db, db.webhooks[w].payload;
      var target := Target(db, payload, Active);
      var posted := WebhookKey(w, InvoicePaidPosting);
      && target.Some?
      && h.webhooks == db.webhooks && h.dunning == db.dunning
      && h.subs == db.subs[target.value := EnterStatus(db.subs[target.value], Active, now)]
      && h.outbox == db.outbox + [WebhookKey(w, Activated), EntryPosted(posted)]
      && h.ledger == db.ledger + [Entry(db.subs[target.value].org, None, InvoicePaid, AmountPaid(payload), None,
                                     Some(InvoiceId(payload)), posted)]
  {
    assert WebhookKeys(db, w);
    var payload := db.webhooks[w].payload;
    var target := Target(db, payload, Active);
    assert SubInv(db.subs[target.value], env);
  }

  lemma PaidKeepsKeys(db: Db, w: nat, now: Instant, env: Env)
    requires Inv(db, env) && w < |db.webhooks| && !Terminal(db.webhooks[w].status)
    requires db.webhooks[w].eventType == InvoicePaidEvent && Dispatch(db, w, now, env).status == Processed
    ensures KeysInv(Process(db, w, now, env))
  {
    var db' := Process(db, w, now, env);
    PaidAddsItsRows(db, w, now, env);
    StepKeepsSubs(db, ProcessStep(w, now), env);
    ProcessedKeepsKeys(db, db', w, WebhookKey(w, Activated), EntryPosted(WebhookKey(w, InvoicePaidPosting)));
  }

  /** The shape of a processed webhook: its row is marked and its own keys, and no others, are added. */
  lemma ProcessedKeepsKeys(db: Db, db': Db, w: nat, a: Key, b: Key)
    requires KeysInv(db) && w < |db.webhooks| && db.webhooks[w].status != Processed
    requires |db'.webhooks| == |db.webhooks| && db'.webhooks == db.webhooks[w := db'.webhooks[w]]
    requires db'.webhooks[w].status == Processed && db'.webhooks[w].eventType == db.webhooks[w].eventType
    requires db'.outbox == db.outbox + [a, b]
    requires
      if db.webhooks[w].eventType == InvoicePaidEvent then
        && a == WebhookKey(w, Activated) && b == EntryPosted(WebhookKey(w, InvoicePaidPosting))
        && |db'.ledger| == |db.ledger| + 1 && db'.ledger[..|db.ledger|] == db.ledger
        && db'.ledger[|db.ledger|].key == WebhookKey(w, InvoicePaidPosting)
      else
        && db.webhooks[w].eventType == PaymentFailedEvent
        && a == WebhookKey(w, PaymentFailed) && b == WebhookKey(w, PastDueNotice) && db'.ledger == db.ledger
    requires |db.subs| <= |db'.subs|
    requires forall i :: 0 <= i < |db.subs| && Over(db.subs[i].status) ==> db'.subs[i].status == db.subs[i].status
    ensures KeysInv(db')
  {
    assert WebhookKeys(db, w);
    KeysAfter(db, db', a, b);
    if db.webhooks[w].eventType == InvoicePaidEvent {
      var e := db'.ledger[|db.ledger|];
      assert db'.ledger == db.ledger + [e];
      PostKeepsDistinct(db.ledger, e);
    }
    FrameSubs(db, db');
    FramePlans(db, db');
    forall x: nat ensures WebhookKeys(db', x) {
      assert WebhookKeys(db, x);
      ProcessedWebhookKeys(db, db', w, a, b, x);
    }
  }

  lemma ProcessedWebhookKeys(db: Db, db': Db, w: nat, a: Key, b: Key, x: nat)
    requires WebhookKeys(db, x) && w < |db.webhooks| && db.webhooks[w].status != Processed
    requires |db'.webhooks| == |db.webhooks| && db'.webhooks == db.webhooks[w := db'.webhooks[w]]
    requires db'.webhooks[w].status == Processed && db'.webhooks[w].eventType == db.webhooks[w].eventType
    requires forall k :: k in db'.outbox <==> k in db.outbox || k == a || k == b
    requires
      if db.webhooks[w].eventType == InvoicePaidEvent then
        && a == WebhookKey(w, Activated) && b == EntryPosted(WebhookKey(w, InvoicePaidPosting))
        && KeysOf(db'.ledger) == KeysOf(db.ledger) + {WebhookKey(w, InvoicePaidPosting)}
      else
        && db.webhooks[w].eventType == PaymentFailedEvent
        && a == WebhookKey(w, PaymentFailed) && b == WebhookKey(w, PastDueNotice) && db'.ledger == db.ledger
    ensures WebhookKeys(db', x)
  {
  }

  /** Appending two new keys keeps the outbox free of duplicates. */
  lemma KeysAfter(db: Db, db': Db, a: Key, b: Key)
    requires Distinct(db.outbox) && db'.outbox == db.outbox + [a, b] && a !in db.outbox && b !in db.outbox && a != b
    ensures Distinct(db'.outbox) && forall k :: k in db'.outbox <==> k in db.outbox || k == a || k == b
  {
  }

  lemma PaidKeepsMoney(db: Db, w: nat, now: Instant, env: Env)
    requires Inv(db, env) && w < |db.webhooks| && !Terminal(db.webhooks[w].status)
    requires db.webhooks[w].eventType == InvoicePaidEvent && Dispatch(db, w, now, env).status == Processed
    ensures MoneyInv(Process(db, w, now, env))
  {
    var db' := Process(db, w, now, env);
    PaidAddsItsRows(db, w, now, env);
    TotalAppend(db.ledger, db'.ledger[|db.ledger|], InvoicePaid);
    ReportedUpdate(db.webhooks, w, db'.webhooks[w]);
    forall k | 0 <= k < |db'.ledger| ensures EntryInv(db'.ledger[k], db'.webhooks) {
      assert k < |db.ledger| ==> EntryInv(db.ledger[k], db.webhooks);
    }
  }

  lemma PaymentFailedAddsItsRows(db: Db, w: nat, now: Instant, env: Env)
    requires Inv(db, env) && w < |db.webhooks| && db.webhooks[w].status != Processed
    requires db.webhooks[w].eventType == PaymentFailedEvent && Dispatch(db, w, now, env).status == Processed
    ensures
      var h, payload := Dispatch(db, w, now, env).db, db.webhooks[w].payload;
      var target := Target(db, payload, PastDue);
      && target.Some?
      && h.webhooks == db.webhooks && h.ledger == db.ledger
      && h.subs == db.subs[target.value := EnterStatus(db.subs[target.value], PastDue, now)]
      && h.outbox == db.outbox + [WebhookKey(w, PaymentFailed), WebhookKey(w, PastDueNotice)]
  {
    assert WebhookKeys(db, w);
    var target := Target(db, db.webhooks[w].payload, PastDue);
    assert SubInv(db.subs[target.value], env);
  }

  lemma PaymentFailedKeepsInv(db: Db, w: nat, now: Instant, env: Env)
    requires Inv(db, env) && w < |db.webhooks| && !Terminal(db.webhooks[w].status)
    requires db.webhooks[w].eventType == PaymentFailedEvent && Dispatch(db, w, now, env).status == Processed
    ensures KeysInv(Process(db, w, now, env)) && MoneyInv(Process(db, w, now, env))
  {
    var db' := Process(db, w, now, env);
    PaymentFailedAddsItsRows(db, w, now, env);
    StepKeepsSubs(db, ProcessStep(w, now), env);
    ProcessedKeepsKeys(db, db', w, WebhookKey(w, PaymentFailed), WebhookKey(w, PastDueNotice));
    PaymentFailedKeepsMoney(db, w, now, env);
  }

  lemma PaymentFailedKeepsMoney(db: Db, w: nat, now: Instant, env: Env)
    requires Inv(db, env) && w < |db.webhooks| && !Terminal(db.webhooks[w].status)
    requires db.webhooks[w].eventType == PaymentFailedEvent && Dispatch(db, w, now, env).status == Processed
    ensures MoneyInv(Process(db, w, now, env))
  {
    var db' := Process(db, w, now, env);
    PaymentFailedAddsItsRows(db, w, now, env);
    ReportedUpdate(db.webhooks, w, db'.webhooks[w]);
    forall k | 0 <= k < |db'.ledger| ensures EntryInv(db'.ledger[k], db'.webhooks) {
      assert EntryInv(db.ledger[k], db.webhooks);
    }
  }

  lemma ProcessKeepsInv(db: Db, w: nat, now: Instant, env: Env)
    requires Inv(db, env)
    ensures KeysInv(Process(db, w, now, env)) && MoneyInv(Process(db, w, now, env))
  {
    if w < |db.webhooks| && !Terminal(db.webhooks[w].status) {
      UnfinishedChangesNothing(db, w, now, env);
      var h := Dispatch(db, w, now, env);
      if h.status != Processed {
        MarkKeepsInv(db, w, Process(db, w, now, env).webhooks[w], env);
      } else if db.webhooks[w].eventType == InvoicePaidEvent {
        PaidKeepsKeys(db, w, now, env);
        PaidKeepsMoney(db, w, now, env);
      } else {
        PaymentFailedKeepsInv(db, w, now, env);
      }
    }
  }

  lemma ReplayKeepsInv(db: Db, w: nat, now: Instant, env: Env)
    requires Inv(db, env)
    ensures KeysInv(Replay(db, w, now, env)) && MoneyInv(Replay(db, w, now, env))
  {
    if w < |db.webhooks| && db.webhooks[w].status != Processed && db.webhooks[w].status != Skipped {
      var reset := db.webhooks[w].(status := Received);
      MarkKeepsInv(db, w, reset, env);
      ProcessKeepsInv(db.(webhooks := db.webhooks[w := reset]), w, now, env);
    }
  }

  /* ---------- the sweep ---------- */

  /** A revocation writes its marker, its announcement and its event, all new. */
  lemma RevokeAddsItsRows(db: Db, i: nat, now: Instant)
    requires KeysInv(db) && i < |db.subs| && !Over(db.subs[i].status)
    ensures
      var db', marker := Revoke(db, i, now), GraceKey(i, RevokedMarker);
      && db'.webhooks == db.webhooks && db'.subs == db.subs[i := Revoked(db.subs[i], now)]
      && db'.ledger == db.ledger + [Entry(db.subs[i].org, None, RevokedAccess, 0, None, None, marker)]
      && db'.outbox == db.outbox + [EntryPosted(marker), GraceKey(i, AccessRevoked)]
  {
    assert SubKeys(db, i);
  }

  lemma RevokeKeepsInv(db: Db, i: nat, now: Instant)
    requires KeysInv(db) && MoneyInv(db) && i < |db.subs| && !Over(db.subs[i].status)
    ensures KeysInv(Revoke(db, i, now)) && MoneyInv(Revoke(db, i, now))
  {
    var db' := Revoke(db, i, now);
    RevokeAddsItsRows(db, i, now);
    assert SubKeys(db, i);
    var e := Entry(db.subs[i].org, None, RevokedAccess, 0, None, None, GraceKey(i, RevokedMarker));
    PostKeepsDistinct(db.ledger, e);
    PostOtherKeepsMoney(db, e);
    KeysAfter(db, db', EntryPosted(GraceKey(i, RevokedMarker)), GraceKey(i, AccessRevoked));
    FrameWebhooks(db, db');
    FramePlans(db, db');
    forall j: nat ensures SubKeys(db', j) { assert SubKeys(db, j); }
  }

  lemma {:induction false} SweepKeepsInv(db: Db, n: nat, now: Instant, locked: set<nat>, env: Env)
    requires KeysInv(db) && MoneyInv(db) && n <= |db.subs|
    ensures KeysInv(SweepTo(db, n, now, locked, env)) && MoneyInv(SweepTo(db, n, now, locked, env))
  {
    if n == 0 {
    } else {
      SweepKeepsInv(db, n - 1, now, locked, env);
      var before := SweepTo(db, n - 1, now, locked, env);
      if Expired(before.subs[n - 1], n - 1, now, locked, env) {
        RevokeKeepsInv(before, n - 1, now);
      }
    }
  }

  /* ---------- theorems over runs ---------- */

  lemma StepKeepsInv(db: Db, step: Step, env: Env)
    requires Inv(db, env)
    ensures Inv(Apply(db, step, env), env)
  {
    StepKeepsSubs(db, step, env);
    match step
    case CreateStep(org, plan, key, now) => CreateKeepsInv(db, org, plan, key, now, env);
    case LinkStep(i, externalId) =>
      if i < |db.subs| {
        SetSubKeepsInv(db, i, db.subs[i].(externalId := Some(externalId)), env);
      }
    case CancelStep(i, atPeriodEnd, now) =>
      if i < |db.subs| && atPeriodEnd {
        SetSubKeepsInv(db, i, db.subs[i].(cancelAtPeriodEnd := true), env);
      } else if CanCancel(db, i) {
        CancelKeepsInv(db, i, now, env);
      }
    case ChangePlanStep(i, plan, idem) =>
      if CanChangePlan(db, i, plan, idem, env) {
        ChangePlanKeepsInv(db, i, plan, idem, env);
      }
    case PersistStep(id, eventType, payload) => PersistKeepsInv(db, id, eventType, payload, env);
    case ProcessStep(w, now) => ProcessKeepsInv(db, w, now, env);
    case ReplayStep(w, now) => ReplayKeepsInv(db, w, now, env);
    case SweepStep(now, locked) => SweepKeepsInv(db, |db.subs|, now, locked, env);
    case ReverseStep(entry, key) => ReverseKeepsInv(db, entry, key);
  }

  lemma {:induction false} RunKeepsInv(db: Db, steps: seq<Step>, env: Env)
    requires Inv(db, env)
    ensures Inv(After(db, steps, env), env)
    decreases |steps|
  {
    if steps == [] {
    } else {
      StepKeepsInv(db, steps[0], env);
      RunKeepsInv(Apply(db, steps[0], env), steps[1..], env);
    }
  }

  lemma EmptyIsInv(env: Env)
    ensures Inv(EMPTY, env)
  {
    forall w: nat ensures WebhookKeys(EMPTY, w) {}
    forall i: nat ensures SubKeys(EMPTY, i) {}
    forall x: string ensures PlanKeys(EMPTY, x) {}
  }

  /** After every run, the ledger's payments add up to what the processed payment webhooks report, whatever was ingested
      twice, processed again or replayed. */
  lemma PaymentsAreConserved(steps: seq<Step>, env: Env)
    ensures
      var db := After(EMPTY, steps, env);
      Total(db.ledger, InvoicePaid) == Reported(db.webhooks)
  {
    EmptyIsInv(env);
    RunKeepsInv(EMPTY, steps, env);
  }

  /** After every run, a payment webhook has exactly one ledger row, with its amount, when it is processed and none
      otherwise; and each of its outbox rows exists exactly once or not at all alike. */
  lemma OneSetOfRowsPerWebhook(steps: seq<Step>, w: nat, env: Env)
    ensures
      var db := After(EMPTY, steps, env);
      && WebhookKeys(db, w)
      && Distinct(db.outbox)
      && (HasStatus(db, w, InvoicePaidEvent, Processed) ==>
            exists k :: 0 <= k < |db.ledger| && db.ledger[k].key == WebhookKey(w, InvoicePaidPosting)
              && db.ledger[k].kind == InvoicePaid && db.ledger[k].amount == AmountPaid(db.webhooks[w].payload)
              && forall m :: 0 <= m < |db.ledger| && db.ledger[m].key == WebhookKey(w, InvoicePaidPosting) ==> m == k)
  {
    EmptyIsInv(env);
    RunKeepsInv(EMPTY, steps, env);
    var db := After(EMPTY, steps, env);
    assert WebhookKeys(db, w);
    if HasStatus(db, w, InvoicePaidEvent, Processed) {
      var k :| 0 <= k < |db.ledger| && db.ledger[k].key == WebhookKey(w, InvoicePaidPosting);
      assert EntryInv(db.ledger[k], db.webhooks);
    }
  }

  /** After every run, processing or replaying a webhook that then ends failed or skipped changes only its own row. */
  lemma FailedWebhookChangesOnlyItself(steps: seq<Step>, w: nat, now: Instant, replay: bool, env: Env)
    ensures
      var db := After(EMPTY, steps, env);
      var db' := if replay then Replay(db, w, now, env) else Process(db, w, now, env);
      && |db'.webhooks| == |db.webhooks|
      && (w < |db.webhooks| && (db'.webhooks[w].status == Failed || db'.webhooks[w].status == Skipped) ==>
            db' == db.(webhooks := db.webhooks[w := db'.webhooks[w]]))
  {
    EmptyIsInv(env);
    RunKeepsSubs(EMPTY, steps, env);
    var db := After(EMPTY, steps, env);
    if w < |db.webhooks| {
      UnfinishedChangesNothing(db, w, now, env);
      var reset := db.(webhooks := db.webhooks[w := db.webhooks[w].(status := Received)]);
      UnfinishedChangesNothing(reset, w, now, env);
      if replay {
        var row := Replay(db, w, now, env).webhooks[w];
        assert reset.webhooks[w := row] == db.webhooks[w := row];
      }
    }
  }

  /** After every run the clock and cancellation columns agree with the status, and a subscription that is canceled or
      unpaid stays so in every continuation. */
  lemma StatusColumnsAgree(steps: seq<Step>, more: seq<Step>, env: Env)
    ensures
      var db := After(EMPTY, steps, env);
      && SubsInv(db, env)
      && |db.subs| <= |After(db, more, env).subs|
      && (forall i :: 0 <= i < |db.subs| && Over(db.subs[i].status) ==>
            After(db, more, env).subs[i].status == db.subs[i].status)
  {
    RunKeepsSubs(EMPTY, steps, env);
    RunKeepsSubs(After(EMPTY, steps, env), more, env);
  }

  /** A cancellation scheduled for the end of the period is not forgotten: in no run does the subscription end unpaid;
      it is canceled, or it is not over and still marked. */
  ghost predicate WillBeCanceled(db: Db, i: nat) {
    i < |db.subs| && (db.subs[i].status == Canceled || (!Over(db.subs[i].status) && db.subs[i].cancelAtPeriodEnd))
  }

  lemma StepKeepsSchedule(db: Db, step: Step, env: Env, i: nat)
    requires SubsInv(db, env) && WillBeCanceled(db, i)
    ensures WillBeCanceled(Apply(db, step, env), i)
  {
    match step
    case SweepStep(now, locked) => SweepToSubs(db, |db.subs|, now, locked, env);
    case ProcessStep(w, now) => ProcessKeepsSchedule(db, w, now, env, i);
    case ReplayStep(w, now) =>
      if w < |db.webhooks| {
        ProcessKeepsSchedule(db.(webhooks := db.webhooks[w := db.webhooks[w].(status := Received)]), w, now, env, i);
      }
    case _ =>
  }

  lemma ProcessKeepsSchedule(db: Db, w: nat, now: Instant, env: Env, i: nat)
    requires WillBeCanceled(db, i)
    ensures WillBeCanceled(Process(db, w, now, env), i)
  {
    if w < |db.webhooks| {
      DispatchSubs(db, w, now, env);
    }
  }

  lemma {:induction false} ScheduledCancellationIsKept(db: Db, steps: seq<Step>, env: Env, i: nat)
    requires SubsInv(db, env) && WillBeCanceled(db, i)
    ensures WillBeCanceled(After(db, steps, env), i)
    decreases |steps|
  {
    if steps == [] {
    } else {
      StepKeepsSubs(db, steps[0], env);
      StepKeepsSchedule(db, steps[0], env, i);
      ScheduledCancellationIsKept(Apply(db, steps[0], env), steps[1..], env, i);
    }
  }

  /** No genuine event is swallowed by its idempotency key: after every run a trial start, a cancellation and a
      revocation that happen each add their rows. */
  lemma EventsAreNotSwallowed(steps: seq<Step>, env: Env)
    ensures
      var db := After(EMPTY, steps, env);
      && (forall org, plan, key, now: Instant ::
            CanCreate(db, org, plan, key, env) && InitialStatus(env.catalog[plan]) == Trialing ==>
            Create(db, org, plan, key, now, env).outbox == db.outbox + [SubscriptionKey(|db.subs|, TrialStarted)])
      && (forall i: nat, now: Instant :: CanCancel(db, i) ==>
            Cancel(db, i, false, now).outbox == db.outbox + [SubscriptionKey(i, CancelNotice)])
      && (forall i: nat, now: Instant :: i < |db.subs| && db.subs[i].status == PastDue ==>
            && Revoke(db, i, now).outbox
               == db.outbox + [EntryPosted(GraceKey(i, RevokedMarker)), GraceKey(i, AccessRevoked)]
            && |Revoke(db, i, now).ledger| == |db.ledger| + 1)
  {
    EmptyIsInv(env);
    RunKeepsInv(EMPTY, steps, env);
    var db := After(EMPTY, steps, env);
    assert SubKeys(db, |db.subs|);
    forall i: nat, now: Instant | CanCancel(db, i)
      ensures Cancel(db, i, false, now).outbox == db.outbox + [SubscriptionKey(i, CancelNotice)]
    {
      CancelKeepsInv(db, i, now, env);
    }
    forall i: nat, now: Instant | i < |db.subs| && db.subs[i].status == PastDue
      ensures
        && Revoke(db, i, now).outbox
           == db.outbox + [EntryPosted(GraceKey(i, RevokedMarker)), GraceKey(i, AccessRevoked)]
        && |Revoke(db, i, now).ledger| == |db.ledger| + 1
    {
      RevokeAddsItsRows(db, i, now);
    }
  }
}
