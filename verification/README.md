# Billing platform verification

A Dafny model of the transactional core of a SaaS billing back end: the outbox relay, the subscription lifecycle with its
webhooks and ledger, usage metering and period close, reconciliation, dunning, entitlement evaluation behind two caches,
API-key authentication and rate limiting.  `dafny verify dfyconfig.toml` checks the whole project.

Each table is a sequence or map.  A service call is one transaction, written twice: as a function from the tables before to
the tables after, and as a method of a class that updates the tables in place and is proved to compute that function.  Where
the original really interleaves, the model does too: relays claim, send, commit or crash independently; every Redis, database
and cache access of an entitlement evaluation is a step of its own; and so is every access of an authentication.  The main
results quantify over every sequence of such operations or steps, of any length.

| files | component |
|---|---|
| `Outbox`, `Relay`, `OutboxStore` | outbox rows, dead letters, the Kafka log and any number of relays |
| `Subscriptions`, `Entitlements`, `EntitlementCache`, `EntitlementBump`, `EntitlementStore` | statuses, grace, access, snapshots and their caches |
| `HotpathCache`, `AuthRevocation`, `RateLimit` | double-indexed process caches, key revocation, fixed windows |
| `Ledger`, `Webhooks`, `Lifecycle`, `LifecycleRuns`, `Payments`, `Reversals`, `BillingStore` | keys, postings, webhooks, subscriptions, the grace sweep |
| `Dunning` | campaigns, attempts and sweeps |
| `Sums`, `Usage`, `UsageRuns`, `UsageStore` | usage events, hourly buckets, period reads |
| `Invoicing`, `PeriodBilling`, `MeteredBilling`, `BooksStore`, `Reconciliation`, `PaymentReconciliation` | invoices, charges, closes, both reconciliations |
| `Text`, `Wrappers` | decimal identifiers, optional values |

## What the model found

- A sweep that finds dunning attempts 2 and 3 due together can collect on attempt 2 and still mark the campaign exhausted.
  Such a sweep is reachable (`Dunning.UnsweptWeekHidesSuccess`), and `Dunning.SuccessCompletesIffNotLate` gives the exact
  condition.
- `LedgerService.reverse` accepts any key.  A reversal under the key of a later period close makes that close post no charge,
  and reconciliation then reports the invoice; `Invoicing.ReportedIffKeyTaken` gives the exact condition.  The
  first call then reports the foreign entry and a repetition none (`PeriodBilling.RepeatedCloseIsNoop`).  Under the key of a
  waiting payment it makes that payment vanish from the ledger; `Payments.PaymentIsPostedIffKeyFree` gives the exact condition.
- A snapshot build in flight across a version bump stores the old state under the new version
  (`EntitlementBump.BumpCanBeOvertaken`), so a version does not identify a database state.  A bump takes
  effect at its DELETE: it is seen exactly when no evaluation in flight at that moment holds an older snapshot
  (`EntitlementBump.InterruptedBumpIsSeenIffNoOldFlight`).  An evaluation that reads between the INCR and the DELETE slips
  through (`EntitlementBump.EvaluationCanSlipThrough`), so from its start a bump is sure to be seen exactly when nothing old
  is in flight or served by Redis (`EntitlementBump.WholeBumpIsSeenIffNothingOld`).
- `invoice.paid` for a subscription that is already active fails, because the status table has no active-to-active edge.
  Over every run a subscription has at most one more processed payment than payment failures, so a renewal that follows a
  paid period is never posted (`Payments.RenewalsAreRefused`); `Payments.PaymentGoesThroughIffWaiting` gives the exact
  condition and `Payments.SecondPaymentIsLost` a run.
- The `subscription.access_` alternative of the topic routing cannot be reached, although the routing table lists an
  entitlement topic for such events; the model follows the code.
- Authentication reads through the replica-aware session, so a revoked key is accepted for up to the replica lag plus the
  time from read to cache plus the auth TTL less one instant.  That bound is reached for every configuration
  (`AuthRevocation.ExactLifetimeOfARevokedKey`), and the plain TTL holds exactly without lag and delay
  (`AuthRevocation.PlainTtlHoldsIffNoLagAndNoDelay`).
- Usage reported for an hour that the aggregation sweep's lookback no longer reaches is stored and never billed, unless that
  hour is aggregated by name; `UsageRuns.ReadIsExactIffSwept` gives the exact condition for a complete period read, and
  `MeteredBilling.InvoicePricesTheEventsIffSwept` for a complete bill.
- The shown usage and the quota windows of a period start on the hour that the period starts in, a close starts at the next
  one: a first period that starts inside an hour shows usage that no close bills
  (`MeteredBilling.MeteredIsBilledPlusFirstHour`, `MeteredBilling.FirstHourIsShownNotBilled`).

## Model

| member | source | states |
|---|---|---|
| `Outbox.AccessEventsStayOnSubscriptionTopic` | src/billing_platform/outbox_relay/publisher.py:40-51 | access events are routed to the subscription topic, and the entitlement topic receives exactly the `entitlement.` events: the later alternative is unreachable |
| `Outbox.EventIdIdentifiesRow` | src/billing_platform/outbox_relay/publisher.py:54-56 | two event ids are equal exactly when they come from the same outbox row |
| `Outbox.KnownPartitions` | src/billing_platform/outbox_relay/publisher.py:83-93 | exactly the canonical decimals of existing organizations resolve, so a non-numeric key never does |
| `Relay.HandledFateIsExact` | src/billing_platform/outbox_relay/publisher.py:230-280 | a handled claimable row is published without a letter exactly when its organization is known and the broker acknowledged it, with exactly one message on its own topic; otherwise it has one more attempt, is dead with one letter exactly when that was the last, and exactly the stored copies went out |
| `Outbox.RoutingIsByPrefix` | src/billing_platform/outbox_relay/publisher.py:40-51 | each of five prefixes has its own topic and everything else the dead-letter topic, each exactly |
| `Outbox.PartitionOfOrganization` | src/billing_platform/outbox_relay/publisher.py:83-93 | a partition key resolves exactly when it is a plain decimal, without leading zero, of an existing organization's id |
| `Relay.CommittedSendHasItsFate` | src/billing_platform/outbox_relay/publisher.py:183-287 | whatever others do between send and commit, the row is delivered exactly when its organization was known and the broker acknowledged, else dead exactly on the last attempt, else pending with one more |
| `Relay.EveryRowHasOneFate` | src/billing_platform/outbox_relay/publisher.py:183-287 | over every interleaving of enqueues, relays, crashes and replays, each committed row is exactly one of pending with attempts left, delivered, or dead with one open letter, and claims in flight are disjoint |
| `Relay.StepPreservesInv` | src/billing_platform/outbox_relay/publisher.py:163-280 | the inductive invariant behind it, across every step including uncommitted sessions |
| `Relay.DeliveredForEver` | src/billing_platform/outbox_relay/dlq_replay.py:58-95 | no continuation loses a row, changes its message or reopens a delivered row |
| `Relay.ReplayReopensDeadRow` | src/billing_platform/outbox_relay/dlq_replay.py:86-91 | replaying an open letter finds a dead row, makes it pending, and leaves every other row and letter alone |
| `Relay.DeadRowHasOneOpenLetter` | src/billing_platform/outbox_relay/dlq_replay.py:58-95 | in every reachable state a dead row has exactly one letter that a replay accepts |
| `Relay.ReplayAlwaysFindsItsRow` | src/billing_platform/outbox_relay/dlq_replay.py:74-84 | the outbox row of a letter is never missing in a reachable state |
| `Relay.NonNumericKeyNeverDelivered` | src/billing_platform/outbox_relay/publisher.py:230-251 | a row whose partition key is not numeric is pending or dead in every reachable state |
| `Relay.EventIdsDeduplicate` | src/billing_platform/outbox_relay/publisher.py:54-56 | in every run, crashes included, two log messages share an event id exactly when they share the outbox row |
| `Relay.FaithfulRunsSendOnce` | src/billing_platform/outbox_relay/publisher.py:253-280 | without crashes and with truthful send results a row is on its own topic at most once, replays included, and once when delivered |
| `Relay.CopiesAreExplained` | src/billing_platform/outbox_relay/publisher.py:183-287 | in every run, crashes included, the copies of a row on its own topic are one if it is delivered plus its stored unacknowledged sends plus its acknowledged sends that were rolled back |
| `Relay.CommitShrinksBacklog` | src/billing_platform/outbox_relay/publisher.py:230-280 | a committed poll that claimed a row strictly decreases the remaining attempts of pending rows |
| `Relay.BacklogBoundsPolls` | src/billing_platform/outbox_relay/publisher.py:163-180 | without new work, in any interleaving, the number of working polls plus the remaining backlog never exceeds the initial backlog |
| `Relay.DrainedMeansSettled` | src/billing_platform/outbox_relay/publisher.py:163-180 | an empty backlog means every row is delivered or dead, and while an unlocked row is pending a claim is not empty |
| `OutboxStore.PollIsARun` | src/billing_platform/outbox_relay/publisher.py:183-287 | one poll of the imperative relay is a run of the interleaving model with the same tables and log |
| `OutboxStore.PollShrinksBacklog` | src/billing_platform/outbox_relay/publisher.py:163-287 | without open transactions a crash-free poll of at least one row strictly shrinks a backlog that is not empty, whatever the broker does |
| `OutboxStore.PollsDrainTheBacklog` | src/billing_platform/outbox_relay/publisher.py:163-287 | from any consistent state without open transactions, as many such polls as there is backlog leave every row delivered or dead |
| `OutboxStore.HealthyPollsDeliverEverything` | src/billing_platform/outbox_relay/publisher.py:163-287 | with a broker that acknowledges and known organizations, as many polls as there is backlog deliver every pending row |
| `OutboxStore.PublishedBatchIsHandled` | src/billing_platform/outbox_relay/publisher.py:230-280 | each row of a batch is delivered, retried or dead by its own outcome, and rows outside it are untouched |
| `OutboxStore.OutboxTables.Enqueue` | src/billing_platform/services/outbox.py:22-51 | a known key changes nothing; else the row is appended as given, unpublished and without attempts; the id or nothing |
| `OutboxStore.OutboxTables.ClaimOutboxBatch` | src/billing_platform/outbox_relay/publisher.py:163-180 | distinct claimable unlocked rows, oldest first, at most the limit, and no older claimable row left out |
| `OutboxStore.OutboxTables.PollAndPublish` | src/billing_platform/outbox_relay/publisher.py:183-287 | a claimed row is delivered, with its message in the log, exactly when its organization is known and the broker acknowledged it; otherwise it has one more attempt and is dead exactly on the last; other rows are untouched; the count is the number of acknowledged rows |
| `OutboxStore.OutboxTables.PublishRow` | src/billing_platform/outbox_relay/publisher.py:230-280 | acknowledged: published, no letter, one message on its own topic; otherwise one more attempt, and published with a letter exactly on the last |
| `OutboxStore.OutboxTables.FailAttempt` | src/billing_platform/outbox_relay/publisher.py:96-114 | a claimable row stays claimable exactly while attempts are left; otherwise it gains exactly one open letter and at most a copy on the dead-letter topic; its message and every other row are unchanged |
| `OutboxStore.OutboxTables.ReplayDeadLetters` | src/billing_platform/outbox_relay/dlq_replay.py:35-112 | the status of each distinct id by its letter and row; a dry run changes nothing; a real one marks exactly the letters that can be replayed and resets exactly their rows |
| `OutboxStore.ReplayIsIdempotent` | src/billing_platform/outbox_relay/dlq_replay.py:41-45 | replaying the same letters twice is replaying them once |
| `Entitlements.EvaluateCheck` | src/billing_platform/services/entitlements.py:412-485 | a check is allowed exactly when the subscription grants access, the feature is an enabled one of the plan and a hard limit holds including the requested quantity |
| `Entitlements.BuiltAnswersAreExact` | src/billing_platform/services/entitlements.py:380-485 | an answer on a snapshot built at an instant, in terms of the database row: allowed exactly when the status or the days since the clock grant access and the feature allows the quantity; limit, used, remaining and reason of every answer |
| `Entitlements.AccessModes` | src/billing_platform/services/entitlements.py:266-283 | denied exactly without access, degraded exactly in the grace of a degraded feature |
| `Entitlements.RunChecks` | src/billing_platform/services/entitlements.py:412-485 | the loop answers every check, in order |
| `EntitlementCache.EveryAnswerIsBoundedlyStale` | src/billing_platform/services/entitlements.py:488-541 | in every interleaving each answer is right, in all its fields, for a state the database held within the replica lag of its read, read at most L1 TTL + Redis TTL + the longest store delays ago |
| `EntitlementCache.StepPreservesInv` | src/billing_platform/integrations/redis_cache.py:109-152 | provenance and age of every cached and in-flight snapshot, kept by every Redis, database and cache step |
| `EntitlementBump.InterruptedBumpIsSeen` | src/billing_platform/integrations/redis_cache.py:64-72 | with builds on the primary and no evaluation in flight at the DELETE that holds an older snapshot, every answer that misses L1 since the DELETE and every answer of the bumping process since its L1 drop rests on the bumped state or a later one, however the bump is interrupted |
| `EntitlementBump.InterruptedBumpIsSeenIffNoOldFlight` | src/billing_platform/integrations/redis_cache.py:64-152 | every run from the DELETE on, whatever happens before and after the L1 drop, sees the bump exactly when no evaluation in flight at the DELETE holds an older snapshot |
| `EntitlementBump.WholeBumpIsSeenIffNothingOld` | src/billing_platform/integrations/redis_cache.py:64-152 | every run from the start of a bump on, interrupted between INCR, DELETE and L1 drop at will, sees it exactly when at its start no evaluation in flight holds an older snapshot and Redis serves none |
| `EntitlementBump.EvaluationCanSlipThrough` | src/billing_platform/integrations/redis_cache.py:64-72 | while Redis serves an older snapshot, an evaluation that reads between the INCR and the DELETE answers from it after the bump |
| `EntitlementBump.OldSnapshotIsServed` | src/billing_platform/integrations/redis_cache.py:109-152 | a run after which nothing is in flight and Redis serves an older snapshot |
| `EntitlementBump.VersionCountsBumps` | src/billing_platform/integrations/redis_cache.py:64-72 | the version is the initial one plus the number of bumps, so each bump strictly increases it |
| `EntitlementBump.BumpCanBeOvertaken` | src/billing_platform/integrations/redis_cache.py:131-136 | a reachable build in flight across a bump stores the old state under the new version |
| `EntitlementStore.SnapshotCache.IncrementEntitlementVersion` | src/billing_platform/integrations/redis_cache.py:64-72 | a new version, no shared snapshot, no L1 entry of this process, exactly as the model's bump |
| `EntitlementStore.SnapshotCache.GetOrBuildCachedSnapshot` | src/billing_platform/integrations/redis_cache.py:109-152 | a live snapshot is returned; else the lock holder builds, stamps and stores; else the waiter takes what appears within fifty looks or builds without storing |
| `EntitlementStore.SnapshotCache.WaitForBuilder` | src/billing_platform/integrations/redis_cache.py:141-145 | a snapshot is found exactly when one of the fifty looks sees a live one |
| `EntitlementStore.SnapshotCache.Evaluate` | src/billing_platform/services/entitlements.py:488-541 | the answer evaluates the first live snapshot of L1 and Redis, or is right for the database row when there is none; L1, the shared key and the lock afterwards in each case |
| `HotpathCache.OpsKeepCoherent` | src/billing_platform/services/hotpath_cache.py:35-66 | after any operations every entry is the one its owner points back to |
| `HotpathCache.InvalidationIsComplete` | src/billing_platform/services/hotpath_cache.py:63-66 | after any operations invalidating an owner removes every entry of that owner |
| `HotpathCache.PutIsExact` | src/billing_platform/services/hotpath_cache.py:35-43 | caching maps the key to the value for the TTL, points its owner at it, drops the owner's previous entry and touches nothing else; without a TTL it does nothing |
| `HotpathCache.Hotpath.CacheAuthContext` | src/billing_platform/services/hotpath_cache.py:35-43 | the digest and key maps after caching, coherent again |
| `HotpathCache.Hotpath.GetCachedAuthContext` | src/billing_platform/services/hotpath_cache.py:46-60 | a hit exactly for a live entry of an unexpired key; a stale entry is removed |
| `HotpathCache.Hotpath.InvalidateAuthContext` | src/billing_platform/services/hotpath_cache.py:63-66 | no context of the key survives |
| `HotpathCache.Hotpath.SetL1Org` | src/billing_platform/services/hotpath_cache.py:107-115 | the organization maps after caching, coherent again |
| `HotpathCache.Hotpath.GetL1Org` | src/billing_platform/services/hotpath_cache.py:94-104 | a hit exactly for a live entry; a stale one is removed from both maps |
| `HotpathCache.Hotpath.DropL1Org` | src/billing_platform/services/hotpath_cache.py:87-91 | no identity of the organization survives |
| `AuthRevocation.RevokedKeyIsNotAcceptedLate` | src/billing_platform/services/api_keys.py:117-161 | in every interleaving of processes no acceptance of a revoked key is later than replica lag + the longest read-to-cache delay + the served part of the auth TTL after the revocation; cached hits strictly before the TTL is over |
| `AuthRevocation.LatestAcceptance` | src/billing_platform/services/api_keys.py:117-161 | for every TTL, lag and delay and every key that does not expire before, a run that accepts the key at exactly that moment |
| `AuthRevocation.ExactLifetimeOfARevokedKey` | src/billing_platform/services/api_keys.py:117-161 | a bound on acceptance holds of every run exactly when it allows for lag, delay and the served part of the TTL |
| `AuthRevocation.PlainTtlHoldsIffNoLagAndNoDelay` | src/billing_platform/services/api_keys.py:117-161 | every run accepts a revoked key for less than the plain TTL exactly when there is neither lag nor delay, and for at most the TTL exactly when they add up to at most one microsecond |
| `RateLimit.CounterCountsItsMinute` | src/billing_platform/services/rate_limit.py:16-22 | a key's counter equals its requests of that minute and outlives the minute, so it never resets inside it |
| `RateLimit.AllowedIffUnderLimit` | src/billing_platform/services/rate_limit.py:47-80 | a request is allowed exactly when fewer than the limit preceded it in its minute |
| `RateLimit.MinuteAllowsLimit` | src/billing_platform/services/rate_limit.py:47-80 | a minute with n requests allows exactly the first min(n, limit) |
| `RateLimit.SixtySecondsAllowTwiceTheLimit` | src/billing_platform/services/rate_limit.py:40-44 | any sixty-second interval allows at most twice the limit |
| `RateLimit.TwiceTheLimitIsReached` | src/billing_platform/services/rate_limit.py:40-44 | for every positive limit a trace in time order that reaches twice the limit within sixty seconds |
| `RateLimit.RateLimiter.CheckRateLimit` | src/billing_platform/services/rate_limit.py:47-80 | decision, remaining count and counters as a function of the trace; a refusal's hint is between 1 and 60 seconds |
| `Lifecycle.SweepIsExactAndAccessNeutral` | src/billing_platform/services/grace.py:135-173 | a row changes exactly when it is unlocked and the sweep comes no earlier than its clock plus its grace days of 86 400 seconds; access now and later is the same before and after |
| `Lifecycle.AccessUntilDeadline` | src/billing_platform/services/grace.py:22-47 | access is granted exactly while active or trialing, or past due and before clock plus grace days |
| `Lifecycle.CancellationIsExact` | src/billing_platform/services/subscriptions.py:159-197 | an immediate cancellation succeeds exactly from the four live statuses, dated and unscheduled; a scheduled one only sets its mark; all else is untouched |
| `LifecycleRuns.ScheduledCancellationIsKept` | src/billing_platform/services/grace.py:77-91 | in no run does a subscription with a scheduled cancellation end unpaid: it is canceled, or not over and still marked |
| `Subscriptions.TransitionTable` | src/billing_platform/domain/state_machines/subscription.py:12-42 | the status table as a rule: who may be canceled, become active, past due or unpaid |
| `LifecycleRuns.StatusColumnsAgree` | src/billing_platform/domain/state_machines/subscription.py:12-42 | after every run: past due implies a clock, a clock implies past due or canceled, canceled iff the date is set, and canceled and unpaid are absorbing |
| `LifecycleRuns.StepKeepsSubs` | src/billing_platform/services/subscriptions.py:159-197 | each operation keeps these facts for every row |
| `LifecycleRuns.EventsAreNotSwallowed` | src/billing_platform/services/grace.py:94-132 | after every run a trial start, a cancellation and a revocation each add their own rows: their keys are never taken |
| `LifecycleRuns.PaymentsAreConserved` | src/billing_platform/services/webhook_processor.py:161-216 | after every run the ledger's payments add up to the amounts of the processed payment webhooks |
| `LifecycleRuns.OneSetOfRowsPerWebhook` | src/billing_platform/services/webhook_processor.py:182-215 | a payment webhook has its one ledger row and one set of outbox rows exactly when it is processed |
| `LifecycleRuns.FailedWebhookChangesOnlyItself` | src/billing_platform/services/webhook_processor.py:69-90 | given the foreign keys, processing or replaying a webhook that ends failed or skipped changes only its own row |
| `LifecycleRuns.StepKeepsInv` | src/billing_platform/services/webhook_processor.py:55-102 | keys, money and status invariants together, kept by every operation, reversals under free keys included |
| `LifecycleRuns.PaidAddsItsRows` | src/billing_platform/services/webhook_processor.py:161-216 | a payment that goes through moves one subscription to active and adds exactly its three rows |
| `LifecycleRuns.PaymentFailedAddsItsRows` | src/billing_platform/services/webhook_processor.py:219-294 | a failed payment that goes through moves one subscription to past due, starts its clock and adds exactly its two events |
| `LifecycleRuns.RevokeAddsItsRows` | src/billing_platform/services/grace.py:94-132 | a revocation adds its marker, its announcement and its event, all new |
| `Payments.PaymentGoesThroughIffWaiting` | src/billing_platform/services/webhook_processor.py:132-150 | after every run an unfinished payment webhook is processed exactly when it names an incomplete, trialing or past-due subscription, a payment failure exactly when it names an active one; otherwise each fails |
| `Webhooks.ReadsInvoiceFields` | src/billing_platform/services/webhook_processor.py:105-112 | subscription, amount and id as read from an invoice event, type by type |
| `Webhooks.ReadsNothingElse` | src/billing_platform/services/webhook_processor.py:105-112 | nothing is read from a payload without an invoice object |
| `Payments.PaymentsNeedFailures` | src/billing_platform/domain/state_machines/subscription.py:12-42 | in every run from any consistent state the payments of a subscription that go through are balanced by its payment failures |
| `Payments.RenewalsAreRefused` | src/billing_platform/domain/state_machines/subscription.py:21-24 | over every run a subscription has at most one more processed payment than processed payment failures, and while it is active no payment goes through before a failure does |
| `Payments.SecondPaymentIsLost` | src/billing_platform/services/webhook_processor.py:161-216 | a run in which the second of two paid invoices fails and its money is missing from the ledger |
| `Payments.PaymentIsPostedIffKeyFree` | src/billing_platform/services/ledger.py:48-73 | a payment that goes through moves the ledger by what it reports exactly when its key is free or it reports nothing |
| `Payments.MarkerIsPostedIffKeyFree` | src/billing_platform/services/grace.py:94-132 | a revocation appends its marker exactly when the marker's key is free; the subscription is over either way |
| `Payments.ProrationIsPostedIffKeyFree` | src/billing_platform/services/plan_change.py:62-154 | a plan change moves the prorations by the sign of the price difference exactly when the prices are equal or the entry's key is free, and nothing otherwise |
| `Payments.ReversalCanSwallowAPayment` | src/billing_platform/services/ledger.py:76-116 | from every reachable state, a reversal filed under a waiting payment's key makes the ledger miss exactly that payment |
| `Payments.ReversalCanSwallowAMarker` | src/billing_platform/services/ledger.py:76-116 | likewise a reversal under a revocation marker's key: the revocation leaves no marker |
| `Ledger.ReversalCompensates` | src/billing_platform/services/ledger.py:76-116 | under a free key exactly one row is added, for the same organization and invoice, that refers to the entry and cancels its amount, so the organization's money changes by exactly minus that; under a taken key nothing changes |
| `Reversals.BalanceIsPostedLessReversed` | src/billing_platform/services/ledger.py:76-116 | after every run each reversal cancels an earlier entry of its organization and invoice, and a balance is what was posted less what was reversed |
| `BillingStore.BillingTables.PostLedger` | src/billing_platform/services/ledger.py:33-73 | insert and announce unless the key is posted; the entry under the key |
| `BillingStore.BillingTables.CreateSubscription` | src/billing_platform/services/subscriptions.py:49-117 | an existing key returns its row and changes nothing; refused exactly for an unpublished plan or unknown organization; the new row with its period of 30 or 365 days and its trial days |
| `BillingStore.BillingTables.CancelSubscription` | src/billing_platform/services/subscriptions.py:159-197 | scheduled: only the mark; immediate: exactly from the four live statuses, dated |
| `BillingStore.BillingTables.ChangePlanTo` | src/billing_platform/services/plan_change.py:62-154 | changed exactly for a live subscription, another published plan and a new key; then the plan alone changes on the row, with proration and event |
| `BillingStore.BillingTables.PersistWebhook` | src/billing_platform/services/webhooks.py:36-60 | insert unless the provider event id is known |
| `BillingStore.BillingTables.TransitionSubscription` | src/billing_platform/services/webhook_processor.py:132-150 | a legal move of the named subscription, with its clock started or cleared |
| `BillingStore.BillingTables.HandleInvoicePaid` | src/billing_platform/services/webhook_processor.py:161-216 | processed exactly when the payload names a subscription that waits for a payment, else nothing changes; with keys in order it adds exactly one ledger row of the amount, its announcement and one activation, and only that subscription changes, to active without a clock |
| `BillingStore.BillingTables.HandleInvoicePaymentFailed` | src/billing_platform/services/webhook_processor.py:219-294 | processed exactly when the subscription is active, else nothing changes; with keys in order it adds exactly two events, no money, starts the clock of that subscription alone, and a campaign runs if dunning is on |
| `BillingStore.BillingTables.ProcessWebhook` | src/billing_platform/services/webhook_processor.py:55-102 | terminal webhooks are left alone; otherwise processed, failed or skipped exactly by its event and the named subscription's status, one more attempt, nothing else changed unless processed, and the invariants of every run kept |
| `BillingStore.BillingTables.ReplayWebhook` | src/billing_platform/services/webhooks.py:63-102 | failed or stuck webhooks get one more try, processed exactly by event and status; finished ones are untouched |
| `BillingStore.BillingTables.RevokeExpired` | src/billing_platform/services/grace.py:65-132 | the subscription ends unpaid, or canceled as it had asked, without a clock and alone; access now and later is unchanged if its grace was over; with keys in order exactly the marker, its announcement and the event appear |
| `BillingStore.BillingTables.EnforceGraceExpiry` | src/billing_platform/services/grace.py:135-173 | exactly the unlocked rows change whose clock plus grace days has come; the count of changed rows and their organizations |
| `Dunning.EveryRunIsOrderly` | src/billing_platform/services/dunning.py:127-197 | in every run: one running campaign per subscription, attempts on days 1, 3 and 7 and none run early, executed attempts a prefix of 1, 2, 3 with one outbox row each that says what it should, and the campaign over once attempt 3 has run |
| `Dunning.RunKeepsInv` | src/billing_platform/services/dunning.py:300-402 | the same from any such state; finished campaigns are frozen and no attempt runs twice |
| `Dunning.SweepKeepsInv` | src/billing_platform/services/dunning.py:367-402 | a sweep runs exactly the due attempts, among them every overdue one of a running campaign, one outbox row each, and leaves campaigns that were not running untouched |
| `Dunning.SuccessCompletesIffNotLate` | src/billing_platform/services/dunning.py:357-360 | after every run of timely sweeps, the next sweep leaves a running campaign completed exactly if it collected, whatever the provider answers, exactly when attempts 2 and 3 are not due together |
| `Dunning.TimelyRunsAreHonest` | src/billing_platform/services/dunning.py:300-402 | in every run whose sweeps are timely a campaign is completed exactly when one of its attempts collected |
| `Dunning.UnsweptWeekHidesSuccess` | src/billing_platform/services/dunning.py:367-402 | a run, first swept on day 8, that collects on attempt 2 and ends exhausted |
| `Dunning.LateSweepHidesSuccess` | src/billing_platform/services/dunning.py:389-400 | in a late sweep a success of attempt 2 and a failure of attempt 3 leave the campaign exhausted |
| `Dunning.DunningTables.Start` | src/billing_platform/services/dunning.py:127-197 | found by key, already running, or new with three attempts on days 1, 3 and 7 |
| `Dunning.DunningTables.PauseCampaign` | src/billing_platform/services/dunning.py:219-241 | done exactly for a running campaign of the organization; then none of its attempts is due, no campaign of the subscription runs, its attempts and every other campaign are unchanged |
| `Dunning.DunningTables.ResumeCampaign` | src/billing_platform/services/dunning.py:244-270 | done exactly for a paused campaign of the organization whose subscription has none running; then it is the one running, its attempts and every other campaign are unchanged, and one at most runs |
| `Dunning.ResumeUndoesPause` | src/billing_platform/services/dunning.py:219-270 | after any run in which nobody resumes the paused campaign it is unchanged; resuming succeeds exactly when no campaign of the subscription runs, surely if none was started or resumed meanwhile, and restores the campaign alone |
| `Dunning.DunningTables.DueAttempts` | src/billing_platform/services/dunning.py:377-389 | exactly the due attempts of running campaigns, by schedule and number |
| `Dunning.DunningTables.Execute` | src/billing_platform/services/dunning.py:300-364 | the attempt has run now with its result and no other attempt or campaign changed; completed exactly on success; over after attempt 3; one more outbox row, with the event of its number and result |
| `Dunning.DunningTables.ProcessDueAttempts` | src/billing_platform/services/dunning.py:367-402 | the due attempts are loaded once and all run |
| `Usage.SweepIsExact` | src/billing_platform/services/usage.py:50-127 | the aggregates after a sweep are the only ones in which each bucket due holds what a direct query over its hour adds up and every other bucket is as before |
| `Usage.HourSumIsBucketSum` | src/billing_platform/services/usage.py:99-107 | the hour query sums exactly the events of the bucket |
| `Usage.PeriodReadIsEventSum` | src/billing_platform/services/usage.py:130-171 | with current buckets the period read is the direct event sum over the period rounded outward to hours |
| `Usage.BucketsReadEvents` | src/billing_platform/services/entitlements.py:303-320 | with current buckets a window read is the event sum between the ends rounded up to hours |
| `UsageRuns.UsageIsConserved` | src/billing_platform/services/usage.py:50-171 | after every sequence of ingests, sweeps and single aggregations, the events of a period are what a read sees plus what waits in the period's unswept hours |
| `UsageRuns.StaleIffUnswept` | src/billing_platform/services/usage.py:50-127 | in every run an aggregate is behind its events only if one came in after it was last computed, and with positive quantities exactly then |
| `UsageRuns.ReadIsExactIffSwept` | src/billing_platform/services/usage.py:130-171 | with positive quantities a period read never exceeds the events and equals them exactly when no hour of the period is unswept |
| `UsageRuns.LateUsageStaysUnswept` | src/billing_platform/services/usage.py:57-75 | an unswept hour outside every later window stays unswept whatever else happens |
| `UsageRuns.LateUsageIsNeverRead` | src/billing_platform/services/usage.py:57-75 | so its usage is missing from every later read of the period |
| `UsageRuns.LateUsageExample` | src/billing_platform/services/usage.py:50-75 | a concrete run with stored usage that is never read |
| `Usage.InsertAllKeepsOnePerKey` | src/billing_platform/services/usage.py:174-257 | any batches leave one event per organization and key |
| `Usage.FirstOccurrenceWins` | src/billing_platform/services/usage.py:205-223 | of several new events with one key the first is stored |
| `Usage.UnstampedUsageCountsNow` | src/billing_platform/services/usage.py:205-223 | a new event is stored as sent; without a timestamp it counts for the current hour and a sweep at its end reads it |
| `Usage.ResendingIsNoop` | src/billing_platform/services/usage.py:194-203 | sending a batch again changes nothing |
| `Usage.BatchesCompose` | src/billing_platform/services/usage.py:174-257 | with explicit timestamps, ingesting b1 ++ b2 stores what b1 then b2 store |
| `UsageStore.UsageTables.IngestUsageBatch` | src/billing_platform/services/usage.py:174-257 | accepted + duplicates = batch length, ids line up with the request, a naive timestamp rejects the batch |
| `UsageStore.UsageTables.AggregateHour` | src/billing_platform/services/usage.py:88-127 | the bucket of the hour becomes the sum of its events |
| `UsageStore.UsageTables.AggregatePendingHours` | src/billing_platform/services/usage.py:50-85 | each bucket with an event in the lookback window holds the direct sum over its hour, others are untouched, sweeping again changes nothing; the number of buckets |
| `UsageStore.UsageTables.PeriodUsage` | src/billing_platform/services/period_close.py:76-100 | exactly the features with positive usage and their sums |
| `Invoicing.ClosedInvoicesReconcile` | src/billing_platform/services/reconciliation.py:244-313 | after every run totals equal line sums, a closed invoice has exactly one equal usage charge, and with a positive total it is never reported |
| `Invoicing.ClosedIsFrozen` | src/billing_platform/services/invoices.py:91-122 | once not a draft, an invoice's lines, total, period and status never change |
| `Invoicing.ChargeIffKeyIsFree` | src/billing_platform/services/ledger.py:48-50 | a close posts its charge exactly when the key of the charge is free |
| `Invoicing.ReportedIffKeyTaken` | src/billing_platform/services/reconciliation.py:280-313 | a close with a positive bill is reported exactly when the key of its charge was taken |
| `Invoicing.UnchargedInvoiceIsReported` | src/billing_platform/services/reconciliation.py:244-277 | an invoice without a usage charge goes unreported exactly when its total is its payments' sum, else the earliest payment of its provider id, else zero |
| `Invoicing.ReversalCanTakeTheKey` | src/billing_platform/services/ledger.py:76-116 | a reversal under a caller's key that takes it |
| `PeriodBilling.ConsecutiveClosesBillOnce` | src/billing_platform/services/period_close.py:161-254 | consecutive closes with new keys over fixed non-negative aggregates bill each priced feature's usage of the whole span exactly once |
| `PeriodBilling.EveryHourInOnePeriod` | src/billing_platform/services/period_close.py:88-92 | every hour between the first and last boundary lies in exactly one period |
| `PeriodBilling.CloseBillsThePeriod` | src/billing_platform/services/period_close.py:194-215 | over non-negative aggregates a bill is the priced usage of its period; skipping features without usage loses nothing |
| `PeriodBilling.CloseBillsPositiveUsage` | src/billing_platform/services/period_close.py:88-100 | whatever the signs, a bill is the priced usage of exactly the features with positive usage |
| `MeteredBilling.CloseBillsEventsLessWaiting` | src/billing_platform/services/period_close.py:182-215 | after every run of ingests and aggregations a bill is the priced events of the period less those that wait in unswept hours |
| `MeteredBilling.InvoicePricesTheEventsIffSwept` | src/billing_platform/services/period_close.py:182-215 | with positive quantities and non-negative prices a total never exceeds the priced events and equals them exactly when no chargeable hour of the period is unswept |
| `MeteredBilling.MeteredIsBilledPlusFirstHour` | src/billing_platform/services/usage.py:130-171 | after every run the shown usage of a period is the billed usage plus the hour it starts in; they agree exactly when the period starts on the hour, or that hour is empty or behind the end |
| `MeteredBilling.FirstHourIsShownNotBilled` | src/billing_platform/services/usage.py:130-171 | a run whose usage in the first partial hour is shown and not billed |
| `PeriodBilling.RepeatedCloseIsNoop` | src/billing_platform/services/period_close.py:140-175 | repeating a close with its key, after any further operations, changes nothing and reports the invoice and total of the first call, and the same charge exactly when the charge's key was free at the first call |
| `BooksStore.BooksTables.CreateDraftInvoice` | src/billing_platform/services/invoices.py:41-75 | an existing key returns its invoice; else a new empty draft of the organization and period |
| `BooksStore.BooksTables.RecomputeInvoiceTotal` | src/billing_platform/services/invoices.py:78-88 | the total becomes the sum of the lines |
| `BooksStore.BooksTables.AddLineItem` | src/billing_platform/services/invoices.py:91-122 | on a draft one line of quantity times price, and the total grows by it; refused otherwise |
| `BooksStore.BooksTables.CloseBillingPeriod` | src/billing_platform/services/period_close.py:161-254 | invoice, lines, charge and event of a close; the first call reports the entry that the posting returned, a repetition the charge of the invoice |
| `BooksStore.BooksTables.AddUsageLines` | src/billing_platform/services/period_close.py:204-215 | one line per feature with usage and a price |
| `BooksStore.BooksTables.ReverseEntry` | src/billing_platform/services/ledger.py:76-116 | an unknown entry is refused; a known one is compensated: one row that cancels its amount under a free key, nothing under a taken one |
| `BooksStore.BooksTables.SyncInvoice` | src/billing_platform/services/invoice_sync.py:17-69 | the provider id is attached unless one is, and nothing else changes |
| `BooksStore.BooksTables.DetectLedgerInvoiceDiscrepancies` | src/billing_platform/services/reconciliation.py:280-313 | exactly the invoices whose ledger total differs, each once, with its delta |
| `Reconciliation.EmptyReportIffConsistent` | src/billing_platform/services/reconciliation.py:138-226 | the provider report is empty exactly when every readable provider invoice agrees with a platform record and every record is known to the provider |
| `Reconciliation.ReportIsExact` | src/billing_platform/services/reconciliation.py:138-226 | a row stands in the report exactly when it is right about some provider invoice, or names a platform record the provider does not know |
| `Reconciliation.PlatformIndexIsExact` | src/billing_platform/services/reconciliation.py:108-127 | the index holds exactly the last payment of each id |
| `PaymentReconciliation.IndexHoldsTheWebhooks` | src/billing_platform/services/reconciliation.py:108-127 | after every run the index holds exactly the invoice ids of the processed payment webhooks, with what the last one reports |
| `PaymentReconciliation.NothingReportedIffWebhooksAgree` | src/billing_platform/services/reconciliation.py:138-226 | after every run nothing is reported exactly when every readable provider invoice is paid with the amount of the last webhook and every webhook's invoice is known to the provider |
| `Reconciliation.DeltasAreTheDistance` | src/billing_platform/services/reconciliation.py:426-430 | the absolute deltas add up to the distance on matched invoices |
| `Reconciliation.LoadPlatformIndex` | src/billing_platform/services/reconciliation.py:108-127 | an id has a record exactly when it is not empty and some payment carries it, and the record is amount, paid and organization of the last one |
| `Reconciliation.DetectDiscrepancies` | src/billing_platform/services/reconciliation.py:138-226 | the provider rows in order, then each unseen platform record once |

## Left out

- HTTP routes, middleware, the demo UI, metrics, logging, health probes, migrations and seeds: no hard properties.
- Driver behaviour: integrity-error recovery, broken sessions and partial flushes; calls are serial transactions and foreign
  keys hold, as stated in each theorem.  Row order where the original leaves it to the database, and the order of invoice
  lines within one close, are arbitrary.
- Payload contents of outbox rows, error texts, timestamps of publication and audit histories.
- Idempotency-key strings: each key template is a constructor, so the text formatting is taken to be injective.
- UUIDs and the SHA-256 and UUIDv5 hashes are taken to be fresh or injective; a row's identifier is its position.
- Partition keys made of non-ASCII digits, on which Python's `isdigit` and `int` disagree.
- Currency codes and fractional quantities: amounts and quantities are integers, as ingestion accepts them.
- Provider invoice ids in webhooks that are floats, lists or objects: their text rendering is not modelled.
- Flat prices of a plan are one number; the summation over price rows and the choice of currency are not modelled.
- Choosing an organization's primary subscription, plan-feature joins, seat metadata and rate windows: a snapshot is built
  from a given organization state in one read.
- EntitlementCache.EveryAnswerIsBoundedlyStale: treats the several queries of one snapshot build as one atomic read.
- EntitlementStore.SnapshotCache.Evaluate: the call is not interrupted except while waiting for a builder; the free
  interleaving is in `EntitlementCache`.
- Reconciliation run bookkeeping (run rows, statistics other than the total delta, alert thresholds and events).
- Administrative calls: clearing all caches, key rotation and catalog changes; plans are fixed within a run.
- Locks other than row claims: two overlapping dunning sweeps, and campaign starts racing each other, are serial here.
