/**
 The append-only ledger and the idempotency keys shared by the ledger, the outbox and the campaigns.

 Each template of the original's key strings is a constructor, so two keys are equal exactly when the template and its
 arguments are; a key that a caller chooses freely may be any value.
 */
module Ledger {
  import opened Wrappers

  datatype What =
    | Activated | InvoicePaidPosting | PaymentFailed | PastDueNotice | CampaignStart
    | TrialStarted | CancelNotice
    | RevokedMarker | AccessRevoked
    | Debit | Credit | PlanChanged
    | UsageChargePosting | PeriodClosed

  datatype Key =
    | CallerKey(text: string)
    | WebhookKey(webhook: nat, what: What)
    | SubscriptionKey(subscription: nat, what: What)
    | GraceKey(subscription: nat, what: What)
    | PlanChangeKey(idem: string, what: What)
    | CloseKey(idem: string, what: What)
    | EntryPosted(entry: Key)

  datatype EntryType = InvoicePaid | UsageCharge | ProrationDebit | ProrationCredit | RevokedAccess | Reversal

  datatype Entry = Entry(
    org: nat,
    invoice: Option<nat>,
    kind: EntryType,
    amount: int,
    reverses: Option<nat>,
    externalInvoice: Option<string>,
    key: Key)

  function KeysOf(entries: seq<Entry>): set<Key> {
    set i | 0 <= i < |entries| :: entries[i].key
  }

  lemma KeysOfAppend(entries: seq<Entry>, e: Entry)
    ensures KeysOf(entries + [e]) == KeysOf(entries) + {e.key}
  {
    var more := entries + [e];
    forall k | k in KeysOf(entries) + {e.key}
      ensures k in KeysOf(more)
    {
      if k == e.key {
        assert more[|entries|].key == k;
      } else {
        var i :| 0 <= i < |entries| && entries[i].key == k;
        assert more[i].key == k;
      }
    }
  }

  /** Insert unless the key is known. */
  function PostEntry(entries: seq<Entry>, e: Entry): seq<Entry> {
    if e.key in KeysOf(entries) then entries else entries + [e]
  }

  /** The entry posted under a key, looked for among the first `n`. */
  function FindEntry(entries: seq<Entry>, n: nat, key: Key): (r: Option<nat>)
    requires n <= |entries|
    ensures r.Some? ==> r.value < n && entries[r.value].key == key
    ensures r.None? ==> forall k :: 0 <= k < n ==> entries[k].key != key
  {
    if n == 0 then None
    else if entries[n - 1].key == key then Some(n - 1)
    else FindEntry(entries, n - 1, key)
  }

  /** Posting returns the new entry, or the one that already has the key. */
  lemma PostedEntry(entries: seq<Entry>, e: Entry)
    ensures
      var after := PostEntry(entries, e);
      FindEntry(after, |after|, e.key)
      == if e.key in KeysOf(entries) then FindEntry(entries, |entries|, e.key) else Some(|entries|)
    ensures e.key in KeysOf(entries) <==> FindEntry(entries, |entries|, e.key).Some?
  {
  }

  /** Insert or ignore on the idempotency key. */
  function Enqueue(outbox: seq<Key>, key: Key): (after: seq<Key>)
    ensures forall k :: k in after <==> k in outbox || k == key
  {
    if key in outbox then outbox else outbox + [key]
  }

  /** The outbox after posting: a new entry announces itself, a repeated one does not. */
  function Announce(entries: seq<Entry>, outbox: seq<Key>, e: Entry): seq<Key> {
    if e.key in KeysOf(entries) then outbox else Enqueue(outbox, EntryPosted(e.key))
  }

  /** The compensating row for an entry, under a key that its caller chooses. */
  function ReversalOf(entries: seq<Entry>, entry: nat, key: Key): Entry
    requires entry < |entries|
  {
    var e := entries[entry];
    Entry(e.org, e.invoice, Reversal, -e.amount, Some(entry), None, key)
  }

  ghost predicate Distinct(outbox: seq<Key>) {
    forall i, j :: 0 <= i < j < |outbox| ==> outbox[i] != outbox[j]
  }

  ghost predicate DistinctKeys(entries: seq<Entry>) {
    forall i, j :: 0 <= i < j < |entries| ==> entries[i].key != entries[j].key
  }

  lemma PostKeepsDistinct(entries: seq<Entry>, e: Entry)
    requires DistinctKeys(entries)
    ensures DistinctKeys(PostEntry(entries, e))
    ensures KeysOf(PostEntry(entries, e)) == KeysOf(entries) + {e.key}
  {
    KeysOfAppend(entries, e);
    assert forall i :: 0 <= i < |entries| ==> entries[i].key in KeysOf(entries);
  }

  lemma EnqueueKeepsDistinct(outbox: seq<Key>, key: Key)
    requires Distinct(outbox)
    ensures Distinct(Enqueue(outbox, key))
  {
  }

  /** The money of one entry type. */
  function Total(entries: seq<Entry>, kind: EntryType): int {
    if entries == [] then 0
    else
      var e := entries[|entries| - 1];
      Total(entries[..|entries| - 1], kind) + (if e.kind == kind then e.amount else 0)
  }

  lemma TotalAppend(entries: seq<Entry>, e: Entry, kind: EntryType)
    ensures Total(entries + [e], kind) == Total(entries, kind) + (if e.kind == kind then e.amount else 0)
  {
    assert (entries + [e])[..|entries|] == entries;
  }

  /** All the money of an organization, whatever its type. */
  function OrgTotal(entries: seq<Entry>, org: nat): int {
    if entries == [] then 0
    else
      var e := entries[|entries| - 1];
      OrgTotal(entries[..|entries| - 1], org) + (if e.org == org then e.amount else 0)
  }

  lemma OrgTotalAppend(entries: seq<Entry>, e: Entry, org: nat)
    ensures OrgTotal(entries + [e], org) == OrgTotal(entries, org) + (if e.org == org then e.amount else 0)
  {
    assert (entries + [e])[..|entries|] == entries;
  }

  /** `after` is `before` with entry number `entry` compensated under `key`: exactly one row more, of the same
      organization and invoice, that refers to the entry and whose amount cancels it, so that the organization's money
      changes by exactly minus the entry's amount and nobody else's changes. Under a taken key nothing happens. */
  ghost predicate Compensates(before: seq<Entry>, after: seq<Entry>, entry: nat, key: Key)
    requires entry < |before|
  {
    if exists k :: 0 <= k < |before| && before[k].key == key then after == before
    else
      var n := |before|;
      && |after| == n + 1 && after[..n] == before
      && after[n].kind == Reversal && after[n].key == key && after[n].reverses == Some(entry)
      && after[n].org == before[entry].org && after[n].invoice == before[entry].invoice
      && after[n].amount + before[entry].amount == 0
      && (forall org :: OrgTotal(after, org)
            == OrgTotal(before, org) - (if org == before[entry].org then before[entry].amount else 0))
  }

  lemma ReversalCompensates(entries: seq<Entry>, entry: nat, key: Key)
    requires entry < |entries|
    ensures Compensates(entries, PostEntry(entries, ReversalOf(entries, entry, key)), entry, key)
  {
    var r := ReversalOf(entries, entry, key);
    assert key in KeysOf(entries) <==> exists k :: 0 <= k < |entries| && entries[k].key == key;
    forall org
      ensures OrgTotal(entries + [r], org) == OrgTotal(entries, org) + (if r.org == org then r.amount else 0)
    {
      OrgTotalAppend(entries, r, org);
    }
  }
}
