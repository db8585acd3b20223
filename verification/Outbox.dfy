/**
 The outbox tables, the Kafka log and the per-row publish decision of the relay.

 Rows and dead letters are append-only sequences, so a row's primary key is its index.
 */
module Outbox {
  import opened Text

  const DLQ_TOPIC := "billing.dlq"

  datatype Row = Row(
    key: string,
    eventType: string,
    partitionKey: string,
    createdAt: int,
    attempts: nat,
    published: bool)

  datatype DeadLetter = DeadLetter(
    outboxId: nat,
    eventType: string,
    partitionKey: string,
    attempts: nat,
    replayed: bool)

  /** A version-5 UUID; the hash is taken to be injective in the hashed name. */
  datatype EventId = Uuid5(name: string)

  datatype Message = Message(topic: string, outboxId: nat, eventId: EventId)

  /** What happened to one `send_and_wait`: an acknowledgement implies the broker stored the message,
      but an exception (say a time-out) leaves both cases open. */
  datatype Send = Acked | StoredUnacked | Lost {
    predicate Stored() {
      Acked? || StoredUnacked?
    }
    /** The exception tells the truth: nothing was stored. */
    predicate Truthful() {
      !StoredUnacked?
    }
  }

  /** The broker's behaviour for one row: on its own topic, and on the dead-letter topic. */
  datatype Outcome = Outcome(own: Send, dlq: Send)

  function ResolveTopic(eventType: string): string {
    if "subscription." <= eventType then "billing.subscription.events"
    else if "invoice." <= eventType then "billing.invoice.events"
    else if "ledger." <= eventType then "billing.ledger.events"
    else if "reconciliation." <= eventType then "billing.reconciliation.events"
    else if "entitlement." <= eventType || "subscription.access_" <= eventType then "billing.entitlement.events"
    else DLQ_TOPIC
  }

  /** The `subscription.access_` alternative is shadowed by the first test: access events are routed to the
      subscription topic, and only `entitlement.` events reach the entitlement topic. */
  lemma AccessEventsStayOnSubscriptionTopic(eventType: string)
    ensures "subscription.access_" <= eventType ==> ResolveTopic(eventType) == "billing.subscription.events"
    ensures ResolveTopic(eventType) == "billing.entitlement.events" <==> "entitlement." <= eventType
  {
    if "subscription.access_" <= eventType {
      assert "subscription." == "subscription.access_"[..13];
      assert eventType[..13] == "subscription.";
    }
    if "entitlement." <= eventType {
      assert eventType[0] == 'e';
      assert "subscription."[0] == 's' && "invoice."[0] == 'i' && "ledger."[0] == 'l' && "reconciliation."[0] == 'r';
    }
    assert |"billing.entitlement.events"| == 26 && |"billing.subscription.events"| == 27
        && |"billing.invoice.events"| == 22 && |"billing.ledger.events"| == 21
        && |"billing.reconciliation.events"| == 29 && |DLQ_TOPIC| == 11;
  }

  /** An event is routed by its prefix alone: each of five prefixes has its own topic, and everything else goes to the
      dead-letter topic.  So two event types share a topic exactly when they share one of the prefixes or have none. */
  lemma RoutingIsByPrefix(eventType: string)
    ensures ResolveTopic(eventType) == "billing.subscription.events" <==> "subscription." <= eventType
    ensures ResolveTopic(eventType) == "billing.invoice.events" <==> "invoice." <= eventType
    ensures ResolveTopic(eventType) == "billing.ledger.events" <==> "ledger." <= eventType
    ensures ResolveTopic(eventType) == "billing.reconciliation.events" <==> "reconciliation." <= eventType
    ensures ResolveTopic(eventType) == "billing.entitlement.events" <==> "entitlement." <= eventType
    ensures ResolveTopic(eventType) == "billing.dlq" <==>
              !(|| "subscription." <= eventType || "invoice." <= eventType || "ledger." <= eventType
                || "reconciliation." <= eventType || "entitlement." <= eventType)
  {
    AccessEventsStayOnSubscriptionTopic(eventType);
    assert "subscription."[0] == 's' && "invoice."[0] == 'i' && "ledger."[0] == 'l' && "reconciliation."[0] == 'r'
        && "entitlement."[0] == 'e';
    assert |"billing.entitlement.events"| == 26 && |"billing.subscription.events"| == 27
        && |"billing.invoice.events"| == 22 && |"billing.ledger.events"| == 21
        && |"billing.reconciliation.events"| == 29 && |DLQ_TOPIC| == 11;
  }

  function StableEventId(outboxId: nat): EventId {
    Uuid5("billing-platform:outbox:" + Decimal(outboxId))
  }

  /** Consumers may deduplicate on the event id: it identifies the outbox row. */
  lemma EventIdIdentifiesRow(a: nat, b: nat)
    ensures StableEventId(a) == StableEventId(b) <==> a == b
  {
    if StableEventId(a) == StableEventId(b) {
      var prefix := "billing-platform:outbox:";
      assert (prefix + Decimal(a))[|prefix|..] == Decimal(a);
      assert (prefix + Decimal(b))[|prefix|..] == Decimal(b);
      DecimalInjective(a, b);
    }
  }

  /** The key of an organization is the plain decimal of its id. */
  lemma PartitionOfOrganization(orgs: set<nat>, k: string)
    ensures k in KnownPartitions(orgs) <==>
              k != "" && AllDigits(k) && (|k| > 1 ==> k[0] != '0') && Value(k) in orgs
  {
    if k in KnownPartitions(orgs) {
      var o :| o in orgs && k == Decimal(o);
      DecimalDenotes(o);
    } else if k != "" && AllDigits(k) && (|k| > 1 ==> k[0] != '0') {
      DecimalOfValue(k);
    }
  }

  /** `_load_org_public_ids`: the lookup table is keyed by `str(org_id)`, so exactly the canonical decimals of existing
      organizations resolve. */
  function KnownPartitions(orgs: set<nat>): (known: set<string>)
    ensures forall k :: k in known ==> AllDigits(k) && exists o :: o in orgs && k == Decimal(o)
    ensures forall o: nat :: Decimal(o) in known <==> o in orgs
  {
    DecimalsAreDistinct();
    set o | o in orgs :: Decimal(o)
  }

  lemma DecimalsAreDistinct()
    ensures forall a: nat, b: nat :: Decimal(a) == Decimal(b) ==> a == b
  {
    forall a: nat, b: nat | Decimal(a) == Decimal(b)
      ensures a == b
    {
      DecimalInjective(a, b);
    }
  }

  /** The effect of one iteration of the publish loop on one row. */
  datatype Handled = Handled(row: Row, letters: seq<DeadLetter>, messages: seq<Message>)

  function MessageTo(topic: string, id: nat): Message {
    Message(topic, id, StableEventId(id))
  }

  function StoredMessages(send: Send, topic: string, id: nat): seq<Message> {
    if send.Stored() then [MessageTo(topic, id)] else []
  }

  function FailRow(id: nat, row: Row, maxAttempts: nat, dlq: Send): Handled {
    var failed := row.(attempts := row.attempts + 1);
    if failed.attempts >= maxAttempts then
      Handled(failed.(published := true),
              [DeadLetter(id, row.eventType, row.partitionKey, failed.attempts, false)],
              StoredMessages(dlq, DLQ_TOPIC, id))
    else
      Handled(failed, [], [])
  }

  function HandleRow(id: nat, row: Row, known: set<string>, maxAttempts: nat, o: Outcome): Handled {
    if row.partitionKey !in known then
      FailRow(id, row, maxAttempts, o.dlq)
    else
      var topic := ResolveTopic(row.eventType);
      var sent := StoredMessages(o.own, topic, id);
      if o.own.Acked? then
        Handled(row.(published := true), [], sent)
      else
        var failed := FailRow(id, row, maxAttempts, o.dlq);
        failed.(messages := sent + failed.messages)
  }

  /** The outbox ids of the dead letters that have not been replayed, with multiplicity. */
  function OpenLetters(letters: seq<DeadLetter>): multiset<nat> {
    if letters == [] then multiset{}
    else
      var last := letters[|letters| - 1];
      OpenLetters(letters[..|letters| - 1]) + (if last.replayed then multiset{} else multiset{last.outboxId})
  }

  lemma {:induction false} OpenLettersConcat(a: seq<DeadLetter>, b: seq<DeadLetter>)
    ensures OpenLetters(a + b) == OpenLetters(a) + OpenLetters(b)
  {
    if b == [] {
      assert a + b == a;
    } else {
      assert (a + b)[..|a + b| - 1] == a + b[..|b| - 1];
      OpenLettersConcat(a, b[..|b| - 1]);
    }
  }

  lemma {:induction false} OpenLettersClose(letters: seq<DeadLetter>, d: nat)
    requires d < |letters| && !letters[d].replayed
    ensures letters[d].outboxId in OpenLetters(letters)
    ensures OpenLetters(letters[d := letters[d].(replayed := true)])
         == OpenLetters(letters) - multiset{letters[d].outboxId}
  {
    var closed := letters[d := letters[d].(replayed := true)];
    var n := |letters| - 1;
    if d == n {
      assert closed[..n] == letters[..n];
    } else {
      OpenLettersClose(letters[..n], d);
      assert closed[..n] == letters[..n][d := letters[d].(replayed := true)];
    }
  }

  lemma {:induction false} OpenLettersOrigin(letters: seq<DeadLetter>, id: nat)
    requires id in OpenLetters(letters)
    ensures exists d :: 0 <= d < |letters| && letters[d].outboxId == id && !letters[d].replayed
  {
    var n := |letters| - 1;
    if letters[n].outboxId != id || letters[n].replayed {
      OpenLettersOrigin(letters[..n], id);
      var d :| 0 <= d < n && letters[..n][d].outboxId == id && !letters[..n][d].replayed;
      assert letters[d].outboxId == id && !letters[d].replayed;
    }
  }
}
