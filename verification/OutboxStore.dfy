/**
 The mutable form of the outbox: the services and the relay update these tables in place.  Each method is tied to
 the functions that the interleaving model in `Relay` steps through.
 */
module OutboxStore {
  import opened Outbox
  import opened Relay
  import opened Wrappers

  /** One relay working through its batch with nobody else touching the rows it has locked. */
  function PublishAll(rows: seq<Row>, s: Session, log: seq<Message>, ids: seq<nat>, maxAttempts: nat,
                      broker: nat -> Outcome): (Session, seq<Message>)
    requires forall i :: 0 <= i < |ids| ==> ids[i] < |rows|
    decreases |ids|
  {
    if ids == [] then (s, log)
    else
      var (s', messages) := Advance(rows[ids[0]], ids[0], s, maxAttempts, broker(ids[0]));
      PublishAll(rows, s', log + messages, ids[1..], maxAttempts, broker)
  }

  function CountAcknowledged(rows: seq<Row>, ids: seq<nat>, known: set<string>, broker: nat -> Outcome): nat
    requires forall i :: 0 <= i < |ids| ==> ids[i] < |rows|
  {
    if ids == [] then 0
    else (if Acknowledged(rows[ids[0]], known, broker(ids[0])) then 1 else 0)
         + CountAcknowledged(rows, ids[1..], known, broker)
  }

  function Sends(relay: nat, ids: seq<nat>, broker: nat -> Outcome): seq<Step> {
    if ids == [] then [Commit(relay)] else [SendRow(relay, ids[0], broker(ids[0]))] + Sends(relay, ids[1..], broker)
  }

  ghost predicate ReadyToSend(w: World, relay: nat, ids: seq<nat>) {
    && relay in w.sessions
    && NoDuplicates(ids)
    && (forall i :: 0 <= i < |ids| ==> ids[i] < |w.rows| && ids[i] !in w.sessions[relay].done)
    && w.sessions[relay].claimed == w.sessions[relay].done.Keys + set id | id in ids
  }

  lemma SendKeepsReady(w: World, relay: nat, ids: seq<nat>, maxAttempts: nat, o: Outcome)
    requires ReadyToSend(w, relay, ids) && ids != []
    ensures Enabled(w, SendRow(relay, ids[0], o), maxAttempts)
    ensures ReadyToSend(Apply(w, SendRow(relay, ids[0], o), maxAttempts), relay, ids[1..])
  {
    assert ids[0] in w.sessions[relay].claimed;
    var w' := Apply(w, SendRow(relay, ids[0], o), maxAttempts);
    forall i | 0 <= i < |ids[1..]|
      ensures ids[1..][i] !in w'.sessions[relay].done
    {
      assert ids[1..][i] == ids[i + 1] && ids[0] != ids[i + 1];
    }
    assert (set id | id in ids) == {ids[0]} + set id | id in ids[1..];
  }

  lemma {:induction false} SendsAreARun(w: World, relay: nat, ids: seq<nat>, maxAttempts: nat, broker: nat -> Outcome)
    requires ReadyToSend(w, relay, ids)
    ensures ValidRun(w, Sends(relay, ids, broker), maxAttempts)
    ensures
      var (s, log) := PublishAll(w.rows, w.sessions[relay], w.log, ids, maxAttempts, broker);
      After(w, Sends(relay, ids, broker), maxAttempts)
      == World(WriteBack(w.rows, s.done), w.letters + s.letters, log, w.sessions - {relay})
    decreases |ids|
  {
    if ids == [] {
      assert Sends(relay, ids, broker)[1..] == [];
      assert Enabled(w, Commit(relay), maxAttempts);
    } else {
      var step := SendRow(relay, ids[0], broker(ids[0]));
      SendKeepsReady(w, relay, ids, maxAttempts, broker(ids[0]));
      var w' := Apply(w, step, maxAttempts);
      SendsAreARun(w', relay, ids[1..], maxAttempts, broker);
      assert Sends(relay, ids, broker)[1..] == Sends(relay, ids[1..], broker);
      assert w'.sessions - {relay} == w.sessions - {relay};
    }
  }

  /** A poll by a relay with no open session is a run of the interleaving model, so everything proved there about
      every run holds of the tables this method leaves behind. */
  lemma PollIsARun(w: World, relay: nat, ids: seq<nat>, limit: nat, orgs: set<nat>, maxAttempts: nat,
                   broker: nat -> Outcome)
    requires relay !in w.sessions && IsClaim(w.rows, Locked(w), limit, maxAttempts, ids)
    ensures
      var steps := [Claim(relay, ids, limit, orgs)] + Sends(relay, ids, broker);
      var start := Session(set id | id in ids, map[], [], KnownPartitions(orgs));
      var (s, log) := PublishAll(w.rows, start, w.log, ids, maxAttempts, broker);
      && ValidRun(w, steps, maxAttempts)
      && After(w, steps, maxAttempts) == World(WriteBack(w.rows, s.done), w.letters + s.letters, log, w.sessions)
  {
    var claim := Claim(relay, ids, limit, orgs);
    var steps := [claim] + Sends(relay, ids, broker);
    assert steps[0] == claim && steps[1..] == Sends(relay, ids, broker);
    var w' := Apply(w, claim, maxAttempts);
    assert forall i :: 0 <= i < |ids| ==> Available(w.rows, Locked(w), maxAttempts, ids[i]);
    SendsAreARun(w', relay, ids, maxAttempts, broker);
    assert w'.sessions - {relay} == w.sessions;
  }

  /* ---------- the backlog drains ---------- */

  /** One crash-free poll of at least one row. */
  datatype Poll = Poll(relay: nat, ids: seq<nat>, limit: nat, orgs: set<nat>, broker: nat -> Outcome)

  function PollSteps(p: Poll): seq<Step> {
    [Claim(p.relay, p.ids, p.limit, p.orgs)] + Sends(p.relay, p.ids, p.broker)
  }

  ghost predicate CanPoll(w: World, p: Poll, maxAttempts: nat) {
    p.limit >= 1 && p.relay !in w.sessions && IsClaim(w.rows, Locked(w), p.limit, maxAttempts, p.ids)
  }

  ghost function AfterPoll(w: World, p: Poll, maxAttempts: nat): World
    requires CanPoll(w, p, maxAttempts)
  {
    PollIsARun(w, p.relay, p.ids, p.limit, p.orgs, maxAttempts, p.broker);
    After(w, PollSteps(p), maxAttempts)
  }

  ghost predicate CanPollAll(w: World, polls: seq<Poll>, maxAttempts: nat)
    decreases |polls|
  {
    polls == []
    || (CanPoll(w, polls[0], maxAttempts) && CanPollAll(AfterPoll(w, polls[0], maxAttempts), polls[1..], maxAttempts))
  }

  ghost function AfterPolls(w: World, polls: seq<Poll>, maxAttempts: nat): World
    requires CanPollAll(w, polls, maxAttempts)
    decreases |polls|
  {
    if polls == [] then w else AfterPolls(AfterPoll(w, polls[0], maxAttempts), polls[1..], maxAttempts)
  }

  lemma {:induction false} SendsAreNoNewWork(relay: nat, ids: seq<nat>, broker: nat -> Outcome)
    ensures forall i :: 0 <= i < |Sends(relay, ids, broker)| ==> NoNewWork(Sends(relay, ids, broker)[i])
  {
    if ids == [] {
    } else {
      SendsAreNoNewWork(relay, ids[1..], broker);
    }
  }

  /** Sending a batch and committing it is one working poll. */
  lemma {:induction false} SendsAreAWorkingPoll(w: World, relay: nat, ids: seq<nat>, maxAttempts: nat,
                                                broker: nat -> Outcome)
    requires ReadyToSend(w, relay, ids) && w.sessions[relay].claimed != {}
    requires ValidRun(w, Sends(relay, ids, broker), maxAttempts)
    ensures WorkingPolls(w, Sends(relay, ids, broker), maxAttempts) >= 1
    decreases |ids|
  {
    if ids == [] {
    } else {
      SendKeepsReady(w, relay, ids, maxAttempts, broker(ids[0]));
      assert Sends(relay, ids, broker)[1..] == Sends(relay, ids[1..], broker);
      SendsAreAWorkingPoll(Apply(w, SendRow(relay, ids[0], broker(ids[0])), maxAttempts), relay, ids[1..], maxAttempts,
                           broker);
    }
  }

  lemma {:induction false} BacklogHasARow(rows: seq<Row>, maxAttempts: nat) returns (id: nat)
    requires Backlog(rows, maxAttempts) > 0
    ensures id < |rows| && Claimable(rows[id], maxAttempts)
  {
    var n := |rows| - 1;
    if Weight(rows[n], maxAttempts) > 0 {
      id := n;
    } else {
      id := BacklogHasARow(rows[..n], maxAttempts);
    }
  }

  /** Without open transactions a poll strictly shrinks the backlog until it is empty, whatever the broker does. */
  lemma PollShrinksBacklog(w: World, p: Poll, maxAttempts: nat)
    requires maxAttempts >= 1 && Inv(w, maxAttempts) && w.sessions == map[] && CanPoll(w, p, maxAttempts)
    ensures
      var w' := AfterPoll(w, p, maxAttempts);
      && Inv(w', maxAttempts) && w'.sessions == map[]
      && Backlog(w'.rows, maxAttempts) <= Backlog(w.rows, maxAttempts)
      && (Backlog(w.rows, maxAttempts) > 0 ==> Backlog(w'.rows, maxAttempts) < Backlog(w.rows, maxAttempts))
  {
    var steps, claim := PollSteps(p), Claim(p.relay, p.ids, p.limit, p.orgs);
    PollIsARun(w, p.relay, p.ids, p.limit, p.orgs, maxAttempts, p.broker);
    RunPreservesInv(w, steps, maxAttempts);
    SendsAreNoNewWork(p.relay, p.ids, p.broker);
    BacklogBoundsPolls(w, steps, maxAttempts);
    if Backlog(w.rows, maxAttempts) > 0 {
      var id := BacklogHasARow(w.rows, maxAttempts);
      assert Available(w.rows, Locked(w), maxAttempts, id);
      assert p.ids[0] in p.ids;
      var claimed := Apply(w, claim, maxAttempts);
      assert steps[1..] == Sends(p.relay, p.ids, p.broker);
      assert forall i :: 0 <= i < |p.ids| ==> Available(w.rows, Locked(w), maxAttempts, p.ids[i]);
      assert p.ids[0] in claimed.sessions[p.relay].claimed;
      SendsAreAWorkingPoll(claimed, p.relay, p.ids, maxAttempts, p.broker);
    }
  }

  ghost predicate EveryRowIsSettled(w: World) {
    forall id :: 0 <= id < |w.rows| ==>
      Delivered(w.log, id, w.rows[id], Open(w, id)) || Dead(w.rows[id], Open(w, id))
  }

  /** The drain: from any consistent state without open transactions, as many crash-free polls of at least one row as
      there is backlog leave every row delivered or dead, whatever the broker does. */
  lemma {:induction false} PollsDrainTheBacklog(w: World, polls: seq<Poll>, maxAttempts: nat)
    requires maxAttempts >= 1 && Inv(w, maxAttempts) && w.sessions == map[]
    requires CanPollAll(w, polls, maxAttempts) && |polls| >= Backlog(w.rows, maxAttempts)
    ensures EveryRowIsSettled(AfterPolls(w, polls, maxAttempts))
    decreases |polls|
  {
    if polls == [] {
      DrainedMeansSettled(w, maxAttempts);
    } else {
      var next := AfterPoll(w, polls[0], maxAttempts);
      PollShrinksBacklog(w, polls[0], maxAttempts);
      PollsDrainTheBacklog(next, polls[1..], maxAttempts);
      assert AfterPolls(w, polls, maxAttempts) == AfterPolls(next, polls[1..], maxAttempts);
    }
  }

  ghost predicate IsOldestLeft(rows: seq<Row>, locked: set<nat>, maxAttempts: nat, taken: set<nat>, b: nat) {
    && Available(rows, locked, maxAttempts, b) && b !in taken
    && forall id: nat :: Available(rows, locked, maxAttempts, id) && id !in taken ==>
         rows[b].createdAt <= rows[id].createdAt
  }

  lemma ExtendOldestFirst(rows: seq<Row>, locked: set<nat>, maxAttempts: nat, ids: seq<nat>, b: nat)
    requires OldestFirst(rows, locked, maxAttempts, ids)
    requires IsOldestLeft(rows, locked, maxAttempts, (set id | id in ids), b)
    ensures OldestFirst(rows, locked, maxAttempts, ids + [b])
  {
    var more := ids + [b];
    assert b !in ids;
    forall i, id: nat | 0 <= i < |more| && Available(rows, locked, maxAttempts, id) && id !in more
      ensures rows[more[i]].createdAt <= rows[id].createdAt
    {
      assert id != more[|ids|];
      assert id !in ids;
    }
  }

  lemma WriteBackOne(rows: seq<Row>, done: map<nat, Row>, id: nat, row: Row)
    requires id < |rows|
    ensures WriteBack(rows, done[id := row]) == WriteBack(rows, done)[id := row]
  {
  }

  /** What a failed attempt at a claimable row comes to: it has one attempt more, and stays claimable exactly while
      some are left; otherwise it is published with one more open letter, and goes out on the dead-letter topic if
      that send is stored. */
  ghost predicate AttemptCounted(row: Row, row': Row, letters: seq<DeadLetter>, letters': seq<DeadLetter>,
                                 log: seq<Message>, log': seq<Message>, id: nat, maxAttempts: nat, dlq: Send)
  {
    && row'.attempts == row.attempts + 1
    && (Claimable(row', maxAttempts) <==> row.attempts + 1 < maxAttempts)
    && (if Claimable(row', maxAttempts) then !row'.published && letters' == letters && log' == log
        else && row'.published
             && OpenLetters(letters') == OpenLetters(letters) + multiset{id}
             && log' == log + if dlq.Lost? then [] else [Message("billing.dlq", id, StableEventId(id))])
  }

  lemma FailedAttemptIsCounted(letters: seq<DeadLetter>, log: seq<Message>, id: nat, row: Row, maxAttempts: nat,
      dlq: Send)
    requires Claimable(row, maxAttempts)
    ensures
      var h := FailRow(id, row, maxAttempts, dlq);
      && SameMessage(h.row, row)
      && AttemptCounted(row, h.row, letters, letters + h.letters, log, log + h.messages, id, maxAttempts, dlq)
  {
    var h := FailRow(id, row, maxAttempts, dlq);
    OpenLettersConcat(letters, h.letters);
    if h.letters != [] {
      assert h.letters == [] + [h.letters[0]] && OpenLetters(h.letters[..0]) == multiset{};
    }
  }

  /** What a poll leaves: rows it did not claim are as they were; a claimed row is delivered, with its message in the
      log and no new letter, exactly when its organization is known and the broker acknowledged it; otherwise it has
      one more attempt, and it is dead with one new open letter exactly when that was the last. */
  ghost predicate BatchHandled(before: seq<Row>, after: seq<Row>, letters: seq<DeadLetter>, letters': seq<DeadLetter>,
                               log': seq<Message>, ids: seq<nat>, known: set<string>, maxAttempts: nat,
                               broker: nat -> Outcome)
    requires forall i :: 0 <= i < |ids| ==> ids[i] < |before|
  {
    && |after| == |before|
    && (forall x :: 0 <= x < |before| && x !in ids ==>
          after[x] == before[x] && OpenLetters(letters')[x] == OpenLetters(letters)[x])
    && (forall id :: id in ids ==>
          RowHandled(id, before[id], after[id], OpenLetters(letters)[id], OpenLetters(letters')[id], log', known,
                     maxAttempts, broker(id)))
  }

  /** The part of `BatchHandled` about one claimed row; `was` and `now` count its open letters. */
  ghost predicate RowHandled(id: nat, before: Row, after: Row, was: nat, now: nat, log': seq<Message>,
      known: set<string>,
                             maxAttempts: nat, o: Outcome)
  {
    if Acknowledged(before, known, o) then
      && after == before.(published := true) && now == was
      && Message(ResolveTopic(before.eventType), id, StableEventId(id)) in log'
    else if before.attempts + 1 < maxAttempts then
      after == before.(attempts := before.attempts + 1) && now == was
    else
      after == before.(attempts := before.attempts + 1, published := true) && now == was + 1
  }

  lemma HandledRow(id: nat, row: Row, was: nat, known: set<string>, maxAttempts: nat, o: Outcome, log': seq<Message>)
    requires Claimable(row, maxAttempts)
    requires forall m :: m in HandleRow(id, row, known, maxAttempts, o).messages ==> m in log'
    ensures
      var h := HandleRow(id, row, known, maxAttempts, o);
      RowHandled(id, row, h.row, was, was + OpenLetters(h.letters)[id], log', known, maxAttempts, o)
  {
    HandledFateIsExact(id, row, known, maxAttempts, o);
    HandledLetters(id, row, known, maxAttempts, o);
  }

  ghost function AcknowledgedIds(rows: seq<Row>, ids: seq<nat>, known: set<string>, broker: nat -> Outcome): set<nat>
    requires forall i :: 0 <= i < |ids| ==> ids[i] < |rows|
  {
    set id | id in ids && Acknowledged(rows[id], known, broker(id))
  }

  lemma {:induction false} CountIsCardinality(rows: seq<Row>, ids: seq<nat>, known: set<string>, broker: nat -> Outcome)
    requires NoDuplicates(ids) && forall i :: 0 <= i < |ids| ==> ids[i] < |rows|
    ensures CountAcknowledged(rows, ids, known, broker) == |AcknowledgedIds(rows, ids, known, broker)|
    decreases |ids|
  {
    if ids == [] {
    } else {
      var id, rest := ids[0], ids[1..];
      CountIsCardinality(rows, rest, known, broker);
      assert id !in rest by {
        assert forall i :: 0 <= i < |rest| ==> rest[i] == ids[i + 1];
      }
      assert forall x :: x in ids <==> x == id || x in rest;
      if Acknowledged(rows[id], known, broker(id)) {
        assert AcknowledgedIds(rows, ids, known, broker) == AcknowledgedIds(rows, rest, known, broker) + {id};
      } else {
        assert AcknowledgedIds(rows, ids, known, broker) == AcknowledgedIds(rows, rest, known, broker);
      }
    }
  }

  /** Each row of a batch is handled by itself. */
  lemma {:induction false} PublishAllHandles(rows: seq<Row>, s: Session, log: seq<Message>, ids: seq<nat>,
                                             maxAttempts: nat, broker: nat -> Outcome, x: nat)
    requires NoDuplicates(ids) && forall i :: 0 <= i < |ids| ==> ids[i] < |rows|
    ensures
      var (s', log') := PublishAll(rows, s, log, ids, maxAttempts, broker);
      && (forall m :: m in log ==> m in log')
      && (x !in ids ==>
            && (x in s'.done <==> x in s.done) && (x in s.done ==> s'.done[x] == s.done[x])
            && OpenLetters(s'.letters)[x] == OpenLetters(s.letters)[x])
      && (x in ids ==>
            var h := HandleRow(x, rows[x], s.known, maxAttempts, broker(x));
            && x in s'.done && s'.done[x] == h.row
            && OpenLetters(s'.letters)[x] == OpenLetters(s.letters)[x] + OpenLetters(h.letters)[x]
            && (forall m :: m in h.messages ==> m in log'))
    decreases |ids|
  {
    if ids == [] {
    } else {
      var id := ids[0];
      var h := HandleRow(id, rows[id], s.known, maxAttempts, broker(id));
      var (s1, messages) := Advance(rows[id], id, s, maxAttempts, broker(id));
      HandledLetters(id, rows[id], s.known, maxAttempts, broker(id));
      OpenLettersConcat(s.letters, h.letters);
      assert ids == [id] + ids[1..] && id !in ids[1..];
      PublishAllHandles(rows, s1, log + messages, ids[1..], maxAttempts, broker, x);
    }
  }

  lemma PublishedBatchIsHandled(rows: seq<Row>, letters: seq<DeadLetter>, log: seq<Message>, ids: seq<nat>,
                                known: set<string>, maxAttempts: nat, broker: nat -> Outcome)
    requires NoDuplicates(ids)
    requires forall i :: 0 <= i < |ids| ==> ids[i] < |rows| && Claimable(rows[ids[i]], maxAttempts)
    ensures
      var (s, log') := PublishAll(rows, Session(set id | id in ids, map[], [], known), log, ids, maxAttempts, broker);
      BatchHandled(rows, WriteBack(rows, s.done), letters, letters + s.letters, log', ids, known, maxAttempts, broker)
  {
    var start := Session(set id | id in ids, map[], [], known);
    var (s, log') := PublishAll(rows, start, log, ids, maxAttempts, broker);
    OpenLettersConcat(letters, s.letters);
    forall x: nat | x < |rows|
      ensures x !in ids ==> x !in s.done && OpenLetters(s.letters)[x] == 0
    {
      PublishAllHandles(rows, start, log, ids, maxAttempts, broker, x);
    }
    forall id | id in ids
      ensures RowHandled(id, rows[id], WriteBack(rows, s.done)[id], OpenLetters(letters)[id],
                         OpenLetters(letters + s.letters)[id], log', known, maxAttempts, broker(id))
    {
      PublishAllHandles(rows, start, log, ids, maxAttempts, broker, id);
      HandledRow(id, rows[id], OpenLetters(letters)[id], known, maxAttempts, broker(id), log');
    }
  }

  /** A poll whose broker acknowledges every row and that knows every organization with a pending row. */
  ghost predicate HealthyPoll(w: World, p: Poll) {
    && (forall id: nat :: p.broker(id).own.Acked?)
    && (forall id :: 0 <= id < |w.rows| && !w.rows[id].published ==> w.rows[id].partitionKey in KnownPartitions(p.orgs))
  }

  /** A healthy poll delivers what it claims and leaves the rest alone. */
  lemma HealthyPollDelivers(w: World, p: Poll, id: nat, maxAttempts: nat)
    requires maxAttempts >= 1 && Inv(w, maxAttempts) && w.sessions == map[] && CanPoll(w, p, maxAttempts)
    requires HealthyPoll(w, p) && id < |w.rows| && Pending(w.rows[id], Open(w, id), maxAttempts)
    ensures
      var w' := AfterPoll(w, p, maxAttempts);
      && |w'.rows| == |w.rows|
      && (if id in p.ids then Delivered(w'.log, id, w'.rows[id], Open(w', id))
          else w'.rows[id] == w.rows[id] && Open(w', id) == Open(w, id))
  {
    var known := KnownPartitions(p.orgs);
    PollIsARun(w, p.relay, p.ids, p.limit, p.orgs, maxAttempts, p.broker);
    assert forall i :: 0 <= i < |p.ids| ==> Available(w.rows, Locked(w), maxAttempts, p.ids[i]);
    PublishedBatchIsHandled(w.rows, w.letters, w.log, p.ids, known, maxAttempts, p.broker);
    if id in p.ids {
      var w' := AfterPoll(w, p, maxAttempts);
      assert RowHandled(id, w.rows[id], w'.rows[id], Open(w, id), Open(w', id), w'.log, known, maxAttempts,
          p.broker(id));
    }
  }

  lemma HealthyAfterPoll(w: World, p: Poll, q: Poll, maxAttempts: nat)
    requires maxAttempts >= 1 && Inv(w, maxAttempts) && w.sessions == map[] && CanPoll(w, p, maxAttempts)
    requires HealthyPoll(w, p) && HealthyPoll(w, q)
    ensures HealthyPoll(AfterPoll(w, p, maxAttempts), q)
  {
    var w' := AfterPoll(w, p, maxAttempts);
    PollIsARun(w, p.relay, p.ids, p.limit, p.orgs, maxAttempts, p.broker);
    forall id | 0 <= id < |w'.rows| && !w'.rows[id].published
      ensures w'.rows[id].partitionKey in KnownPartitions(q.orgs)
    {
      assert RowInv(w, id, maxAttempts);
      DeliveredForEver(w, PollSteps(p), id, maxAttempts);
      if w.rows[id].published {
        PublishedBatchIsHandled(w.rows, w.letters, w.log, p.ids, KnownPartitions(p.orgs), maxAttempts, p.broker);
      }
    }
  }

  /** Delivery: with a broker that acknowledges and organizations that are known, as many polls as there is backlog
      deliver every pending row. */
  lemma {:induction false} HealthyPollsDeliverEverything(w: World, polls: seq<Poll>, id: nat, maxAttempts: nat)
    requires maxAttempts >= 1 && Inv(w, maxAttempts) && w.sessions == map[]
    requires CanPollAll(w, polls, maxAttempts) && |polls| >= Backlog(w.rows, maxAttempts)
    requires forall i :: 0 <= i < |polls| ==> HealthyPoll(w, polls[i])
    requires id < |w.rows| && Pending(w.rows[id], Open(w, id), maxAttempts)
    ensures
      var w' := AfterPolls(w, polls, maxAttempts);
      id < |w'.rows| && Delivered(w'.log, id, w'.rows[id], Open(w', id))
    decreases |polls|
  {
    if polls == [] {
      BacklogCoversRow(w.rows, id, maxAttempts);
    } else {
      var next := AfterPoll(w, polls[0], maxAttempts);
      PollShrinksBacklog(w, polls[0], maxAttempts);
      HealthyPollDelivers(w, polls[0], id, maxAttempts);
      assert AfterPolls(w, polls, maxAttempts) == AfterPolls(next, polls[1..], maxAttempts);
      if id in polls[0].ids {
        StaysDelivered(next, polls[1..], id, maxAttempts);
      } else {
        forall i | 0 <= i < |polls[1..]|
          ensures HealthyPoll(next, polls[1..][i])
        {
          HealthyAfterPoll(w, polls[0], polls[i + 1], maxAttempts);
        }
        HealthyPollsDeliverEverything(next, polls[1..], id, maxAttempts);
      }
    }
  }

  lemma {:induction false} StaysDelivered(w: World, polls: seq<Poll>, id: nat, maxAttempts: nat)
    requires maxAttempts >= 1 && Inv(w, maxAttempts) && w.sessions == map[] && CanPollAll(w, polls, maxAttempts)
    requires id < |w.rows| && Delivered(w.log, id, w.rows[id], Open(w, id))
    ensures
      var w' := AfterPolls(w, polls, maxAttempts);
      id < |w'.rows| && Delivered(w'.log, id, w'.rows[id], Open(w', id))
    decreases |polls|
  {
    if polls == [] {
    } else {
      var p := polls[0];
      PollIsARun(w, p.relay, p.ids, p.limit, p.orgs, maxAttempts, p.broker);
      DeliveredForEver(w, PollSteps(p), id, maxAttempts);
      PollShrinksBacklog(w, p, maxAttempts);
      StaysDelivered(AfterPoll(w, p, maxAttempts), polls[1..], id, maxAttempts);
      assert AfterPolls(w, polls, maxAttempts) == AfterPolls(AfterPoll(w, p, maxAttempts), polls[1..], maxAttempts);
    }
  }

  class OutboxTables {
    var rows: seq<Row>
    var letters: seq<DeadLetter>
    var log: seq<Message>

    constructor ()
      ensures rows == [] && letters == [] && log == []
    {
      rows, letters, log := [], [], [];
    }

    /** Insert or ignore on the idempotency key. */
    method Enqueue(key: string, eventType: string, partitionKey: string, at: int) returns (id: Option<nat>)
      modifies this`rows
      ensures rows == EnqueueRow(old(rows), key, eventType, partitionKey, at)
      ensures if exists i :: 0 <= i < |old(rows)| && old(rows)[i].key == key then rows == old(rows)
              else rows == old(rows) + [Row(key, eventType, partitionKey, at, 0, false)]
      ensures id == if KeyTaken(old(rows), key) then None else Some(|old(rows)|)
    {
      if KeyTaken(rows, key) {
        return None;
      }
      rows := rows + [Row(key, eventType, partitionKey, at, 0, false)];
      return Some(|rows| - 1);
    }

    /** The oldest row the query may still return, if any. */
    method OldestAvailable(locked: set<nat>, maxAttempts: nat, taken: set<nat>) returns (best: Option<nat>)
      ensures best.None? ==> forall id: nat :: Available(rows, locked, maxAttempts, id) ==> id in taken
      ensures best.Some? ==> IsOldestLeft(rows, locked, maxAttempts, taken, best.value)
    {
      best := None;
      for i := 0 to |rows|
        invariant best.None? ==> forall id: nat :: id < i && Available(rows, locked, maxAttempts, id) ==> id in taken
        invariant best.Some? ==>
                    && Available(rows, locked, maxAttempts, best.value) && best.value !in taken
                    && forall id: nat :: id < i && Available(rows, locked, maxAttempts, id) && id !in taken ==>
                         rows[best.value].createdAt <= rows[id].createdAt
      {
        if i !in locked && i !in taken && Claimable(rows[i], maxAttempts) {
          if best.None? || rows[i].createdAt < rows[best.value].createdAt {
            best := Some(i);
          }
        }
      }
    }

    /** Unpublished rows with attempts left, oldest first, skipping rows other transactions have locked. */
    method ClaimOutboxBatch(locked: set<nat>, limit: nat, maxAttempts: nat) returns (ids: seq<nat>)
      ensures IsClaim(rows, locked, limit, maxAttempts, ids)
    {
      ids := [];
      var best := OldestAvailable(locked, maxAttempts, {});
      while |ids| < limit && best.Some?
        invariant |ids| <= limit
        invariant OldestFirst(rows, locked, maxAttempts, ids)
        invariant best.None? ==> forall id: nat :: Available(rows, locked, maxAttempts, id) ==> id in ids
        invariant best.Some? ==> IsOldestLeft(rows, locked, maxAttempts, (set id | id in ids), best.value)
        decreases limit - |ids|
      {
        ExtendOldestFirst(rows, locked, maxAttempts, ids, best.value);
        ids := ids + [best.value];
        best := OldestAvailable(locked, maxAttempts, set id | id in ids);
      }
    }

    /** Claim a batch, publish it row by row, commit.  `broker` is what Kafka does to each row. */
    method PollAndPublish(locked: set<nat>, limit: nat, maxAttempts: nat, orgs: set<nat>, broker: nat -> Outcome)
      returns (published: nat, ghost ids: seq<nat>)
      modifies this
      ensures IsClaim(old(rows), locked, limit, maxAttempts, ids)
      ensures published == CountAcknowledged(old(rows), ids, KnownPartitions(orgs), broker)
      ensures published == |AcknowledgedIds(old(rows), ids, KnownPartitions(orgs), broker)|
      ensures BatchHandled(old(rows), rows, old(letters), letters, log, ids, KnownPartitions(orgs), maxAttempts, broker)
      ensures
        var start := Session(set id | id in ids, map[], [], KnownPartitions(orgs));
        var (s, sent) := PublishAll(old(rows), start, old(log), ids, maxAttempts, broker);
        rows == WriteBack(old(rows), s.done) && letters == old(letters) + s.letters && log == sent
    {
      var batch := ClaimOutboxBatch(locked, limit, maxAttempts);
      ids := batch;
      published := PublishBatch(batch, maxAttempts, KnownPartitions(orgs), broker, set id | id in ids);
      CountIsCardinality(old(rows), ids, KnownPartitions(orgs), broker);
      PublishedBatchIsHandled(old(rows), old(letters), old(log), ids, KnownPartitions(orgs), maxAttempts, broker);
    }

    method PublishBatch(batch: seq<nat>, maxAttempts: nat, known: set<string>, broker: nat -> Outcome,
                        ghost claimed: set<nat>)
      returns (published: nat)
      requires NoDuplicates(batch) && forall j :: 0 <= j < |batch| ==> batch[j] < |rows|
      modifies this
      ensures published == CountAcknowledged(old(rows), batch, known, broker)
      ensures
        var start := Session(claimed, map[], [], known);
        var (s, sent) := PublishAll(old(rows), start, old(log), batch, maxAttempts, broker);
        rows == WriteBack(old(rows), s.done) && letters == old(letters) + s.letters && log == sent
    {
      published := 0;
      ghost var rows0 := rows;
      ghost var start := Session(claimed, map[], [], known);
      ghost var s := start;
      for i := 0 to |batch|
        invariant rows0 == old(rows) && s.known == known
        invariant forall j :: i <= j < |batch| ==> batch[j] !in s.done
        invariant rows == WriteBack(rows0, s.done)
        invariant letters == old(letters) + s.letters
        invariant PublishAll(rows0, s, log, batch[i..], maxAttempts, broker)
               == PublishAll(rows0, start, old(log), batch, maxAttempts, broker)
        invariant published + CountAcknowledged(rows0, batch[i..], known, broker)
               == CountAcknowledged(rows0, batch, known, broker)
      {
        var id := batch[i];
        ghost var h := HandleRow(id, rows0[id], known, maxAttempts, broker(id));
        assert batch[i..][1..] == batch[i + 1..] && batch[i..][0] == id;
        WriteBackOne(rows0, s.done, id, h.row);
        var acked := PublishRow(id, known, maxAttempts, broker(id));
        if acked {
          published := published + 1;
        }
        s := s.(done := s.done[id := h.row], letters := s.letters + h.letters);
      }
    }

    /** One iteration of the publish loop; reports whether the broker acknowledged the row. */
    method PublishRow(id: nat, known: set<string>, maxAttempts: nat, o: Outcome) returns (acked: bool)
      requires id < |rows|
      modifies this
      ensures acked == Acknowledged(old(rows)[id], known, o)
      ensures acked ==>
                && rows == old(rows)[id := old(rows)[id].(published := true)] && letters == old(letters)
                && log == old(log) + [Message(ResolveTopic(old(rows)[id].eventType), id, StableEventId(id))]
      ensures |rows| == |old(rows)|
      ensures !acked && Claimable(old(rows)[id], maxAttempts) ==>
                && rows[id].attempts == old(rows)[id].attempts + 1
                && (rows[id].published <==> old(rows)[id].attempts + 1 == maxAttempts)
                && |letters| == |old(letters)| + (if rows[id].published then 1 else 0)
      ensures
        var h := HandleRow(id, old(rows)[id], known, maxAttempts, o);
        rows == old(rows)[id := h.row] && letters == old(letters) + h.letters && log == old(log) + h.messages
    {
      var row := rows[id];
      acked := false;
      if row.partitionKey !in known {
        FailAttempt(id, row, maxAttempts, o.dlq);
      } else {
        var topic := ResolveTopic(row.eventType);
        if o.own.Stored() {
          log := log + [MessageTo(topic, id)];
        }
        if o.own.Acked? {
          rows := rows[id := row.(published := true)];
          acked := true;
        } else {
          FailAttempt(id, row, maxAttempts, o.dlq);
        }
      }
    }

    /** A failed attempt: count it, and after the last one move the row to the dead letters. */
    method FailAttempt(id: nat, row: Row, maxAttempts: nat, dlq: Send)
      requires id < |rows|
      modifies this
      ensures
        var h := FailRow(id, row, maxAttempts, dlq);
        rows == old(rows)[id := h.row] && letters == old(letters) + h.letters && log == old(log) + h.messages
      ensures rows == old(rows)[id := rows[id]] && SameMessage(rows[id], row)
      ensures Claimable(row, maxAttempts) ==>
                AttemptCounted(row, rows[id], old(letters), letters, old(log), log, id, maxAttempts, dlq)
    {
      if Claimable(row, maxAttempts) {
        FailedAttemptIsCounted(letters, log, id, row, maxAttempts, dlq);
      }
      var failed := row.(attempts := row.attempts + 1);
      if failed.attempts >= maxAttempts {
        letters := letters + [DeadLetter(id, row.eventType, row.partitionKey, failed.attempts, false)];
        failed := failed.(published := true);
        if dlq.Stored() {
          log := log + [MessageTo(DLQ_TOPIC, id)];
        }
      }
      rows := rows[id := failed];
    }

    /** `dict.fromkeys`: first occurrences, in order. */
    static method UniqueIds(ids: seq<nat>) returns (unique: seq<nat>)
      ensures NoDuplicates(unique)
      ensures forall id :: id in unique <==> id in ids
    {
      unique := [];
      for i := 0 to |ids|
        invariant NoDuplicates(unique)
        invariant forall id :: id in unique <==> id in ids[..i]
      {
        if ids[i] !in unique {
          unique := unique + [ids[i]];
        }
      }
    }

    /** Reset poisoned rows for re-publishing and mark their letters; a dry run only reports. */
    method ReplayDeadLetters(ids: seq<nat>, dryRun: bool) returns (unique: seq<nat>, results: seq<ReplayStatus>)
      modifies this`rows, this`letters
      ensures NoDuplicates(unique) && forall id :: id in unique <==> id in ids
      ensures |results| == |unique|
      ensures forall i :: 0 <= i < |unique| ==> results[i] == ReplayStatusOf(old(rows), old(letters), unique[i])
      ensures forall i :: 0 <= i < |unique| ==>
                && (results[i] == NotFound <==> unique[i] >= |old(letters)|)
                && (results[i] == AlreadyReplayed <==> unique[i] < |old(letters)| && old(letters)[unique[i]].replayed)
                && (results[i] == Replayed <==> CanReplay(old(rows), old(letters), unique[i]))
      ensures (rows, letters)
           == if dryRun then (old(rows), old(letters)) else ReplayAll(old(rows), old(letters), unique)
      ensures !dryRun ==> ReplaysExactly(old(rows), rows, old(letters), letters, ids)
    {
      unique := UniqueIds(ids);
      results := [];
      assert unique[..0] == [];
      for i := 0 to |unique|
        invariant |results| == i
        invariant forall j :: 0 <= j < i ==> results[j] == ReplayStatusOf(old(rows), old(letters), unique[j])
        invariant (rows, letters)
               == if dryRun then (old(rows), old(letters)) else ReplayAll(old(rows), old(letters), unique[..i])
      {
        var d := unique[i];
        ReplayAllFrame(old(rows), old(letters), unique[..i], d);
        var status := ReplayStatusOf(rows, letters, d);
        if status == Replayed && !dryRun {
          var id := letters[d].outboxId;
          rows := rows[id := rows[id].(published := false, attempts := 0)];
          letters := letters[d := letters[d].(replayed := true)];
        }
        results := results + [status];
        assert unique[..i + 1][..i] == unique[..i];
      }
      assert unique[..|unique|] == unique;
      ReplayAllIsExact(old(rows), old(letters), unique);
    }
  }

  /** The letter is open and its row exists. */
  predicate CanReplay(rows: seq<Row>, letters: seq<DeadLetter>, d: nat) {
    d < |letters| && !letters[d].replayed && letters[d].outboxId < |rows|
  }

  /** Exactly the letters asked for that can be replayed are marked, and exactly their rows start over, unpublished and
      without attempts; everything else is as it was. */
  ghost predicate ReplaysExactly(rows: seq<Row>, rows': seq<Row>, letters: seq<DeadLetter>, letters': seq<DeadLetter>,
                                 ids: seq<nat>)
  {
    && |rows'| == |rows| && |letters'| == |letters|
    && (forall d :: 0 <= d < |letters| ==>
          letters'[d] == if d in ids && CanReplay(rows, letters, d) then letters[d].(replayed := true) else letters[d])
    && (forall id :: 0 <= id < |rows| ==>
          rows'[id] == if RowReplayed(rows, letters, ids, id) then rows[id].(published := false, attempts := 0)
                       else rows[id])
  }

  ghost predicate RowReplayed(rows: seq<Row>, letters: seq<DeadLetter>, ids: seq<nat>, id: nat) {
    exists d :: d in ids && CanReplay(rows, letters, d) && letters[d].outboxId == id
  }

  lemma {:induction false} ReplayAllIsExact(rows: seq<Row>, letters: seq<DeadLetter>, ids: seq<nat>)
    requires NoDuplicates(ids)
    ensures
      var (r, l) := ReplayAll(rows, letters, ids);
      ReplaysExactly(rows, r, letters, l, ids)
  {
    if ids == [] {
    } else {
      var n := |ids| - 1;
      var d := ids[n];
      ReplayAllIsExact(rows, letters, ids[..n]);
      var (r, l) := ReplayAll(rows, letters, ids[..n]);
      assert d !in ids[..n];
      ReplayAllFrame(rows, letters, ids[..n], d);
      assert CanReplay(r, l, d) <==> CanReplay(rows, letters, d);
      assert forall x :: x in ids <==> x in ids[..n] || x == d;
      forall id | 0 <= id < |rows|
        ensures RowReplayed(rows, letters, ids, id) <==>
                  RowReplayed(rows, letters, ids[..n], id) || (CanReplay(rows, letters, d) && letters[d].outboxId == id)
      {
        RowReplayedNext(rows, letters, ids, id);
      }
    }
  }

  lemma RowReplayedNext(rows: seq<Row>, letters: seq<DeadLetter>, ids: seq<nat>, id: nat)
    requires ids != []
    ensures
      var d := ids[|ids| - 1];
      RowReplayed(rows, letters, ids, id) <==>
        RowReplayed(rows, letters, ids[..|ids| - 1], id) || (CanReplay(rows, letters, d) && letters[d].outboxId == id)
  {
    var n := |ids| - 1;
    assert forall x :: x in ids <==> x in ids[..n] || x == ids[n];
  }

  function ReplayAll(rows: seq<Row>, letters: seq<DeadLetter>, ids: seq<nat>): (seq<Row>, seq<DeadLetter>) {
    if ids == [] then (rows, letters)
    else
      var (r, l) := ReplayAll(rows, letters, ids[..|ids| - 1]);
      ReplayLetter(r, l, ids[|ids| - 1])
  }

  /** Replaying some letters does not disturb the status of the others. */
  lemma {:induction false} ReplayAllFrame(rows: seq<Row>, letters: seq<DeadLetter>, ids: seq<nat>, d: nat)
    requires d !in ids
    ensures
      var (r, l) := ReplayAll(rows, letters, ids);
      && |r| == |rows| && |l| == |letters|
      && (d < |letters| ==> l[d] == letters[d])
      && ReplayStatusOf(r, l, d) == ReplayStatusOf(rows, letters, d)
  {
    if ids == [] {
    } else {
      ReplayAllFrame(rows, letters, ids[..|ids| - 1], d);
      assert ids[|ids| - 1] in ids;
    }
  }

  /** A replayed letter stays replayed, whatever is replayed with it. */
  lemma {:induction false} ReplayAllMarks(rows: seq<Row>, letters: seq<DeadLetter>, ids: seq<nat>, d: nat)
    requires forall i :: 0 <= i < |letters| ==> letters[i].outboxId < |rows|
    ensures
      var (r, l) := ReplayAll(rows, letters, ids);
      && |r| == |rows| && |l| == |letters|
      && (forall i :: 0 <= i < |letters| ==> l[i].outboxId < |r|)
      && (d in ids && d < |l| ==> l[d].replayed)
  {
    if ids == [] {
    } else {
      ReplayAllMarks(rows, letters, ids[..|ids| - 1], d);
    }
  }

  lemma {:induction false} NothingLeftToReplay(rows: seq<Row>, letters: seq<DeadLetter>, ids: seq<nat>)
    requires forall d :: d in ids && d < |letters| ==> letters[d].replayed
    ensures ReplayAll(rows, letters, ids) == (rows, letters)
  {
    if ids == [] {
    } else {
      NothingLeftToReplay(rows, letters, ids[..|ids| - 1]);
      assert ids[|ids| - 1] in ids;
    }
  }

  /** Replaying the same letters twice is the same as replaying them once. */
  lemma ReplayIsIdempotent(rows: seq<Row>, letters: seq<DeadLetter>, ids: seq<nat>)
    requires forall i :: 0 <= i < |letters| ==> letters[i].outboxId < |rows|
    ensures
      var (r, l) := ReplayAll(rows, letters, ids);
      ReplayAll(r, l, ids) == (r, l)
  {
    var (r, l) := ReplayAll(rows, letters, ids);
    forall d | d in ids && d < |l|
      ensures l[d].replayed
    {
      ReplayAllMarks(rows, letters, ids, d);
    }
    NothingLeftToReplay(r, l, ids);
  }
}
