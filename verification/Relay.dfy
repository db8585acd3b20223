/**
 Any number of outbox relays over shared tables: each claims unlocked rows, sends them one by one, and then
 commits or is rolled back, while producers enqueue and operators replay dead letters.
 */
module Relay {
  import opened Text
  import opened Outbox

  /** The open transaction of one relay: the rows it has locked, and its uncommitted writes. */
  datatype Session = Session(
    claimed: set<nat>,
    done: map<nat, Row>,
    letters: seq<DeadLetter>,
    known: set<string>)

  datatype World = World(
    rows: seq<Row>,
    letters: seq<DeadLetter>,
    log: seq<Message>,
    sessions: map<nat, Session>)

  const EMPTY := World([], [], [], map[])

  datatype Step =
    | Enqueue(key: string, eventType: string, partitionKey: string, at: int)
    | Claim(relay: nat, ids: seq<nat>, limit: nat, orgs: set<nat>)
    | SendRow(relay: nat, id: nat, outcome: Outcome)
    | Commit(relay: nat)
    | Crash(relay: nat)
    | Replay(letterId: nat)

  /* ---------- claiming ---------- */

  predicate Claimable(row: Row, maxAttempts: nat) {
    !row.published && row.attempts < maxAttempts
  }

  ghost predicate Available(rows: seq<Row>, locked: set<nat>, maxAttempts: nat, id: nat) {
    id < |rows| && id !in locked && Claimable(rows[id], maxAttempts)
  }

  ghost predicate NoDuplicates(ids: seq<nat>) {
    forall i, j :: 0 <= i < j < |ids| ==> ids[i] != ids[j]
  }

  /** `ids` are distinct available rows, oldest first, and no available row left out is older. */
  ghost predicate OldestFirst(rows: seq<Row>, locked: set<nat>, maxAttempts: nat, ids: seq<nat>) {
    && NoDuplicates(ids)
    && (forall i :: 0 <= i < |ids| ==> Available(rows, locked, maxAttempts, ids[i]))
    && (forall i, j :: 0 <= i < j < |ids| ==> rows[ids[i]].createdAt <= rows[ids[j]].createdAt)
    && (forall i, id: nat :: 0 <= i < |ids| && Available(rows, locked, maxAttempts, id) && id !in ids ==>
          rows[ids[i]].createdAt <= rows[id].createdAt)
  }

  /** The result of the claiming query: the oldest available rows, at most `limit` of them, locked rows skipped. */
  ghost predicate IsClaim(rows: seq<Row>, locked: set<nat>, limit: nat, maxAttempts: nat, ids: seq<nat>) {
    && |ids| <= limit
    && OldestFirst(rows, locked, maxAttempts, ids)
    && (|ids| < limit ==> forall id: nat :: Available(rows, locked, maxAttempts, id) ==> id in ids)
  }

  ghost function Locked(w: World): set<nat> {
    set r, id | r in w.sessions && id in w.sessions[r].claimed :: id
  }

  /* ---------- steps ---------- */

  predicate KeyTaken(rows: seq<Row>, key: string) {
    exists i :: 0 <= i < |rows| && rows[i].key == key
  }

  function EnqueueRow(rows: seq<Row>, key: string, eventType: string, partitionKey: string, at: int): seq<Row> {
    if KeyTaken(rows, key) then rows else rows + [Row(key, eventType, partitionKey, at, 0, false)]
  }

  function Advance(row: Row, id: nat, s: Session, maxAttempts: nat, o: Outcome): (Session, seq<Message>) {
    var h := HandleRow(id, row, s.known, maxAttempts, o);
    (s.(done := s.done[id := h.row], letters := s.letters + h.letters), h.messages)
  }

  function WriteBack(rows: seq<Row>, done: map<nat, Row>): (r: seq<Row>)
    ensures |r| == |rows|
    ensures forall i :: 0 <= i < |rows| ==> r[i] == if i in done then done[i] else rows[i]
  {
    seq(|rows|, i requires 0 <= i < |rows| => if i in done then done[i] else rows[i])
  }

  datatype ReplayStatus = Replayed | AlreadyReplayed | NotFound | OutboxMissing

  function ReplayStatusOf(rows: seq<Row>, letters: seq<DeadLetter>, d: nat): ReplayStatus {
    if d >= |letters| then NotFound
    else if letters[d].replayed then AlreadyReplayed
    else if letters[d].outboxId >= |rows| then OutboxMissing
    else Replayed
  }

  /** Resetting one poisoned row: it becomes publishable again and its letter is marked. */
  function ReplayLetter(rows: seq<Row>, letters: seq<DeadLetter>, d: nat): (seq<Row>, seq<DeadLetter>) {
    if ReplayStatusOf(rows, letters, d) != Replayed then (rows, letters)
    else
      var id := letters[d].outboxId;
      (rows[id := rows[id].(published := false, attempts := 0)],
       letters[d := letters[d].(replayed := true)])
  }

  ghost predicate Enabled(w: World, step: Step, maxAttempts: nat) {
    match step
    case Enqueue(_, _, _, _) => true
    case Claim(r, ids, limit, _) => r !in w.sessions && IsClaim(w.rows, Locked(w), limit, maxAttempts, ids)
    case SendRow(r, id, _) =>
      r in w.sessions && id in w.sessions[r].claimed && id !in w.sessions[r].done && id < |w.rows|
    case Commit(r) => r in w.sessions && w.sessions[r].done.Keys == w.sessions[r].claimed
    case Crash(r) => r in w.sessions
    case Replay(_) => true
  }

  ghost function Apply(w: World, step: Step, maxAttempts: nat): World
    requires Enabled(w, step, maxAttempts)
  {
    match step
    case Enqueue(key, eventType, partitionKey, at) =>
      w.(rows := EnqueueRow(w.rows, key, eventType, partitionKey, at))
    case Claim(r, ids, _, orgs) =>
      w.(sessions := w.sessions[r := Session(set id | id in ids, map[], [], KnownPartitions(orgs))])
    case SendRow(r, id, o) =>
      var (s, messages) := Advance(w.rows[id], id, w.sessions[r], maxAttempts, o);
      w.(sessions := w.sessions[r := s], log := w.log + messages)
    case Commit(r) =>
      var s := w.sessions[r];
      World(WriteBack(w.rows, s.done), w.letters + s.letters, w.log, w.sessions - {r})
    case Crash(r) =>
      w.(sessions := w.sessions - {r})
    case Replay(d) =>
      var (rows, letters) := ReplayLetter(w.rows, w.letters, d);
      w.(rows := rows, letters := letters)
  }

  ghost predicate ValidRun(w: World, steps: seq<Step>, maxAttempts: nat)
    decreases |steps|
  {
    steps == [] ||
    (Enabled(w, steps[0], maxAttempts) && ValidRun(Apply(w, steps[0], maxAttempts), steps[1..], maxAttempts))
  }

  ghost function After(w: World, steps: seq<Step>, maxAttempts: nat): World
    requires ValidRun(w, steps, maxAttempts)
    decreases |steps|
  {
    if steps == [] then w else After(Apply(w, steps[0], maxAttempts), steps[1..], maxAttempts)
  }

  /* ---------- the fate of a row ---------- */

  ghost predicate OnOwnTopic(log: seq<Message>, row: Row, id: nat) {
    MessageTo(ResolveTopic(row.eventType), id) in log
  }

  /** Waiting to be published, with attempts left and no open dead letter. */
  ghost predicate Pending(row: Row, open: nat, maxAttempts: nat) {
    !row.published && row.attempts < maxAttempts && open == 0
  }

  /** On its own topic under its stable event id, addressed to an organization, and not dead-lettered. */
  ghost predicate Delivered(log: seq<Message>, id: nat, row: Row, open: nat) {
    row.published && open == 0 && OnOwnTopic(log, row, id) && AllDigits(row.partitionKey)
  }

  /** Poisoned, with exactly one dead letter an operator can replay. */
  ghost predicate Dead(row: Row, open: nat) {
    row.published && open == 1
  }

  ghost predicate Accounted(log: seq<Message>, id: nat, row: Row, open: nat, maxAttempts: nat) {
    Pending(row, open, maxAttempts) || Delivered(log, id, row, open) || Dead(row, open)
  }

  ghost function Open(w: World, id: nat): nat {
    OpenLetters(w.letters)[id]
  }

  /* ---------- the inductive invariant ---------- */

  ghost predicate SameMessage(a: Row, b: Row) {
    a.key == b.key && a.eventType == b.eventType && a.partitionKey == b.partitionKey && a.createdAt == b.createdAt
  }

  ghost predicate RowInv(w: World, id: nat, maxAttempts: nat)
    requires id < |w.rows|
  {
    Accounted(w.log, id, w.rows[id], Open(w, id), maxAttempts)
  }

  ghost predicate Progressed(draft: Row, row: Row) {
    SameMessage(draft, row) && (draft.published || draft.attempts > row.attempts)
  }

  ghost predicate DraftInv(log: seq<Message>, s: Session, id: nat, row: Row, maxAttempts: nat) {
    if id in s.done then
      Progressed(s.done[id], row) && Accounted(log, id, s.done[id], OpenLetters(s.letters)[id], maxAttempts)
    else
      id !in OpenLetters(s.letters)
  }

  ghost predicate SessionRow(w: World, s: Session, id: nat, maxAttempts: nat) {
    && id < |w.rows|
    && Pending(w.rows[id], Open(w, id), maxAttempts)
    && DraftInv(w.log, s, id, w.rows[id], maxAttempts)
  }

  ghost predicate SessionInv(w: World, s: Session, maxAttempts: nat) {
    && (forall k :: k in s.known ==> AllDigits(k))
    && s.done.Keys <= s.claimed
    && (forall id :: id in s.claimed ==> SessionRow(w, s, id, maxAttempts))
    && (forall id :: id in OpenLetters(s.letters) ==> id in s.done)
  }

  ghost predicate RowsInv(w: World, maxAttempts: nat) {
    forall id :: 0 <= id < |w.rows| ==> RowInv(w, id, maxAttempts)
  }

  ghost predicate LettersInv(w: World) {
    forall id :: id in OpenLetters(w.letters) ==> id < |w.rows|
  }

  ghost predicate SessionsInv(w: World, maxAttempts: nat) {
    forall r :: r in w.sessions ==> SessionInv(w, w.sessions[r], maxAttempts)
  }

  ghost predicate DisjointClaims(sessions: map<nat, Session>) {
    forall r, q :: r in sessions && q in sessions && r != q ==> sessions[r].claimed !! sessions[q].claimed
  }

  ghost predicate Inv(w: World, maxAttempts: nat) {
    RowsInv(w, maxAttempts) && LettersInv(w) && SessionsInv(w, maxAttempts) && DisjointClaims(w.sessions)
  }

  /** A session does not notice changes to rows it has not locked. */
  lemma SessionFrame(w: World, w': World, s: Session, maxAttempts: nat)
    requires SessionInv(w, s, maxAttempts)
    requires forall id :: id in s.claimed && id < |w.rows| ==>
               id < |w'.rows| && w'.rows[id] == w.rows[id] && Open(w', id) == Open(w, id)
    requires forall m :: m in w.log ==> m in w'.log
    ensures SessionInv(w', s, maxAttempts)
  {
    forall id | id in s.claimed
      ensures SessionRow(w', s, id, maxAttempts)
    {
      assert SessionRow(w, s, id, maxAttempts);
    }
  }

  /** The broker has stored the row under its own topic and said so. */
  predicate Acknowledged(row: Row, known: set<string>, o: Outcome) {
    row.partitionKey in known && o.own.Acked?
  }

  /** The exact fate of a handled row. It is published without a letter exactly when its organization is known and the
      broker acknowledged it, and then exactly one message went out, on its own topic. Otherwise it has one more
      attempt; it is dead exactly when that was the last one, with one open letter that repeats the row; and what went
      out is a copy the broker stored without saying so and, for a dead row, what reached the dead-letter topic. */
  lemma HandledFateIsExact(id: nat, row: Row, known: set<string>, maxAttempts: nat, o: Outcome)
    requires Claimable(row, maxAttempts)
    ensures
      var h := HandleRow(id, row, known, maxAttempts, o);
      var own := Message(ResolveTopic(row.eventType), id, StableEventId(id));
      var dead := Message("billing.dlq", id, StableEventId(id));
      && (h.row.published && h.letters == [] <==> Acknowledged(row, known, o))
      && (if Acknowledged(row, known, o) then
            h.row == row.(published := true) && h.messages == [own]
          else
            && h.row == row.(published := h.row.published, attempts := row.attempts + 1)
            && (h.row.published <==> row.attempts + 1 == maxAttempts)
            && h.letters == (if h.row.published
                             then [DeadLetter(id, row.eventType, row.partitionKey, row.attempts + 1, false)] else [])
            && h.messages == (if row.partitionKey in known && o.own == StoredUnacked then [own] else [])
                           + (if h.row.published && o.dlq != Lost then [dead] else []))
  {
  }

  /* What one handled row looks like. */
  lemma HandledIsAccounted(id: nat, row: Row, known: set<string>, maxAttempts: nat, o: Outcome)
    requires Claimable(row, maxAttempts) && forall k :: k in known ==> AllDigits(k)
    ensures
      var h := HandleRow(id, row, known, maxAttempts, o);
      && Progressed(h.row, row)
      && Accounted(h.messages, id, h.row, OpenLetters(h.letters)[id], maxAttempts)
      && (forall x :: x in OpenLetters(h.letters) ==> x == id)
  {
    HandledLetters(id, row, known, maxAttempts, o);
  }

  lemma EnqueuePreservesInv(w: World, row: Row, maxAttempts: nat)
    requires Inv(w, maxAttempts) && Claimable(row, maxAttempts)
    ensures Inv(w.(rows := w.rows + [row]), maxAttempts)
  {
    var w' := w.(rows := w.rows + [row]);
    forall id | 0 <= id < |w'.rows|
      ensures RowInv(w', id, maxAttempts)
    {
      if id < |w.rows| {
        assert RowInv(w, id, maxAttempts);
      } else {
        assert id !in OpenLetters(w.letters);
      }
    }
    forall r | r in w.sessions
      ensures SessionInv(w', w.sessions[r], maxAttempts)
    {
      SessionFrame(w, w', w.sessions[r], maxAttempts);
    }
  }

  lemma ClaimPreservesInv(w: World, step: Step, maxAttempts: nat)
    requires Inv(w, maxAttempts) && step.Claim? && Enabled(w, step, maxAttempts)
    ensures Inv(Apply(w, step, maxAttempts), maxAttempts)
  {
    var w' := Apply(w, step, maxAttempts);
    var s := w'.sessions[step.relay];
    forall id | id in s.claimed
      ensures SessionRow(w', s, id, maxAttempts) && id !in Locked(w)
    {
      var i :| 0 <= i < |step.ids| && step.ids[i] == id;
      assert Available(w.rows, Locked(w), maxAttempts, step.ids[i]);
      assert RowInv(w, id, maxAttempts);
    }
    forall r | r in w.sessions
      ensures SessionInv(w', w.sessions[r], maxAttempts) && w.sessions[r].claimed !! s.claimed
    {
      SessionFrame(w, w', w.sessions[r], maxAttempts);
    }
    forall id | 0 <= id < |w'.rows|
      ensures RowInv(w', id, maxAttempts)
    {
      assert RowInv(w, id, maxAttempts);
    }
  }

  lemma AdvanceSession(w: World, s: Session, id: nat, maxAttempts: nat, o: Outcome)
    requires maxAttempts >= 1 && SessionInv(w, s, maxAttempts) && id in s.claimed && id !in s.done && id < |w.rows|
    ensures
      var (s', messages) := Advance(w.rows[id], id, s, maxAttempts, o);
      SessionInv(w.(log := w.log + messages), s', maxAttempts)
  {
    var row := w.rows[id];
    var h := HandleRow(id, row, s.known, maxAttempts, o);
    var (s', messages) := Advance(row, id, s, maxAttempts, o);
    var w' := w.(log := w.log + messages);
    assert SessionRow(w, s, id, maxAttempts);
    HandledIsAccounted(id, row, s.known, maxAttempts, o);
    OpenLettersConcat(s.letters, h.letters);
    forall x | x in s'.claimed
      ensures SessionRow(w', s', x, maxAttempts)
    {
      assert SessionRow(w, s, x, maxAttempts);
    }
  }

  lemma SendPreservesInv(w: World, r: nat, id: nat, o: Outcome, maxAttempts: nat)
    requires maxAttempts >= 1 && Inv(w, maxAttempts) && Enabled(w, SendRow(r, id, o), maxAttempts)
    ensures Inv(Apply(w, SendRow(r, id, o), maxAttempts), maxAttempts)
  {
    var w' := Apply(w, SendRow(r, id, o), maxAttempts);
    forall q | q in w'.sessions
      ensures SessionInv(w', w'.sessions[q], maxAttempts)
    {
      if q == r {
        AdvanceSession(w, w.sessions[r], id, maxAttempts, o);
        SessionFrame(w.(log := w'.log), w', w'.sessions[r], maxAttempts);
      } else {
        SessionFrame(w, w', w.sessions[q], maxAttempts);
      }
    }
    forall x | 0 <= x < |w'.rows|
      ensures RowInv(w', x, maxAttempts)
    {
      assert RowInv(w, x, maxAttempts);
    }
  }

  lemma CommitKeepsRow(w: World, r: nat, id: nat, maxAttempts: nat)
    requires SessionsInv(w, maxAttempts) && Enabled(w, Commit(r), maxAttempts) && id < |w.rows|
    requires RowInv(w, id, maxAttempts)
    ensures RowInv(Apply(w, Commit(r), maxAttempts), id, maxAttempts)
  {
    var s := w.sessions[r];
    OpenLettersConcat(w.letters, s.letters);
    if id in s.claimed {
      assert SessionRow(w, s, id, maxAttempts);
    }
  }

  lemma CommitPreservesInv(w: World, r: nat, maxAttempts: nat)
    requires Inv(w, maxAttempts) && Enabled(w, Commit(r), maxAttempts)
    ensures Inv(Apply(w, Commit(r), maxAttempts), maxAttempts)
  {
    var w' := Apply(w, Commit(r), maxAttempts);
    var s := w.sessions[r];
    forall id | 0 <= id < |w'.rows|
      ensures RowInv(w', id, maxAttempts)
    {
      CommitKeepsRow(w, r, id, maxAttempts);
    }
    OpenLettersConcat(w.letters, s.letters);
    forall id | id in OpenLetters(w'.letters)
      ensures id < |w'.rows|
    {
      if id in s.claimed {
        assert SessionRow(w, s, id, maxAttempts);
      }
    }
    CommitKeepsSessions(w, r, maxAttempts);
  }

  lemma CommitKeepsSessions(w: World, r: nat, maxAttempts: nat)
    requires Inv(w, maxAttempts) && Enabled(w, Commit(r), maxAttempts)
    ensures SessionsInv(Apply(w, Commit(r), maxAttempts), maxAttempts)
  {
    var w' := Apply(w, Commit(r), maxAttempts);
    OpenLettersConcat(w.letters, w.sessions[r].letters);
    forall q | q in w'.sessions
      ensures SessionInv(w', w'.sessions[q], maxAttempts)
    {
      SessionFrame(w, w', w.sessions[q], maxAttempts);
    }
  }

  lemma OpenLetterMeansDead(w: World, d: nat, maxAttempts: nat)
    requires Inv(w, maxAttempts) && d < |w.letters| && !w.letters[d].replayed
    ensures w.letters[d].outboxId < |w.rows|
    ensures Dead(w.rows[w.letters[d].outboxId], Open(w, w.letters[d].outboxId))
  {
    OpenLettersClose(w.letters, d);
    assert RowInv(w, w.letters[d].outboxId, maxAttempts);
  }

  /** Replaying an open letter finds a dead row and makes exactly that row publishable again. */
  lemma ReplayReopensDeadRow(w: World, d: nat, maxAttempts: nat)
    requires maxAttempts >= 1 && Inv(w, maxAttempts) && d < |w.letters| && !w.letters[d].replayed
    ensures ReplayStatusOf(w.rows, w.letters, d) == Replayed
    ensures
      var id := w.letters[d].outboxId;
      var w' := Apply(w, Replay(d), maxAttempts);
      && Dead(w.rows[id], Open(w, id))
      && |w'.rows| == |w.rows|
      && Pending(w'.rows[id], Open(w', id), maxAttempts) && w'.rows[id].attempts == 0
      && SameMessage(w'.rows[id], w.rows[id])
      && forall x :: 0 <= x < |w.rows| && x != id ==> w'.rows[x] == w.rows[x] && Open(w', x) == Open(w, x)
  {
    OpenLetterMeansDead(w, d, maxAttempts);
    OpenLettersClose(w.letters, d);
    var w' := Apply(w, Replay(d), maxAttempts);
    var id := w.letters[d].outboxId;
    assert OpenLetters(w'.letters) == OpenLetters(w.letters) - multiset{id};
  }

  lemma ReplayPreservesInv(w: World, d: nat, maxAttempts: nat)
    requires maxAttempts >= 1 && Inv(w, maxAttempts)
    ensures Inv(Apply(w, Replay(d), maxAttempts), maxAttempts)
  {
    if d < |w.letters| && !w.letters[d].replayed {
      var id := w.letters[d].outboxId;
      ReplayReopensDeadRow(w, d, maxAttempts);
      var w' := Apply(w, Replay(d), maxAttempts);
      forall x | 0 <= x < |w'.rows|
        ensures RowInv(w', x, maxAttempts)
      {
        assert RowInv(w, x, maxAttempts);
      }
      ReplayKeepsSessions(w, w', id, maxAttempts);
      OpenLettersClose(w.letters, d);
    }
  }

  lemma ReplayKeepsSessions(w: World, w': World, id: nat, maxAttempts: nat)
    requires SessionsInv(w, maxAttempts) && w'.sessions == w.sessions && w'.log == w.log && |w'.rows| == |w.rows|
    requires id < |w.rows| && Dead(w.rows[id], Open(w, id))
    requires forall x :: 0 <= x < |w.rows| && x != id ==> w'.rows[x] == w.rows[x] && Open(w', x) == Open(w, x)
    ensures SessionsInv(w', maxAttempts)
  {
    forall q | q in w.sessions
      ensures SessionInv(w', w.sessions[q], maxAttempts)
    {
      assert id in w.sessions[q].claimed ==> SessionRow(w, w.sessions[q], id, maxAttempts);
      SessionFrame(w, w', w.sessions[q], maxAttempts);
    }
  }

  lemma CrashPreservesInv(w: World, r: nat, maxAttempts: nat)
    requires Inv(w, maxAttempts) && r in w.sessions
    ensures Inv(Apply(w, Crash(r), maxAttempts), maxAttempts)
  {
    var w' := Apply(w, Crash(r), maxAttempts);
    forall q | q in w'.sessions
      ensures SessionInv(w', w'.sessions[q], maxAttempts)
    {
      SessionFrame(w, w', w.sessions[q], maxAttempts);
    }
    forall x | 0 <= x < |w'.rows|
      ensures RowInv(w', x, maxAttempts)
    {
      assert RowInv(w, x, maxAttempts);
    }
  }

  lemma StepPreservesInv(w: World, step: Step, maxAttempts: nat)
    requires maxAttempts >= 1 && Inv(w, maxAttempts) && Enabled(w, step, maxAttempts)
    ensures Inv(Apply(w, step, maxAttempts), maxAttempts)
  {
    match step
    case Enqueue(key, eventType, partitionKey, at) =>
      if !KeyTaken(w.rows, key) {
        EnqueuePreservesInv(w, Row(key, eventType, partitionKey, at, 0, false), maxAttempts);
      }
    case Claim(_, _, _, _) => ClaimPreservesInv(w, step, maxAttempts);
    case SendRow(r, id, o) => SendPreservesInv(w, r, id, o, maxAttempts);
    case Commit(r) => CommitPreservesInv(w, r, maxAttempts);
    case Crash(r) => CrashPreservesInv(w, r, maxAttempts);
    case Replay(d) => ReplayPreservesInv(w, d, maxAttempts);
  }

  lemma {:induction false} RunPreservesInv(w: World, steps: seq<Step>, maxAttempts: nat)
    requires maxAttempts >= 1 && Inv(w, maxAttempts) && ValidRun(w, steps, maxAttempts)
    ensures Inv(After(w, steps, maxAttempts), maxAttempts)
    decreases |steps|
  {
    if steps == [] {
    } else {
      StepPreservesInv(w, steps[0], maxAttempts);
      RunPreservesInv(Apply(w, steps[0], maxAttempts), steps[1..], maxAttempts);
    }
  }

  /* ---------- theorem 1: no row is lost or stuck ---------- */

  ghost predicate ExactlyOneFate(w: World, id: nat, maxAttempts: nat)
    requires id < |w.rows|
  {
    var row, open := w.rows[id], Open(w, id);
    var pending, delivered, dead := Pending(row, open, maxAttempts), Delivered(w.log, id, row, open), Dead(row, open);
    (pending || delivered || dead) && !(pending && delivered) && !(pending && dead) && !(delivered && dead)
  }

  /** In every reachable state every committed row is exactly one of pending, delivered and dead-lettered, and the
      relays in flight hold disjoint claims. */
  lemma EveryRowHasOneFate(steps: seq<Step>, maxAttempts: nat)
    requires maxAttempts >= 1 && ValidRun(EMPTY, steps, maxAttempts)
    ensures
      var w := After(EMPTY, steps, maxAttempts);
      && (forall id :: 0 <= id < |w.rows| ==> ExactlyOneFate(w, id, maxAttempts))
      && DisjointClaims(w.sessions)
  {
    RunPreservesInv(EMPTY, steps, maxAttempts);
    var w := After(EMPTY, steps, maxAttempts);
    forall id | 0 <= id < |w.rows|
      ensures ExactlyOneFate(w, id, maxAttempts)
    {
      assert RowInv(w, id, maxAttempts);
    }
  }

  /** No row is stuck: in every reachable state a dead row has exactly one letter that an operator can replay. */
  lemma DeadRowHasOneOpenLetter(steps: seq<Step>, id: nat, maxAttempts: nat) returns (d: nat)
    requires maxAttempts >= 1 && ValidRun(EMPTY, steps, maxAttempts)
    requires
      var w := After(EMPTY, steps, maxAttempts);
      id < |w.rows| && Dead(w.rows[id], Open(w, id))
    ensures
      var w := After(EMPTY, steps, maxAttempts);
      forall x: nat ::
        x < |w.letters| && w.letters[x].outboxId == id && ReplayStatusOf(w.rows, w.letters, x) == Replayed <==> x == d
  {
    var w := After(EMPTY, steps, maxAttempts);
    OpenLettersOrigin(w.letters, id);
    d :| 0 <= d < |w.letters| && w.letters[d].outboxId == id && !w.letters[d].replayed;
    forall x: nat | x < |w.letters| && w.letters[x].outboxId == id && !w.letters[x].replayed
      ensures x == d
    {
      if x != d {
        OpenLettersClose(w.letters, d);
        OpenLettersClose(w.letters[d := w.letters[d].(replayed := true)], x);
      }
    }
  }

  /** No operator replay ever finds its outbox row missing. */
  lemma ReplayAlwaysFindsItsRow(steps: seq<Step>, d: nat, maxAttempts: nat)
    requires maxAttempts >= 1 && ValidRun(EMPTY, steps, maxAttempts)
    ensures
      var w := After(EMPTY, steps, maxAttempts);
      ReplayStatusOf(w.rows, w.letters, d) != OutboxMissing
  {
    RunPreservesInv(EMPTY, steps, maxAttempts);
    var w := After(EMPTY, steps, maxAttempts);
    if d < |w.letters| && !w.letters[d].replayed {
      ReplayReopensDeadRow(w, d, maxAttempts);
    }
  }

  ghost predicate RowPersists(w: World, w': World, id: nat)
    requires id < |w.rows|
  {
    && id < |w'.rows|
    && SameMessage(w'.rows[id], w.rows[id])
    && (Delivered(w.log, id, w.rows[id], Open(w, id)) ==> Delivered(w'.log, id, w'.rows[id], Open(w', id)))
  }

  lemma CommitPersists(w: World, r: nat, id: nat, maxAttempts: nat)
    requires Inv(w, maxAttempts) && Enabled(w, Commit(r), maxAttempts) && id < |w.rows|
    ensures RowPersists(w, Apply(w, Commit(r), maxAttempts), id)
  {
    var s := w.sessions[r];
    OpenLettersConcat(w.letters, s.letters);
    if id in s.claimed {
      assert SessionRow(w, s, id, maxAttempts);
    }
  }

  lemma StepPersists(w: World, step: Step, id: nat, maxAttempts: nat)
    requires maxAttempts >= 1 && Inv(w, maxAttempts) && Enabled(w, step, maxAttempts) && id < |w.rows|
    ensures RowPersists(w, Apply(w, step, maxAttempts), id)
  {
    match step
    case Commit(r) => CommitPersists(w, r, id, maxAttempts);
    case Replay(d) =>
      if d < |w.letters| && !w.letters[d].replayed {
        ReplayReopensDeadRow(w, d, maxAttempts);
      }
    case _ =>
  }

  /** A delivered row stays delivered, and no row disappears or changes its message, whatever happens next. */
  lemma {:induction false} DeliveredForEver(w: World, steps: seq<Step>, id: nat, maxAttempts: nat)
    requires maxAttempts >= 1 && Inv(w, maxAttempts) && ValidRun(w, steps, maxAttempts) && id < |w.rows|
    ensures RowPersists(w, After(w, steps, maxAttempts), id)
    decreases |steps|
  {
    if steps == [] {
    } else {
      StepPersists(w, steps[0], id, maxAttempts);
      StepPreservesInv(w, steps[0], maxAttempts);
      DeliveredForEver(Apply(w, steps[0], maxAttempts), steps[1..], id, maxAttempts);
    }
  }

  /** What the open transaction of relay `r` says about a row is what handling it said, and its messages are in the
      log. */
  ghost predicate DraftIs(w: World, r: nat, id: nat, h: Handled) {
    && r in w.sessions && id in w.sessions[r].done
    && w.sessions[r].done[id] == h.row
    && OpenLetters(w.sessions[r].letters)[id] == OpenLetters(h.letters)[id]
    && (forall m :: m in h.messages ==> m in w.log)
  }

  lemma SendMakesDraft(w: World, r: nat, id: nat, o: Outcome, maxAttempts: nat)
    requires Inv(w, maxAttempts) && Enabled(w, SendRow(r, id, o), maxAttempts)
    ensures DraftIs(Apply(w, SendRow(r, id, o), maxAttempts), r, id,
                    HandleRow(id, w.rows[id], w.sessions[r].known, maxAttempts, o))
  {
    var h := HandleRow(id, w.rows[id], w.sessions[r].known, maxAttempts, o);
    assert SessionRow(w, w.sessions[r], id, maxAttempts);
    OpenLettersConcat(w.sessions[r].letters, h.letters);
  }

  lemma StepKeepsDraft(w: World, step: Step, r: nat, id: nat, h: Handled, maxAttempts: nat)
    requires Inv(w, maxAttempts) && Enabled(w, step, maxAttempts) && DraftIs(w, r, id, h)
    requires step != Commit(r) && step != Crash(r)
    ensures DraftIs(Apply(w, step, maxAttempts), r, id, h)
  {
    if step.SendRow? && step.relay == r {
      var s := w.sessions[r];
      var other := HandleRow(step.id, w.rows[step.id], s.known, maxAttempts, step.outcome);
      HandledLetters(step.id, w.rows[step.id], s.known, maxAttempts, step.outcome);
      OpenLettersConcat(s.letters, other.letters);
      assert step.id != id;
      assert id !in OpenLetters(other.letters);
    }
  }

  lemma {:induction false} RunKeepsDraft(w: World, steps: seq<Step>, r: nat, id: nat, h: Handled, maxAttempts: nat)
    requires maxAttempts >= 1 && Inv(w, maxAttempts) && ValidRun(w, steps, maxAttempts) && DraftIs(w, r, id, h)
    requires forall i :: 0 <= i < |steps| ==> steps[i] != Commit(r) && steps[i] != Crash(r)
    ensures DraftIs(After(w, steps, maxAttempts), r, id, h)
    decreases |steps|
  {
    if steps == [] {
    } else {
      StepPreservesInv(w, steps[0], maxAttempts);
      StepKeepsDraft(w, steps[0], r, id, h, maxAttempts);
      RunKeepsDraft(Apply(w, steps[0], maxAttempts), steps[1..], r, id, h, maxAttempts);
    }
  }

  /** The fate of a sent row at its commit, whatever others do in between: delivered exactly when the organization was
      known and the broker acknowledged, else dead exactly when the attempt was the last, else pending with one more
      attempt. */
  lemma CommittedSendHasItsFate(w: World, r: nat, id: nat, o: Outcome, mid: seq<Step>, maxAttempts: nat)
    requires maxAttempts >= 1 && Inv(w, maxAttempts) && Enabled(w, SendRow(r, id, o), maxAttempts)
    requires ValidRun(Apply(w, SendRow(r, id, o), maxAttempts), mid, maxAttempts)
    requires forall i :: 0 <= i < |mid| ==> mid[i] != Commit(r) && mid[i] != Crash(r)
    requires Enabled(After(Apply(w, SendRow(r, id, o), maxAttempts), mid, maxAttempts), Commit(r), maxAttempts)
    ensures
      var row, acked := w.rows[id], Acknowledged(w.rows[id], w.sessions[r].known, o);
      var w' := Apply(After(Apply(w, SendRow(r, id, o), maxAttempts), mid, maxAttempts), Commit(r), maxAttempts);
      && id < |w'.rows| && SameMessage(w'.rows[id], row)
      && (acked ==> Delivered(w'.log, id, w'.rows[id], Open(w', id)))
      && (!acked && row.attempts + 1 >= maxAttempts ==> Dead(w'.rows[id], Open(w', id)))
      && (!acked && row.attempts + 1 < maxAttempts ==>
            Pending(w'.rows[id], Open(w', id), maxAttempts) && w'.rows[id].attempts == row.attempts + 1)
  {
    var sent, row, known := Apply(w, SendRow(r, id, o), maxAttempts), w.rows[id], w.sessions[r].known;
    var h := HandleRow(id, row, known, maxAttempts, o);
    assert SessionRow(w, w.sessions[r], id, maxAttempts);
    HandledFateIsExact(id, row, known, maxAttempts, o);
    HandledLetters(id, row, known, maxAttempts, o);
    SendMakesDraft(w, r, id, o, maxAttempts);
    StepPreservesInv(w, SendRow(r, id, o), maxAttempts);
    RunKeepsDraft(sent, mid, r, id, h, maxAttempts);
    RunPreservesInv(sent, mid, maxAttempts);
    CommitTakesDraft(After(sent, mid, maxAttempts), r, id, h, maxAttempts);
    assert Acknowledged(row, known, o) ==> AllDigits(row.partitionKey);
  }

  lemma CommitTakesDraft(w: World, r: nat, id: nat, h: Handled, maxAttempts: nat)
    requires Inv(w, maxAttempts) && DraftIs(w, r, id, h) && Enabled(w, Commit(r), maxAttempts)
    ensures
      var w' := Apply(w, Commit(r), maxAttempts);
      && id < |w'.rows| && w'.rows[id] == h.row && Open(w', id) == OpenLetters(h.letters)[id]
      && (forall m :: m in h.messages ==> m in w'.log)
  {
    assert SessionRow(w, w.sessions[r], id, maxAttempts);
    OpenLettersConcat(w.letters, w.sessions[r].letters);
  }

  /** A row whose partition key is not numeric (reconciliation runs use a UUID) is never delivered: it is pending
      or dead in every reachable state. */
  lemma NonNumericKeyNeverDelivered(steps: seq<Step>, id: nat, maxAttempts: nat)
    requires maxAttempts >= 1 && ValidRun(EMPTY, steps, maxAttempts)
    ensures
      var w := After(EMPTY, steps, maxAttempts);
      id < |w.rows| && !AllDigits(w.rows[id].partitionKey) ==>
        Pending(w.rows[id], Open(w, id), maxAttempts) || Dead(w.rows[id], Open(w, id))
  {
    EveryRowHasOneFate(steps, maxAttempts);
    var w := After(EMPTY, steps, maxAttempts);
    assert id < |w.rows| ==> ExactlyOneFate(w, id, maxAttempts);
  }

  /* ---------- theorem 2: duplicates only after a crash, and always recognisable ---------- */

  ghost predicate LogSound(w: World) {
    forall m :: m in w.log ==>
      && m.outboxId < |w.rows|
      && m.eventId == StableEventId(m.outboxId)
      && (m.topic == DLQ_TOPIC || m.topic == ResolveTopic(w.rows[m.outboxId].eventType))
  }

  lemma HandledMessages(id: nat, row: Row, known: set<string>, maxAttempts: nat, o: Outcome)
    ensures forall m :: m in HandleRow(id, row, known, maxAttempts, o).messages ==>
              m == MessageTo(DLQ_TOPIC, id) || m == MessageTo(ResolveTopic(row.eventType), id)
  {
  }

  lemma StepKeepsLogSound(w: World, step: Step, maxAttempts: nat)
    requires maxAttempts >= 1 && Inv(w, maxAttempts) && Enabled(w, step, maxAttempts) && LogSound(w)
    ensures LogSound(Apply(w, step, maxAttempts))
  {
    var w' := Apply(w, step, maxAttempts);
    if step.SendRow? {
      HandledMessages(step.id, w.rows[step.id], w.sessions[step.relay].known, maxAttempts, step.outcome);
    }
    forall m | m in w.log
      ensures m.outboxId < |w'.rows| && w'.rows[m.outboxId].eventType == w.rows[m.outboxId].eventType
    {
      StepPersists(w, step, m.outboxId, maxAttempts);
    }
  }

  lemma {:induction false} RunKeepsLogSound(w: World, steps: seq<Step>, maxAttempts: nat)
    requires maxAttempts >= 1 && Inv(w, maxAttempts) && ValidRun(w, steps, maxAttempts) && LogSound(w)
    ensures LogSound(After(w, steps, maxAttempts))
    decreases |steps|
  {
    if steps == [] {
    } else {
      StepKeepsLogSound(w, steps[0], maxAttempts);
      StepPreservesInv(w, steps[0], maxAttempts);
      RunKeepsLogSound(Apply(w, steps[0], maxAttempts), steps[1..], maxAttempts);
    }
  }

  /** In every run, crashes included, two log messages carry the same event id exactly when they carry the same
      outbox row, so consumers that deduplicate on the event id see each row once. */
  lemma EventIdsDeduplicate(steps: seq<Step>, maxAttempts: nat)
    requires maxAttempts >= 1 && ValidRun(EMPTY, steps, maxAttempts)
    ensures
      var log := After(EMPTY, steps, maxAttempts).log;
      forall i, j :: 0 <= i < |log| && 0 <= j < |log| ==>
        (log[i].eventId == log[j].eventId <==> log[i].outboxId == log[j].outboxId)
  {
    RunKeepsLogSound(EMPTY, steps, maxAttempts);
    var log := After(EMPTY, steps, maxAttempts).log;
    forall i, j | 0 <= i < |log| && 0 <= j < |log|
      ensures log[i].eventId == log[j].eventId <==> log[i].outboxId == log[j].outboxId
    {
      assert log[i] in log && log[j] in log;
      EventIdIdentifiesRow(log[i].outboxId, log[j].outboxId);
    }
  }

  function Copies(log: seq<Message>, topic: string, id: nat): nat {
    if log == [] then 0
    else
      var m := log[|log| - 1];
      Copies(log[..|log| - 1], topic, id) + (if m.topic == topic && m.outboxId == id then 1 else 0)
  }

  lemma {:induction false} CopiesConcat(a: seq<Message>, b: seq<Message>, topic: string, id: nat)
    ensures Copies(a + b, topic, id) == Copies(a, topic, id) + Copies(b, topic, id)
  {
    if b == [] {
      assert a + b == a;
    } else {
      assert (a + b)[..|a + b| - 1] == a + b[..|b| - 1];
      CopiesConcat(a, b[..|b| - 1], topic, id);
    }
  }

  lemma {:induction false} NoCopies(log: seq<Message>, topic: string, id: nat)
    requires forall m :: m in log ==> m.outboxId != id || m.topic != topic
    ensures Copies(log, topic, id) == 0
  {
    if log == [] {
    } else {
      assert log[|log| - 1] in log;
      NoCopies(log[..|log| - 1], topic, id);
    }
  }

  ghost predicate SettledIn(s: Session, id: nat) {
    id in s.done && s.done[id].published && id !in OpenLetters(s.letters)
  }

  /** Delivered in the committed table, or in the uncommitted writes of some relay. */
  ghost predicate Settled(w: World, id: nat)
    requires id < |w.rows|
  {
    || (w.rows[id].published && Open(w, id) == 0)
    || (exists r :: r in w.sessions && SettledIn(w.sessions[r], id))
  }

  /** The copies of a row on its own topic that its fate does not explain: stored sends that were not acknowledged, and
      acknowledged ones whose transaction was rolled back. */
  ghost function Duplicate(w: World, step: Step, id: nat): nat {
    match step
    case SendRow(r, x, o) =>
      if x == id && r in w.sessions && id < |w.rows| && w.rows[id].partitionKey in w.sessions[r].known
         && o.own.StoredUnacked? then 1 else 0
    case Crash(r) => if r in w.sessions && SettledIn(w.sessions[r], id) then 1 else 0
    case _ => 0
  }

  /** A row is on its own topic once if it is settled, plus `extra` times; a row that does not exist has no extras. */
  ghost predicate CopiesRow(w: World, id: nat, extra: nat) {
    if id >= |w.rows| then extra == 0
    else
      var topic := ResolveTopic(w.rows[id].eventType);
      topic != DLQ_TOPIC ==> Copies(w.log, topic, id) == extra + if Settled(w, id) then 1 else 0
  }

  lemma UnclaimedIsUnsettledInSessions(w: World, id: nat, maxAttempts: nat)
    requires Inv(w, maxAttempts) && id >= |w.rows|
    ensures forall r :: r in w.sessions ==> !SettledIn(w.sessions[r], id)
  {
    forall r | r in w.sessions
      ensures !SettledIn(w.sessions[r], id)
    {
      assert id in w.sessions[r].claimed ==> SessionRow(w, w.sessions[r], id, maxAttempts);
    }
  }

  lemma SendCopiesElsewhere(w: World, r: nat, id: nat, o: Outcome, x: nat, extra: nat, maxAttempts: nat)
    requires Enabled(w, SendRow(r, id, o), maxAttempts) && x < |w.rows| && CopiesRow(w, x, extra) && x != id
    ensures CopiesRow(Apply(w, SendRow(r, id, o), maxAttempts), x, extra)
  {
    var w' := Apply(w, SendRow(r, id, o), maxAttempts);
    var s, row := w.sessions[r], w.rows[id];
    var h := HandleRow(id, row, s.known, maxAttempts, o);
    var topic := ResolveTopic(w.rows[x].eventType);
    HandledMessages(id, row, s.known, maxAttempts, o);
    CopiesConcat(w.log, h.messages, topic, x);
    NoCopies(h.messages, topic, x);
    OpenLettersConcat(s.letters, h.letters);
    HandledLetters(id, row, s.known, maxAttempts, o);
    assert SettledIn(w'.sessions[r], x) <==> SettledIn(s, x);
    SettledFrame(w, w', r, x);
  }

  lemma HandledLetters(id: nat, row: Row, known: set<string>, maxAttempts: nat, o: Outcome)
    ensures
      var h := HandleRow(id, row, known, maxAttempts, o);
      h.letters == [] || (|h.letters| == 1 && OpenLetters(h.letters) == multiset{id})
  {
    var h := HandleRow(id, row, known, maxAttempts, o);
    if |h.letters| == 1 {
      assert OpenLetters(h.letters[..0]) == multiset{};
    }
  }

  lemma SettledFrame(w: World, w': World, r: nat, x: nat)
    requires w'.rows == w.rows && w'.letters == w.letters && w'.sessions.Keys == w.sessions.Keys && r in w.sessions
    requires forall q :: q in w.sessions && q != r ==> w'.sessions[q] == w.sessions[q]
    requires SettledIn(w'.sessions[r], x) <==> SettledIn(w.sessions[r], x)
    requires x < |w.rows|
    ensures Settled(w', x) <==> Settled(w, x)
  {
    if q :| q in w.sessions && SettledIn(w.sessions[q], x) {
      assert SettledIn(w'.sessions[q], x);
    }
    if q :| q in w'.sessions && SettledIn(w'.sessions[q], x) {
      assert SettledIn(w.sessions[q], x);
    }
  }

  lemma SendCopiesHere(w: World, r: nat, id: nat, o: Outcome, extra: nat, maxAttempts: nat)
    requires maxAttempts >= 1 && Inv(w, maxAttempts) && id < |w.rows| && CopiesRow(w, id, extra)
    requires Enabled(w, SendRow(r, id, o), maxAttempts)
    requires ResolveTopic(w.rows[id].eventType) != DLQ_TOPIC
    ensures CopiesRow(Apply(w, SendRow(r, id, o), maxAttempts), id, extra + Duplicate(w, SendRow(r, id, o), id))
  {
    var w' := Apply(w, SendRow(r, id, o), maxAttempts);
    var s, row := w.sessions[r], w.rows[id];
    var h := HandleRow(id, row, s.known, maxAttempts, o);
    assert SessionRow(w, s, id, maxAttempts);
    ClaimedByOne(w, r, id, maxAttempts);
    CopiesConcat(w.log, h.messages, ResolveTopic(row.eventType), id);
    HandledCopies(id, row, s.known, maxAttempts, o);
    OpenLettersConcat(s.letters, h.letters);
    assert SettledIn(w'.sessions[r], id) <==> h.row.published && h.letters == [];
    assert forall q :: q in w.sessions && q != r ==> w'.sessions[q] == w.sessions[q];
    assert Settled(w', id) <==> SettledIn(w'.sessions[r], id);
  }

  /** A claimed row is unsettled in the table and in every other session. */
  lemma ClaimedByOne(w: World, r: nat, id: nat, maxAttempts: nat)
    requires Inv(w, maxAttempts) && r in w.sessions && id in w.sessions[r].claimed
    ensures id < |w.rows| && !w.rows[id].published
    ensures forall q :: q in w.sessions && q != r ==> !SettledIn(w.sessions[q], id)
    ensures Settled(w, id) <==> SettledIn(w.sessions[r], id)
  {
    assert SessionRow(w, w.sessions[r], id, maxAttempts);
    forall q | q in w.sessions && q != r
      ensures !SettledIn(w.sessions[q], id)
    {
      assert w.sessions[r].claimed !! w.sessions[q].claimed;
    }
  }

  lemma StoredCopies(send: Send, topic: string, id: nat)
    ensures Copies(StoredMessages(send, topic, id), topic, id) == if send.Stored() then 1 else 0
  {
    var sent := StoredMessages(send, topic, id);
    assert |sent| == 1 ==> sent[..0] == [];
  }

  /** The row goes to its own topic once if it settles, once if the broker stores it without acknowledging, and not at
      all otherwise. */
  lemma HandledCopies(id: nat, row: Row, known: set<string>, maxAttempts: nat, o: Outcome)
    requires Claimable(row, maxAttempts) && ResolveTopic(row.eventType) != DLQ_TOPIC
    ensures
      var h := HandleRow(id, row, known, maxAttempts, o);
      Copies(h.messages, ResolveTopic(row.eventType), id)
      == (if h.row.published && h.letters == [] then 1 else 0)
       + (if row.partitionKey in known && o.own.StoredUnacked? then 1 else 0)
    ensures
      var h := HandleRow(id, row, known, maxAttempts, o);
      h.letters == [] <==> id !in OpenLetters(h.letters)
  {
    var h := HandleRow(id, row, known, maxAttempts, o);
    HandledLetters(id, row, known, maxAttempts, o);
    var topic, failed := ResolveTopic(row.eventType), FailRow(id, row, maxAttempts, o.dlq);
    StoredCopies(o.own, topic, id);
    NoCopies(failed.messages, topic, id);
    CopiesConcat(StoredMessages(o.own, topic, id), failed.messages, topic, id);
  }

  lemma CommitCopies(w: World, r: nat, x: nat, extra: nat, maxAttempts: nat)
    requires Inv(w, maxAttempts) && x < |w.rows| && CopiesRow(w, x, extra) && Enabled(w, Commit(r), maxAttempts)
    ensures CopiesRow(Apply(w, Commit(r), maxAttempts), x, extra)
  {
    var w' := Apply(w, Commit(r), maxAttempts);
    var s := w.sessions[r];
    OpenLettersConcat(w.letters, s.letters);
    if x in s.claimed {
      assert SessionRow(w, s, x, maxAttempts);
      ClaimedByOne(w, r, x, maxAttempts);
      assert Settled(w', x) <==> SettledIn(s, x);
    } else {
      CommitFrame(w, w', r, x);
    }
  }

  lemma CommitFrame(w: World, w': World, r: nat, x: nat)
    requires x < |w.rows| && x < |w'.rows| && w'.rows[x] == w.rows[x] && Open(w', x) == Open(w, x)
    requires r in w.sessions && w'.sessions == w.sessions - {r} && !SettledIn(w.sessions[r], x)
    ensures Settled(w', x) <==> Settled(w, x)
  {
    if q :| q in w.sessions && SettledIn(w.sessions[q], x) {
      assert q in w'.sessions && SettledIn(w'.sessions[q], x);
    }
  }

  /** A rollback forgets an acknowledged send, whose copy stays in the log. */
  lemma CrashCopies(w: World, r: nat, x: nat, extra: nat, maxAttempts: nat)
    requires Inv(w, maxAttempts) && x < |w.rows| && CopiesRow(w, x, extra) && r in w.sessions
    ensures CopiesRow(Apply(w, Crash(r), maxAttempts), x, extra + Duplicate(w, Crash(r), x))
  {
    var w' := Apply(w, Crash(r), maxAttempts);
    if SettledIn(w.sessions[r], x) {
      ClaimedByOne(w, r, x, maxAttempts);
      assert !Settled(w', x);
    } else {
      CommitFrame(w, w', r, x);
    }
  }

  lemma StepCopies(w: World, step: Step, x: nat, extra: nat, maxAttempts: nat)
    requires maxAttempts >= 1 && Inv(w, maxAttempts) && LogSound(w) && CopiesRow(w, x, extra)
    requires Enabled(w, step, maxAttempts)
    ensures CopiesRow(Apply(w, step, maxAttempts), x, extra + Duplicate(w, step, x))
  {
    if step.Enqueue? || step.Claim? || step.Replay? {
      QuietStepCopies(w, step, x, extra, maxAttempts);
    } else if x >= |w.rows| {
      UnclaimedIsUnsettledInSessions(w, x, maxAttempts);
    } else {
      match step
      case SendRow(r, id, o) =>
        if x != id {
          SendCopiesElsewhere(w, r, id, o, x, extra, maxAttempts);
        } else if ResolveTopic(w.rows[x].eventType) != DLQ_TOPIC {
          SendCopiesHere(w, r, x, o, extra, maxAttempts);
        }
      case Commit(r) => CommitCopies(w, r, x, extra, maxAttempts);
      case Crash(r) => CrashCopies(w, r, x, extra, maxAttempts);
    }
  }

  lemma QuietStepCopies(w: World, step: Step, x: nat, extra: nat, maxAttempts: nat)
    requires maxAttempts >= 1 && Inv(w, maxAttempts) && LogSound(w) && CopiesRow(w, x, extra)
    requires Enabled(w, step, maxAttempts) && (step.Enqueue? || step.Claim? || step.Replay?)
    ensures CopiesRow(Apply(w, step, maxAttempts), x, extra)
  {
    var w' := Apply(w, step, maxAttempts);
    if x >= |w'.rows| {
      assert |w.rows| <= |w'.rows|;
    } else if x >= |w.rows| {
      UnclaimedIsUnsettledInSessions(w, x, maxAttempts);
      NoCopies(w.log, ResolveTopic(w'.rows[x].eventType), x);
    } else {
      QuietStepSettles(w, step, x, maxAttempts);
      assert w'.rows[x].eventType == w.rows[x].eventType && w'.log == w.log;
    }
  }

  lemma QuietStepSettles(w: World, step: Step, x: nat, maxAttempts: nat)
    requires maxAttempts >= 1 && Inv(w, maxAttempts) && Enabled(w, step, maxAttempts) && x < |w.rows|
    requires step.Enqueue? || step.Claim? || step.Replay?
    ensures
      var w' := Apply(w, step, maxAttempts);
      x < |w'.rows| && SameMessage(w'.rows[x], w.rows[x]) && w'.log == w.log && (Settled(w', x) <==> Settled(w, x))
  {
    var w' := Apply(w, step, maxAttempts);
    match step
    case Claim(r, _, _, _) =>
      assert !SettledIn(w'.sessions[r], x);
      assert forall q :: q in w.sessions ==> q in w'.sessions && w'.sessions[q] == w.sessions[q];
    case Replay(d) =>
      if d < |w.letters| && !w.letters[d].replayed {
        ReplayReopensDeadRow(w, d, maxAttempts);
      }
    case Enqueue(_, _, _, _) =>
  }

  /** The duplicates of a row over a run. */
  ghost function Duplicates(w: World, steps: seq<Step>, id: nat, maxAttempts: nat): nat
    requires ValidRun(w, steps, maxAttempts)
    decreases |steps|
  {
    if steps == [] then 0
    else Duplicate(w, steps[0], id) + Duplicates(Apply(w, steps[0], maxAttempts), steps[1..], id, maxAttempts)
  }

  lemma {:induction false} RunCopies(w: World, steps: seq<Step>, id: nat, extra: nat, maxAttempts: nat)
    requires maxAttempts >= 1 && Inv(w, maxAttempts) && LogSound(w) && ValidRun(w, steps, maxAttempts)
    requires CopiesRow(w, id, extra)
    ensures CopiesRow(After(w, steps, maxAttempts), id, extra + Duplicates(w, steps, id, maxAttempts))
    decreases |steps|
  {
    if steps == [] {
    } else {
      StepPreservesInv(w, steps[0], maxAttempts);
      StepKeepsLogSound(w, steps[0], maxAttempts);
      StepCopies(w, steps[0], id, extra, maxAttempts);
      RunCopies(Apply(w, steps[0], maxAttempts), steps[1..], id, extra + Duplicate(w, steps[0], id), maxAttempts);
    }
  }

  /** In every run, crashes and lying brokers included, a row that has a topic of its own is on that topic exactly
      once if it is delivered, in the table or in an open transaction, plus once for each send that was stored without
      an acknowledgement and once for each acknowledged send that was rolled back. */
  lemma CopiesAreExplained(steps: seq<Step>, id: nat, maxAttempts: nat)
    requires maxAttempts >= 1 && ValidRun(EMPTY, steps, maxAttempts)
    requires id < |After(EMPTY, steps, maxAttempts).rows|
    ensures
      var w := After(EMPTY, steps, maxAttempts);
      var topic := ResolveTopic(w.rows[id].eventType);
      topic != DLQ_TOPIC ==>
        && Copies(w.log, topic, id) == Duplicates(EMPTY, steps, id, maxAttempts) + (if Settled(w, id) then 1 else 0)
        && (Delivered(w.log, id, w.rows[id], Open(w, id)) ==>
              Copies(w.log, topic, id) == Duplicates(EMPTY, steps, id, maxAttempts) + 1)
  {
    RunCopies(EMPTY, steps, id, 0, maxAttempts);
  }

  /** No crash, and every failed send on a row's own topic really stored nothing. */
  predicate Faithful(step: Step) {
    !step.Crash? && (step.SendRow? ==> step.outcome.own.Truthful())
  }

  lemma {:induction false} FaithfulRunsDuplicateNothing(w: World, steps: seq<Step>, id: nat, maxAttempts: nat)
    requires ValidRun(w, steps, maxAttempts) && forall i :: 0 <= i < |steps| ==> Faithful(steps[i])
    ensures Duplicates(w, steps, id, maxAttempts) == 0
    decreases |steps|
  {
    if steps == [] {
    } else {
      assert Faithful(steps[0]);
      FaithfulRunsDuplicateNothing(Apply(w, steps[0], maxAttempts), steps[1..], id, maxAttempts);
    }
  }

  /** In every run without crashes and with truthful send results, a row that has a topic of its own is on that
      topic at most once, replays included, and exactly once when it is delivered. */
  lemma FaithfulRunsSendOnce(steps: seq<Step>, id: nat, maxAttempts: nat)
    requires maxAttempts >= 1 && ValidRun(EMPTY, steps, maxAttempts)
    requires forall i :: 0 <= i < |steps| ==> Faithful(steps[i])
    requires id < |After(EMPTY, steps, maxAttempts).rows|
    ensures
      var w := After(EMPTY, steps, maxAttempts);
      var topic := ResolveTopic(w.rows[id].eventType);
      topic != DLQ_TOPIC ==>
        && Copies(w.log, topic, id) <= 1
        && (Delivered(w.log, id, w.rows[id], Open(w, id)) ==> Copies(w.log, topic, id) == 1)
  {
    CopiesAreExplained(steps, id, maxAttempts);
    FaithfulRunsDuplicateNothing(EMPTY, steps, id, maxAttempts);
  }

  /* ---------- theorem 3: the backlog drains ---------- */

  function Weight(row: Row, maxAttempts: nat): nat {
    if row.published || row.attempts >= maxAttempts then 0 else maxAttempts - row.attempts
  }

  function Backlog(rows: seq<Row>, maxAttempts: nat): nat {
    if rows == [] then 0
    else Backlog(rows[..|rows| - 1], maxAttempts) + Weight(rows[|rows| - 1], maxAttempts)
  }

  lemma {:induction false} BacklogMonotone(a: seq<Row>, b: seq<Row>, maxAttempts: nat)
    requires |a| == |b|
    requires forall i :: 0 <= i < |a| ==> Weight(b[i], maxAttempts) <= Weight(a[i], maxAttempts)
    ensures Backlog(b, maxAttempts) <= Backlog(a, maxAttempts)
    ensures (exists i :: 0 <= i < |a| && Weight(b[i], maxAttempts) < Weight(a[i], maxAttempts)) ==>
              Backlog(b, maxAttempts) < Backlog(a, maxAttempts)
  {
    if a == [] {
    } else {
      var n := |a| - 1;
      BacklogMonotone(a[..n], b[..n], maxAttempts);
      if i :| 0 <= i < |a| && Weight(b[i], maxAttempts) < Weight(a[i], maxAttempts) {
        assert i < n ==> Weight(b[..n][i], maxAttempts) < Weight(a[..n][i], maxAttempts);
      }
    }
  }

  /** No new work: neither enqueues nor replays. */
  predicate NoNewWork(step: Step) {
    !step.Enqueue? && !step.Replay?
  }

  predicate IsWorkingPoll(w: World, step: Step) {
    step.Commit? && step.relay in w.sessions && w.sessions[step.relay].claimed != {}
  }

  ghost function WorkingPolls(w: World, steps: seq<Step>, maxAttempts: nat): nat
    requires ValidRun(w, steps, maxAttempts)
    decreases |steps|
  {
    if steps == [] then 0
    else (if IsWorkingPoll(w, steps[0]) then 1 else 0)
         + WorkingPolls(Apply(w, steps[0], maxAttempts), steps[1..], maxAttempts)
  }

  lemma CommitShrinksBacklog(w: World, r: nat, maxAttempts: nat)
    requires Inv(w, maxAttempts) && Enabled(w, Commit(r), maxAttempts)
    ensures
      var w' := Apply(w, Commit(r), maxAttempts);
      && Backlog(w'.rows, maxAttempts) <= Backlog(w.rows, maxAttempts)
      && (w.sessions[r].claimed != {} ==> Backlog(w'.rows, maxAttempts) < Backlog(w.rows, maxAttempts))
  {
    var w' := Apply(w, Commit(r), maxAttempts);
    var s := w.sessions[r];
    forall id | id in s.claimed
      ensures id < |w.rows| && Weight(w'.rows[id], maxAttempts) < Weight(w.rows[id], maxAttempts)
    {
      assert SessionRow(w, s, id, maxAttempts);
    }
    BacklogMonotone(w.rows, w'.rows, maxAttempts);
    if s.claimed != {} {
      var id :| id in s.claimed;
      assert Weight(w'.rows[id], maxAttempts) < Weight(w.rows[id], maxAttempts);
    }
  }

  /** Without new work, every committed poll that claimed something uses up backlog, whatever the broker does and
      however relays interleave or crash: there are at most `Backlog` such polls. */
  lemma {:induction false} BacklogBoundsPolls(w: World, steps: seq<Step>, maxAttempts: nat)
    requires maxAttempts >= 1 && Inv(w, maxAttempts) && ValidRun(w, steps, maxAttempts)
    requires forall i :: 0 <= i < |steps| ==> NoNewWork(steps[i])
    ensures WorkingPolls(w, steps, maxAttempts) + Backlog(After(w, steps, maxAttempts).rows, maxAttempts)
         <= Backlog(w.rows, maxAttempts)
    decreases |steps|
  {
    if steps == [] {
    } else {
      StepPreservesInv(w, steps[0], maxAttempts);
      if steps[0].Commit? {
        CommitShrinksBacklog(w, steps[0].relay, maxAttempts);
      }
      BacklogBoundsPolls(Apply(w, steps[0], maxAttempts), steps[1..], maxAttempts);
    }
  }

  /** Once the backlog is spent nothing is pending: every row is delivered or dead. And as long as something
      unlocked is pending, a claim of at least one row is never empty. */
  lemma DrainedMeansSettled(w: World, maxAttempts: nat)
    requires Inv(w, maxAttempts)
    ensures Backlog(w.rows, maxAttempts) == 0 ==>
              forall id :: 0 <= id < |w.rows| ==>
                Delivered(w.log, id, w.rows[id], Open(w, id)) || Dead(w.rows[id], Open(w, id))
    ensures forall ids, limit: nat, id: nat ::
              (&& limit >= 1 && IsClaim(w.rows, Locked(w), limit, maxAttempts, ids)
               && id < |w.rows| && id !in Locked(w) && Pending(w.rows[id], Open(w, id), maxAttempts)) ==> ids != []
  {
    forall ids, limit: nat, id: nat |
      limit >= 1 && IsClaim(w.rows, Locked(w), limit, maxAttempts, ids)
      && id < |w.rows| && id !in Locked(w) && Pending(w.rows[id], Open(w, id), maxAttempts)
      ensures ids != []
    {
      assert Available(w.rows, Locked(w), maxAttempts, id);
    }
    if Backlog(w.rows, maxAttempts) == 0 {
      forall id | 0 <= id < |w.rows|
        ensures Delivered(w.log, id, w.rows[id], Open(w, id)) || Dead(w.rows[id], Open(w, id))
      {
        assert RowInv(w, id, maxAttempts);
        BacklogCoversRow(w.rows, id, maxAttempts);
      }
    }
  }

  lemma {:induction false} BacklogCoversRow(rows: seq<Row>, id: nat, maxAttempts: nat)
    requires id < |rows|
    ensures Weight(rows[id], maxAttempts) <= Backlog(rows, maxAttempts)
  {
    var n := |rows| - 1;
    if id < n {
      BacklogCoversRow(rows[..n], id, maxAttempts);
      assert rows[..n][id] == rows[id];
    }
  }
}
