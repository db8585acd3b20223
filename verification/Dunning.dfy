/** Dunning campaigns: three scheduled collection attempts per campaign, pause and resume, and the due-attempt sweep. */
module Dunning {
  import opened Wrappers
  import opened Subscriptions
  import opened Ledger

  datatype CampaignStatus = Running | Paused | Completed | Exhausted

  datatype Attempt = Attempt(scheduledAt: Instant, executedAt: Option<Instant>, succeeded: bool)

  /** Attempt number n of the original is `attempts[n - 1]`. */
  datatype Campaign = Campaign(
    subscription: nat,
    org: nat,
    key: Key,
    startedAt: Instant,
    status: CampaignStatus,
    attempts: seq<Attempt>)

  datatype EventType = AttemptScheduled | FinalNotice | AttemptSucceeded | AttemptFailed

  /** An outbox row; its idempotency key is the campaign and the attempt. */
  datatype Event = Event(campaign: nat, index: nat, eventType: EventType)

  datatype Tables = Tables(campaigns: seq<Campaign>, outbox: seq<Event>)

  const ATTEMPTS: nat := 3

  function OffsetDays(index: nat): int {
    if index == 0 then 1 else if index == 1 then 3 else 7
  }

  function Schedule(startedAt: Instant): (attempts: seq<Attempt>)
    ensures |attempts| == ATTEMPTS
  {
    [Attempt(startedAt + DAY, None, false), Attempt(startedAt + 3 * DAY, None, false),
     Attempt(startedAt + 7 * DAY, None, false)]
  }

  /* ---------- lookups ---------- */

  function FindByKey(cs: seq<Campaign>, key: Key): (r: Option<nat>)
    ensures r.Some? ==> r.value < |cs| && cs[r.value].key == key
    ensures r.None? ==> forall c :: 0 <= c < |cs| ==> cs[c].key != key
  {
    if cs == [] then None
    else if cs[|cs| - 1].key == key then Some(|cs| - 1)
    else FindByKey(cs[..|cs| - 1], key)
  }

  function FindRunning(cs: seq<Campaign>, subscription: nat): (r: Option<nat>)
    ensures r.Some? ==> r.value < |cs| && cs[r.value].subscription == subscription && cs[r.value].status == Running
    ensures r.None? ==> forall c :: 0 <= c < |cs| ==> cs[c].subscription != subscription || cs[c].status != Running
  {
    if cs == [] then None
    else if cs[|cs| - 1].subscription == subscription && cs[|cs| - 1].status == Running then Some(|cs| - 1)
    else FindRunning(cs[..|cs| - 1], subscription)
  }

  /* ---------- operations ---------- */

  /** Start a campaign unless the key is known or the subscription already has a running one. */
  function StartCampaign(t: Tables, subscription: nat, org: nat, key: Key, startedAt: Instant): Tables {
    if FindByKey(t.campaigns, key).Some? || FindRunning(t.campaigns, subscription).Some? then t
    else t.(campaigns := t.campaigns
              + [Campaign(subscription, org, key, startedAt, Running, Schedule(startedAt))])
  }

  /** A campaign as it starts: running, with three attempts to come, one, three and seven days after the start. */
  ghost predicate IsNewCampaign(c: Campaign, subscription: nat, org: nat, key: Key, startedAt: Instant) {
    && c.subscription == subscription && c.org == org && c.key == key && c.startedAt == startedAt && c.status == Running
    && c.attempts == [Attempt(startedAt + 86_400_000_000, None, false), Attempt(startedAt + 259_200_000_000, None,
        false),
                      Attempt(startedAt + 604_800_000_000, None, false)]
  }

  datatype Outcome = Done | NotFound | WrongStatus | AnotherRunning

  function PauseOutcome(t: Tables, c: nat, org: nat): Outcome {
    if c >= |t.campaigns| || t.campaigns[c].org != org then NotFound
    else if t.campaigns[c].status != Running then WrongStatus
    else Done
  }

  function ResumeOutcome(t: Tables, c: nat, org: nat): Outcome {
    if c >= |t.campaigns| || t.campaigns[c].org != org then NotFound
    else if t.campaigns[c].status != Paused then WrongStatus
    else
      var other := FindRunning(t.campaigns, t.campaigns[c].subscription);
      if other.Some? && other.value != c then AnotherRunning else Done
  }

  function SetStatus(t: Tables, c: nat, status: CampaignStatus): Tables
    requires c < |t.campaigns|
  {
    t.(campaigns := t.campaigns[c := t.campaigns[c].(status := status)])
  }

  function Pause(t: Tables, c: nat, org: nat): Tables {
    if PauseOutcome(t, c, org) == Done then SetStatus(t, c, CampaignStatus.Paused) else t
  }

  function Resume(t: Tables, c: nat, org: nat): Tables {
    if ResumeOutcome(t, c, org) == Done then SetStatus(t, c, Running) else t
  }

  function EventTypeFor(index: nat, succeeded: bool): EventType {
    if index == 0 then AttemptScheduled
    else if index == 2 then FinalNotice
    else if succeeded then AttemptSucceeded
    else AttemptFailed
  }

  function RunAttempt(c: Campaign, index: nat, succeeded: bool, now: Instant): Campaign
    requires index < |c.attempts|
  {
    c.(attempts := c.attempts[index := c.attempts[index].(executedAt := Some(now), succeeded := succeeded)],
       status := if succeeded then Completed else if index == 2 then Exhausted else c.status)
  }

  predicate KeyInOutbox(outbox: seq<Event>, c: nat, index: nat) {
    exists i :: 0 <= i < |outbox| && outbox[i].campaign == c && outbox[i].index == index
  }

  function Publish(outbox: seq<Event>, c: nat, index: nat, succeeded: bool): seq<Event> {
    if KeyInOutbox(outbox, c, index) then outbox else outbox + [Event(c, index, EventTypeFor(index, succeeded))]
  }

  /** Only campaign `c` may differ, and it keeps its subscription, owner, key, start and schedule length. */
  ghost predicate OnlyChanges(t: Tables, t': Tables, c: nat) {
    && |t'.campaigns| == |t.campaigns|
    && (forall x :: 0 <= x < |t.campaigns| && x != c ==> t'.campaigns[x] == t.campaigns[x])
    && (c < |t.campaigns| ==>
          && |t'.campaigns[c].attempts| == |t.campaigns[c].attempts|
          && t'.campaigns[c] == t.campaigns[c].(status := t'.campaigns[c].status, attempts := t'.campaigns[c].attempts))
  }

  /** A row of the sweep's query. */
  datatype Due = Due(campaign: nat, index: nat)

  ghost predicate IsDue(t: Tables, now: Instant, d: Due) {
    && d.campaign < |t.campaigns| && d.index < |t.campaigns[d.campaign].attempts|
    && t.campaigns[d.campaign].status == Running
    && t.campaigns[d.campaign].attempts[d.index].executedAt.None?
    && t.campaigns[d.campaign].attempts[d.index].scheduledAt <= now
  }

  ghost predicate Exists(t: Tables, d: Due) {
    d.campaign < |t.campaigns| && d.index < |t.campaigns[d.campaign].attempts|
  }

  predicate Before(t: Tables, a: Due, b: Due)
    requires a.campaign < |t.campaigns| && a.index < |t.campaigns[a.campaign].attempts|
    requires b.campaign < |t.campaigns| && b.index < |t.campaigns[b.campaign].attempts|
  {
    var x := t.campaigns[a.campaign].attempts[a.index].scheduledAt;
    var y := t.campaigns[b.campaign].attempts[b.index].scheduledAt;
    x < y || (x == y && a.index <= b.index)
  }

  ghost predicate Ordered(t: Tables, due: seq<Due>) {
    && (forall i :: 0 <= i < |due| ==> Exists(t, due[i]))
    && (forall i, j :: 0 <= i < j < |due| ==> due[i] != due[j])
    && (forall i, j :: 0 <= i < j < |due| ==> Exists(t, due[i]) && Exists(t, due[j]) && Before(t, due[i], due[j]))
  }

  /** The sweep's query: the due attempts of running campaigns, by schedule and attempt number. */
  ghost predicate IsDueList(t: Tables, now: Instant, due: seq<Due>) {
    Ordered(t, due) && forall d :: d in due <==> IsDue(t, now, d)
  }

  /** Whether the payment provider collects on an attempt; without an open invoice the attempt fails. */
  type Provider = (nat, nat) -> bool

  function ExecuteAttempt(t: Tables, d: Due, now: Instant, provider: Provider): Tables
    requires d.campaign < |t.campaigns| && d.index < |t.campaigns[d.campaign].attempts|
  {
    var ok := provider(d.campaign, d.index);
    Tables(t.campaigns[d.campaign := RunAttempt(t.campaigns[d.campaign], d.index, ok, now)],
           Publish(t.outbox, d.campaign, d.index, ok))
  }

  /** Run a list of attempts one after the other, without looking at the campaign status again. */
  ghost function ExecuteAll(t: Tables, due: seq<Due>, now: Instant, provider: Provider): (r: Tables)
    requires forall i :: 0 <= i < |due| ==> Exists(t, due[i])
    ensures |r.campaigns| == |t.campaigns|
    ensures forall c :: 0 <= c < |t.campaigns| ==> |r.campaigns[c].attempts| == |t.campaigns[c].attempts|
  {
    if due == [] then t
    else
      var last := |due| - 1;
      assert Exists(t, due[last]);
      ExecuteAttempt(ExecuteAll(t, due[..last], now, provider), due[last], now, provider)
  }

  /* ---------- the invariant ---------- */

  predicate Terminal(status: CampaignStatus) {
    status == Completed || status == Exhausted
  }

  ghost predicate Ran(c: Campaign, index: nat)
    requires index < |c.attempts|
  {
    c.attempts[index].executedAt.Some?
  }

  /** Three attempts on days 1, 3 and 7, none run before its day; the executed ones are a prefix; after the last one the
      campaign is over. */
  ghost predicate CampaignInv(c: Campaign) {
    && |c.attempts| == ATTEMPTS
    && c.attempts[0].scheduledAt == c.startedAt + 1 * 86_400_000_000
    && c.attempts[1].scheduledAt == c.startedAt + 3 * 86_400_000_000
    && c.attempts[2].scheduledAt == c.startedAt + 7 * 86_400_000_000
    && (forall i :: 0 <= i < ATTEMPTS && Ran(c, i) ==> c.attempts[i].scheduledAt <= c.attempts[i].executedAt.value)
    && (Ran(c, 1) ==> Ran(c, 0))
    && (Ran(c, 2) ==> Ran(c, 1))
    && (Ran(c, 2) ==> Terminal(c.status))
  }

  ghost predicate OneRunning(cs: seq<Campaign>) {
    forall a, b :: 0 <= a < b < |cs| && cs[a].subscription == cs[b].subscription ==>
      cs[a].status != Running || cs[b].status != Running
  }

  /** What an outbox row says about its attempt: the first is announced as scheduled and the third as the final notice,
      whatever came of them; the one between with its result. */
  ghost predicate Announces(e: Event, a: Attempt) {
    && (e.index == 0 ==> e.eventType == AttemptScheduled)
    && (e.index == 2 ==> e.eventType == FinalNotice)
    && (e.index != 0 && e.index != 2 ==> e.eventType == if a.succeeded then AttemptSucceeded else AttemptFailed)
  }

  /** One outbox row per executed attempt, which says what it should, and none for the others. */
  ghost predicate OutboxInv(t: Tables) {
    && (forall i, j :: 0 <= i < j < |t.outbox| ==>
          t.outbox[i].campaign != t.outbox[j].campaign || t.outbox[i].index != t.outbox[j].index)
    && (forall i :: 0 <= i < |t.outbox| ==>
          && Exists(t, Due(t.outbox[i].campaign, t.outbox[i].index))
          && Announces(t.outbox[i], t.campaigns[t.outbox[i].campaign].attempts[t.outbox[i].index]))
    && (forall d :: Exists(t, d) ==>
          (KeyInOutbox(t.outbox, d.campaign, d.index) <==> Ran(t.campaigns[d.campaign], d.index)))
  }

  ghost predicate Inv(t: Tables) {
    && (forall c :: 0 <= c < |t.campaigns| ==> CampaignInv(t.campaigns[c]))
    && OneRunning(t.campaigns)
    && OutboxInv(t)
  }

  /* ---------- one sweep ---------- */

  /** What a campaign looks like after part of a sweep: the attempts run so far are marked, nothing else is. */
  ghost predicate Swept(before: Campaign, after: Campaign, c: nat, done: seq<Due>, now: Instant)
    requires |before.attempts| == ATTEMPTS
  {
    && after == before.(attempts := after.attempts, status := after.status)
    && |after.attempts| == ATTEMPTS
    && (forall i :: 0 <= i < ATTEMPTS ==>
          && after.attempts[i].scheduledAt == before.attempts[i].scheduledAt
          && (Ran(after, i) <==> Ran(before, i) || Due(c, i) in done)
          && (Due(c, i) in done ==> after.attempts[i].executedAt == Some(now))
          && (Due(c, i) !in done ==> after.attempts[i] == before.attempts[i]))
    && (after.status == before.status || Terminal(after.status))
    && (Due(c, 2) in done ==> Terminal(after.status))
    && ((forall i :: 0 <= i < ATTEMPTS ==> Due(c, i) !in done) ==> after == before)
  }

  lemma SweptStep(before: Campaign, after: Campaign, c: nat, done: seq<Due>, d: Due, ok: bool, now: Instant)
    requires |before.attempts| == ATTEMPTS && Swept(before, after, c, done, now) && d.index < ATTEMPTS
    ensures d.campaign != c ==> Swept(before, after, c, done + [d], now)
    ensures d.campaign == c ==> Swept(before, RunAttempt(after, d.index, ok, now), c, done + [d], now)
  {
    assert forall i :: Due(c, i) in done + [d] <==> Due(c, i) in done || Due(c, i) == d;
    if d.campaign == c {
      assert Due(c, d.index) in done + [d];
    }
  }

  lemma {:induction false} ExecuteAllSweeps(t: Tables, due: seq<Due>, now: Instant, provider: Provider, c: nat)
    requires forall i :: 0 <= i < |due| ==> Exists(t, due[i])
    requires forall x :: 0 <= x < |t.campaigns| ==> |t.campaigns[x].attempts| == ATTEMPTS
    requires c < |t.campaigns|
    ensures Swept(t.campaigns[c], ExecuteAll(t, due, now, provider).campaigns[c], c, due, now)
  {
    if due == [] {
    } else {
      var last := |due| - 1;
      ExecuteAllSweeps(t, due[..last], now, provider, c);
      var mid := ExecuteAll(t, due[..last], now, provider);
      var d := due[last];
      assert Exists(t, d);
      SweptStep(t.campaigns[c], mid.campaigns[c], c, due[..last], d, provider(d.campaign, d.index), now);
      assert due[..last] + [d] == due;
    }
  }

  lemma PublishAddsKey(outbox: seq<Event>, c: nat, index: nat, ok: bool, x: nat, i: nat)
    ensures KeyInOutbox(Publish(outbox, c, index, ok), x, i) <==> KeyInOutbox(outbox, x, i) || (x == c && i == index)
  {
    var after := Publish(outbox, c, index, ok);
    if !KeyInOutbox(outbox, c, index) {
      assert after[|outbox|].campaign == c && after[|outbox|].index == index;
      if k :| 0 <= k < |outbox| && outbox[k].campaign == x && outbox[k].index == i {
        assert after[k] == outbox[k];
      }
    }
  }

  lemma ExecuteKeepsOutbox(t: Tables, d: Due, now: Instant, provider: Provider)
    requires OutboxInv(t) && Exists(t, d) && !Ran(t.campaigns[d.campaign], d.index)
    ensures OutboxInv(ExecuteAttempt(t, d, now, provider))
    ensures |ExecuteAttempt(t, d, now, provider).outbox| == |t.outbox| + 1
  {
    var t' := ExecuteAttempt(t, d, now, provider);
    forall x | Exists(t', x)
      ensures KeyInOutbox(t'.outbox, x.campaign, x.index) <==> Ran(t'.campaigns[x.campaign], x.index)
    {
      assert Exists(t, x);
      PublishAddsKey(t.outbox, d.campaign, d.index, provider(d.campaign, d.index), x.campaign, x.index);
    }
    forall i | 0 <= i < |t'.outbox|
      ensures
        && Exists(t', Due(t'.outbox[i].campaign, t'.outbox[i].index))
        && Announces(t'.outbox[i], t'.campaigns[t'.outbox[i].campaign].attempts[t'.outbox[i].index])
    {
      if i < |t.outbox| {
        var e := t.outbox[i];
        assert Exists(t, Due(e.campaign, e.index));
        assert KeyInOutbox(t.outbox, e.campaign, e.index);
        assert e.campaign != d.campaign || e.index != d.index;
      }
    }
  }

  /** The attempt has run and nothing else about attempts or campaigns changed; the campaign is completed exactly on
      success, unless it was and this is not the last attempt; it is over after the last one; and the outbox still has
      one row per attempt that ran, with one more if this one had not. */
  ghost predicate AttemptDone(t: Tables, t': Tables, d: Due, now: Instant, succeeded: bool)
    requires Exists(t, d)
  {
    var before := t.campaigns[d.campaign];
    && OnlyChanges(t, t', d.campaign)
    && t'.campaigns[d.campaign].attempts[d.index]
       == Attempt(before.attempts[d.index].scheduledAt, Some(now), succeeded)
    && (forall i :: 0 <= i < |before.attempts| && i != d.index ==>
          t'.campaigns[d.campaign].attempts[i] == before.attempts[i])
    && (t'.campaigns[d.campaign].status == Completed <==> succeeded || (d.index != 2 && before.status == Completed))
    && (d.index == 2 ==> Terminal(t'.campaigns[d.campaign].status))
    && (OutboxInv(t) && !Ran(before, d.index) ==> OutboxInv(t') && |t'.outbox| == |t.outbox| + 1)
  }

  lemma ExecuteIsDone(t: Tables, d: Due, now: Instant, provider: Provider)
    requires Exists(t, d)
    ensures AttemptDone(t, ExecuteAttempt(t, d, now, provider), d, now, provider(d.campaign, d.index))
  {
    if OutboxInv(t) && !Ran(t.campaigns[d.campaign], d.index) {
      ExecuteKeepsOutbox(t, d, now, provider);
    }
  }

  lemma {:induction false} ExecuteAllKeepsOutbox(t: Tables, due: seq<Due>, now: Instant, provider: Provider)
    requires OutboxInv(t)
    requires forall x :: 0 <= x < |t.campaigns| ==> |t.campaigns[x].attempts| == ATTEMPTS
    requires forall i :: 0 <= i < |due| ==> Exists(t, due[i]) && !Ran(t.campaigns[due[i].campaign], due[i].index)
    requires forall i, j :: 0 <= i < j < |due| ==> due[i] != due[j]
    ensures OutboxInv(ExecuteAll(t, due, now, provider))
    ensures |ExecuteAll(t, due, now, provider).outbox| == |t.outbox| + |due|
  {
    if due == [] {
    } else {
      var last := |due| - 1;
      var d := due[last];
      assert Exists(t, d);
      ExecuteAllKeepsOutbox(t, due[..last], now, provider);
      ExecuteAllSweeps(t, due[..last], now, provider, d.campaign);
      assert d !in due[..last];
      assert d == Due(d.campaign, d.index);
      ExecuteKeepsOutbox(ExecuteAll(t, due[..last], now, provider), d, now, provider);
    }
  }

  lemma SweptKeepsCampaignInv(t: Tables, due: seq<Due>, now: Instant, c: nat, after: Campaign)
    requires c < |t.campaigns| && CampaignInv(t.campaigns[c]) && IsDueList(t, now, due)
    requires Swept(t.campaigns[c], after, c, due, now)
    ensures CampaignInv(after)
    ensures t.campaigns[c].status != Running ==> after == t.campaigns[c]
  {
    var before := t.campaigns[c];
    assert forall i :: 0 <= i < ATTEMPTS ==> (Due(c, i) in due <==> IsDue(t, now, Due(c, i)));
    assert Due(c, 0) in due <==> IsDue(t, now, Due(c, 0));
    assert Due(c, 1) in due <==> IsDue(t, now, Due(c, 1));
    assert Due(c, 2) in due <==> IsDue(t, now, Due(c, 2));
  }

  /** A sweep keeps the invariant, runs exactly the due attempts, writes one outbox row for each, and leaves every
      campaign that was not running when it started exactly as it was. */
  lemma SweepKeepsInv(t: Tables, due: seq<Due>, now: Instant, provider: Provider)
    requires Inv(t) && IsDueList(t, now, due)
    ensures
      var t' := ExecuteAll(t, due, now, provider);
      && Inv(t')
      && |t'.outbox| == |t.outbox| + |due|
      && (forall c :: 0 <= c < |t.campaigns| && t.campaigns[c].status != Running ==> t'.campaigns[c] == t.campaigns[c])
      && (forall d ::
            (&& Exists(t, d) && t.campaigns[d.campaign].status == Running
             && t.campaigns[d.campaign].attempts[d.index].scheduledAt <= now) ==>
                 Ran(t'.campaigns[d.campaign], d.index))
      && (forall d :: Exists(t, d) ==>
            (Ran(t'.campaigns[d.campaign], d.index) <==> Ran(t.campaigns[d.campaign], d.index) || IsDue(t, now, d)))
  {
    var t' := ExecuteAll(t, due, now, provider);
    SweepKeepsOutbox(t, due, now, provider);
    SweepKeepsOneRunning(t, due, now, provider);
    forall c | 0 <= c < |t.campaigns|
      ensures CampaignInv(t'.campaigns[c])
      ensures t.campaigns[c].status != Running ==> t'.campaigns[c] == t.campaigns[c]
    {
      SweepKeepsCampaign(t, due, now, provider, c);
    }
    forall d | Exists(t, d)
      ensures Ran(t'.campaigns[d.campaign], d.index) <==> Ran(t.campaigns[d.campaign], d.index) || IsDue(t, now, d)
    {
      SweepRunsWhatIsDue(t, due, now, provider, d);
    }
  }

  lemma SweepKeepsOutbox(t: Tables, due: seq<Due>, now: Instant, provider: Provider)
    requires Inv(t) && IsDueList(t, now, due)
    ensures OutboxInv(ExecuteAll(t, due, now, provider))
    ensures |ExecuteAll(t, due, now, provider).outbox| == |t.outbox| + |due|
  {
    assert forall i :: 0 <= i < |due| ==> due[i] in due && IsDue(t, now, due[i]);
    forall x | 0 <= x < |t.campaigns|
      ensures |t.campaigns[x].attempts| == ATTEMPTS
    {
      assert CampaignInv(t.campaigns[x]);
    }
    ExecuteAllKeepsOutbox(t, due, now, provider);
  }

  lemma SweepKeepsCampaign(t: Tables, due: seq<Due>, now: Instant, provider: Provider, c: nat)
    requires Inv(t) && IsDueList(t, now, due) && c < |t.campaigns|
    ensures
      var after := ExecuteAll(t, due, now, provider).campaigns[c];
      && CampaignInv(after) && Swept(t.campaigns[c], after, c, due, now)
      && (t.campaigns[c].status != Running ==> after == t.campaigns[c])
  {
    forall x | 0 <= x < |t.campaigns|
      ensures |t.campaigns[x].attempts| == ATTEMPTS
    {
      assert CampaignInv(t.campaigns[x]);
    }
    ExecuteAllSweeps(t, due, now, provider, c);
    SweptKeepsCampaignInv(t, due, now, c, ExecuteAll(t, due, now, provider).campaigns[c]);
  }

  lemma SweepRunsWhatIsDue(t: Tables, due: seq<Due>, now: Instant, provider: Provider, d: Due)
    requires Inv(t) && IsDueList(t, now, due) && Exists(t, d)
    ensures Ran(ExecuteAll(t, due, now, provider).campaigns[d.campaign], d.index) <==>
              Ran(t.campaigns[d.campaign], d.index) || IsDue(t, now, d)
  {
    SweepKeepsCampaign(t, due, now, provider, d.campaign);
    assert d == Due(d.campaign, d.index);
  }

  lemma SweepKeepsOneRunning(t: Tables, due: seq<Due>, now: Instant, provider: Provider)
    requires Inv(t) && IsDueList(t, now, due)
    ensures OneRunning(ExecuteAll(t, due, now, provider).campaigns)
  {
    var t' := ExecuteAll(t, due, now, provider);
    forall a, b | 0 <= a < b < |t'.campaigns| && t'.campaigns[a].subscription == t'.campaigns[b].subscription
      ensures t'.campaigns[a].status != Running || t'.campaigns[b].status != Running
    {
      SweepKeepsCampaign(t, due, now, provider, a);
      SweepKeepsCampaign(t, due, now, provider, b);
    }
  }

  /* ---------- runs ---------- */

  datatype Step =
    | Start(subscription: nat, org: nat, key: Key, at: Instant)
    | PauseStep(campaign: nat, org: nat)
    | ResumeStep(campaign: nat, org: nat)
    | Sweep(now: Instant, due: seq<Due>, provider: Provider)

  ghost predicate Enabled(t: Tables, step: Step) {
    step.Sweep? ==> IsDueList(t, step.now, step.due)
  }

  ghost function Apply(t: Tables, step: Step): Tables
    requires Enabled(t, step)
  {
    match step
    case Start(subscription, org, key, at) => StartCampaign(t, subscription, org, key, at)
    case PauseStep(c, org) => Pause(t, c, org)
    case ResumeStep(c, org) => Resume(t, c, org)
    case Sweep(now, due, provider) => ExecuteAll(t, due, now, provider)
  }

  lemma StartKeepsInv(t: Tables, subscription: nat, org: nat, key: Key, at: Instant)
    requires Inv(t)
    ensures Inv(StartCampaign(t, subscription, org, key, at))
  {
    var t' := StartCampaign(t, subscription, org, key, at);
    if t' != t {
      var n := |t.campaigns|;
      forall d | Exists(t', d)
        ensures KeyInOutbox(t'.outbox, d.campaign, d.index) <==> Ran(t'.campaigns[d.campaign], d.index)
      {
        assert forall i :: 0 <= i < |t.outbox| ==> Exists(t, Due(t.outbox[i].campaign, t.outbox[i].index));
        if d.campaign < n {
          assert Exists(t, d);
        }
      }
      forall i | 0 <= i < |t'.outbox|
        ensures
          && Exists(t', Due(t'.outbox[i].campaign, t'.outbox[i].index))
          && Announces(t'.outbox[i], t'.campaigns[t'.outbox[i].campaign].attempts[t'.outbox[i].index])
      {
        assert Exists(t, Due(t.outbox[i].campaign, t.outbox[i].index));
      }
    }
  }

  lemma SetStatusKeepsOutbox(t: Tables, c: nat, status: CampaignStatus)
    requires OutboxInv(t) && c < |t.campaigns|
    ensures OutboxInv(SetStatus(t, c, status))
  {
    var t' := SetStatus(t, c, status);
    forall d | Exists(t', d)
      ensures KeyInOutbox(t'.outbox, d.campaign, d.index) <==> Ran(t'.campaigns[d.campaign], d.index)
    {
      assert Exists(t, d);
    }
    forall i | 0 <= i < |t'.outbox|
      ensures
        && Exists(t', Due(t'.outbox[i].campaign, t'.outbox[i].index))
        && Announces(t'.outbox[i], t'.campaigns[t'.outbox[i].campaign].attempts[t'.outbox[i].index])
    {
      assert Exists(t, Due(t.outbox[i].campaign, t.outbox[i].index));
    }
  }

  lemma StepKeepsInv(t: Tables, step: Step)
    requires Inv(t) && Enabled(t, step)
    ensures Inv(Apply(t, step))
  {
    match step
    case Start(subscription, org, key, at) => StartKeepsInv(t, subscription, org, key, at);
    case PauseStep(c, org) =>
      if PauseOutcome(t, c, org) == Done {
        SetStatusKeepsOutbox(t, c, CampaignStatus.Paused);
      }
    case ResumeStep(c, org) =>
      if ResumeOutcome(t, c, org) == Done {
        SetStatusKeepsOutbox(t, c, Running);
      }
    case Sweep(now, due, provider) => SweepKeepsInv(t, due, now, provider);
  }

  /** A campaign that is over never changes again. */
  lemma TerminalIsForEver(t: Tables, step: Step, c: nat)
    requires Inv(t) && Enabled(t, step) && c < |t.campaigns| && Terminal(t.campaigns[c].status)
    ensures c < |Apply(t, step).campaigns| && Apply(t, step).campaigns[c] == t.campaigns[c]
  {
    if step.Sweep? {
      SweepKeepsInv(t, step.due, step.now, step.provider);
    }
  }

  /** An attempt that has run keeps its record: it is never run again. */
  lemma RunsOnce(t: Tables, step: Step, d: Due)
    requires Inv(t) && Enabled(t, step) && Exists(t, d) && Ran(t.campaigns[d.campaign], d.index)
    ensures Exists(Apply(t, step), d)
    ensures Apply(t, step).campaigns[d.campaign].attempts[d.index] == t.campaigns[d.campaign].attempts[d.index]
  {
    if step.Sweep? {
      assert CampaignInv(t.campaigns[d.campaign]);
      ExecuteAllSweeps(t, step.due, step.now, step.provider, d.campaign);
      assert !IsDue(t, step.now, d) && d == Due(d.campaign, d.index);
    }
  }

  ghost predicate ValidRun(t: Tables, steps: seq<Step>)
    decreases |steps|
  {
    steps == [] || (Enabled(t, steps[0]) && ValidRun(Apply(t, steps[0]), steps[1..]))
  }

  ghost function After(t: Tables, steps: seq<Step>): Tables
    requires ValidRun(t, steps)
    decreases |steps|
  {
    if steps == [] then t else After(Apply(t, steps[0]), steps[1..])
  }

  /** In every run: one running campaign per subscription; executed attempts a prefix of 1, 2, 3, each with exactly
      one outbox row; once attempt 3 has run the campaign is over; a campaign that is over is frozen, and an attempt
      that has run is never run again. */
  lemma {:induction false} RunKeepsInv(t: Tables, steps: seq<Step>)
    requires Inv(t) && ValidRun(t, steps)
    ensures Inv(After(t, steps))
    ensures |t.campaigns| <= |After(t, steps).campaigns|
    ensures forall c :: 0 <= c < |t.campaigns| && Terminal(t.campaigns[c].status) ==>
              After(t, steps).campaigns[c] == t.campaigns[c]
    ensures forall d :: Exists(t, d) && Ran(t.campaigns[d.campaign], d.index) ==>
              && Exists(After(t, steps), d)
              && After(t, steps).campaigns[d.campaign].attempts[d.index] == t.campaigns[d.campaign].attempts[d.index]
    decreases |steps|
  {
    if steps == [] {
    } else {
      var t' := Apply(t, steps[0]);
      StepKeepsInv(t, steps[0]);
      forall c | 0 <= c < |t.campaigns| && Terminal(t.campaigns[c].status)
        ensures t'.campaigns[c] == t.campaigns[c]
      {
        TerminalIsForEver(t, steps[0], c);
      }
      forall d | Exists(t, d) && Ran(t.campaigns[d.campaign], d.index)
        ensures Exists(t', d) && t'.campaigns[d.campaign].attempts[d.index] == t.campaigns[d.campaign].attempts[d.index]
      {
        RunsOnce(t, steps[0], d);
      }
      RunKeepsInv(t', steps[1..]);
    }
  }

  lemma EveryRunIsOrderly(steps: seq<Step>)
    requires ValidRun(Tables([], []), steps)
    ensures Inv(After(Tables([], []), steps))
  {
    RunKeepsInv(Tables([], []), steps);
  }

  /* ---------- pause and resume ---------- */

  /** The step neither resumes a campaign of the subscription nor starts one for it. */
  ghost predicate LeavesToPaused(t: Tables, step: Step, subscription: nat) {
    && (step.Start? ==> step.subscription != subscription)
    && (step.ResumeStep? && step.campaign < |t.campaigns| ==> t.campaigns[step.campaign].subscription != subscription)
  }

  ghost predicate NobodyRuns(t: Tables, subscription: nat) {
    forall c :: 0 <= c < |t.campaigns| && t.campaigns[c].subscription == subscription ==>
        t.campaigns[c].status != Running
  }

  lemma PausedIsUntouched(t: Tables, step: Step, c: nat, org: nat)
    requires Inv(t) && Enabled(t, step) && c < |t.campaigns| && t.campaigns[c].org == org
    requires t.campaigns[c].status == CampaignStatus.Paused && step != ResumeStep(c, org)
    ensures c < |Apply(t, step).campaigns| && Apply(t, step).campaigns[c] == t.campaigns[c]
  {
    if step.Sweep? {
      SweepKeepsInv(t, step.due, step.now, step.provider);
    }
  }

  lemma NobodyTakesThePlace(t: Tables, step: Step, subscription: nat)
    requires Inv(t) && Enabled(t, step) && NobodyRuns(t, subscription) && LeavesToPaused(t, step, subscription)
    ensures NobodyRuns(Apply(t, step), subscription)
  {
    if step.Sweep? {
      SweepKeepsInv(t, step.due, step.now, step.provider);
      forall c | 0 <= c < |t.campaigns|
        ensures Apply(t, step).campaigns[c].subscription == t.campaigns[c].subscription
      {
        assert CampaignInv(t.campaigns[c]);
        ExecuteAllSweeps(t, step.due, step.now, step.provider, c);
      }
    }
  }

  ghost predicate LeavesPlace(t: Tables, steps: seq<Step>, subscription: nat)
    requires ValidRun(t, steps)
    decreases |steps|
  {
    steps == []
    || (LeavesToPaused(t, steps[0], subscription) && LeavesPlace(Apply(t, steps[0]), steps[1..], subscription))
  }

  /** A paused campaign waits unchanged through every run in which nobody resumes it; and if nobody starts or resumes
      another for its subscription, none runs in its place. */
  lemma {:induction false} PausedWaits(t: Tables, steps: seq<Step>, c: nat, org: nat)
    requires Inv(t) && ValidRun(t, steps) && c < |t.campaigns| && t.campaigns[c].org == org
    requires t.campaigns[c].status == CampaignStatus.Paused
    requires forall i :: 0 <= i < |steps| ==> steps[i] != ResumeStep(c, org)
    ensures c < |After(t, steps).campaigns| && After(t, steps).campaigns[c] == t.campaigns[c]
    ensures NobodyRuns(t, t.campaigns[c].subscription) && LeavesPlace(t, steps, t.campaigns[c].subscription) ==>
              NobodyRuns(After(t, steps), t.campaigns[c].subscription)
    decreases |steps|
  {
    if steps == [] {
    } else {
      StepKeepsInv(t, steps[0]);
      PausedIsUntouched(t, steps[0], c, org);
      if NobodyRuns(t, t.campaigns[c].subscription) && LeavesPlace(t, steps, t.campaigns[c].subscription) {
        NobodyTakesThePlace(t, steps[0], t.campaigns[c].subscription);
      }
      PausedWaits(Apply(t, steps[0]), steps[1..], c, org);
    }
  }

  lemma PauseLeavesNone(t: Tables, c: nat, org: nat)
    requires OneRunning(t.campaigns) && PauseOutcome(t, c, org) == Done
    ensures NobodyRuns(Pause(t, c, org), t.campaigns[c].subscription)
  {
  }

  lemma ResumeIffNobodyRuns(t: Tables, c: nat, org: nat)
    requires c < |t.campaigns| && t.campaigns[c].org == org && t.campaigns[c].status == CampaignStatus.Paused
    ensures ResumeOutcome(t, c, org) == Done <==> NobodyRuns(t, t.campaigns[c].subscription)
    ensures ResumeOutcome(t, c, org) == Done ==>
              && OnlyChanges(t, Resume(t, c, org), c) && Resume(t, c, org).outbox == t.outbox
              && Resume(t, c, org).campaigns[c] == t.campaigns[c].(status := Running)
  {
  }

  /** Resuming undoes the pause, after any run in which nobody else resumes the campaign: it succeeds exactly when no
      campaign of the subscription runs, in particular if nobody started or resumed one meanwhile, and then the campaign
      is as it was before the pause while the rest stays as the run left it. */
  lemma ResumeUndoesPause(t: Tables, c: nat, org: nat, steps: seq<Step>)
    requires Inv(t) && PauseOutcome(t, c, org) == Done && ValidRun(Pause(t, c, org), steps)
    requires forall i :: 0 <= i < |steps| ==> steps[i] != ResumeStep(c, org)
    ensures
      var paused, before := Pause(t, c, org), After(Pause(t, c, org), steps);
      var after, subscription := Resume(before, c, org), t.campaigns[c].subscription;
      && (ResumeOutcome(before, c, org) == Done <==> NobodyRuns(before, subscription))
      && (LeavesPlace(paused, steps, subscription) ==> NobodyRuns(before, subscription))
      && (NobodyRuns(before, subscription) ==>
            OnlyChanges(before, after, c) && after.outbox == before.outbox && after.campaigns[c] == t.campaigns[c])
  {
    var paused := Pause(t, c, org);
    StepKeepsInv(t, PauseStep(c, org));
    PauseLeavesNone(t, c, org);
    PausedWaits(paused, steps, c, org);
    ResumeIffNobodyRuns(After(paused, steps), c, org);
  }

  /* ---------- attempts after a success ---------- */

  /** The attempts of one campaign in a due list, in order. */
  function Mine(due: seq<Due>, c: nat): seq<nat> {
    if due == [] then []
    else
      var last := |due| - 1;
      Mine(due[..last], c) + (if due[last].campaign == c then [due[last].index] else [])
  }

  ghost function RunAll(c: Campaign, mine: seq<nat>, id: nat, now: Instant, provider: Provider): (r: Campaign)
    requires forall i :: 0 <= i < |mine| ==> mine[i] < |c.attempts|
    ensures |r.attempts| == |c.attempts|
  {
    if mine == [] then c
    else
      var last := |mine| - 1;
      RunAttempt(RunAll(c, mine[..last], id, now, provider), mine[last], provider(id, mine[last]), now)
  }

  lemma {:induction false} MineMembers(due: seq<Due>, c: nat)
    ensures forall i :: i in Mine(due, c) <==> Due(c, i) in due
  {
    if due == [] {
    } else {
      MineMembers(due[..|due| - 1], c);
    }
  }

  lemma RunAllMore(c: Campaign, mine: seq<nat>, index: nat, id: nat, now: Instant, provider: Provider)
    requires index < |c.attempts| && forall i :: 0 <= i < |mine| ==> mine[i] < |c.attempts|
    ensures RunAll(c, mine + [index], id, now, provider)
         == RunAttempt(RunAll(c, mine, id, now, provider), index, provider(id, index), now)
  {
    assert (mine + [index])[..|mine|] == mine;
  }

  /** A sweep acts on each campaign separately. */
  lemma {:induction false} SweepProjects(t: Tables, due: seq<Due>, now: Instant, provider: Provider, c: nat)
    requires forall i :: 0 <= i < |due| ==> Exists(t, due[i])
    requires c < |t.campaigns|
    ensures forall i :: 0 <= i < |Mine(due, c)| ==> Mine(due, c)[i] < |t.campaigns[c].attempts|
    ensures ExecuteAll(t, due, now, provider).campaigns[c]
         == RunAll(t.campaigns[c], Mine(due, c), c, now, provider)
  {
    if due == [] {
    } else {
      var last := |due| - 1;
      var d, mid := due[last], ExecuteAll(t, due[..last], now, provider);
      SweepProjects(t, due[..last], now, provider, c);
      assert Exists(t, d);
      assert ExecuteAll(t, due, now, provider) == ExecuteAttempt(mid, d, now, provider);
      if d.campaign == c {
        RunAllMore(t.campaigns[c], Mine(due[..last], c), d.index, c, now, provider);
      } else {
        assert Mine(due, c) == Mine(due[..last], c);
      }
    }
  }

  lemma EarlierHasSmallerIndex(t: Tables, c: nat, a: nat, b: nat)
    requires c < |t.campaigns| && CampaignInv(t.campaigns[c]) && a < ATTEMPTS && b < ATTEMPTS && a != b
    requires Before(t, Due(c, a), Due(c, b))
    ensures a < b
  {
  }

  /** Within one campaign the sweep runs attempts in ascending order. */
  lemma {:induction false} MineAscends(t: Tables, due: seq<Due>, c: nat)
    requires c < |t.campaigns| && CampaignInv(t.campaigns[c]) && Ordered(t, due)
    ensures forall i, j :: 0 <= i < j < |Mine(due, c)| ==> Mine(due, c)[i] < Mine(due, c)[j]
  {
    if due == [] {
    } else {
      var last := |due| - 1;
      MineAscends(t, due[..last], c);
      MineMembers(due[..last], c);
      if due[last].campaign == c {
        forall i | 0 <= i < |Mine(due[..last], c)|
          ensures Mine(due[..last], c)[i] < due[last].index
        {
          var m := Mine(due[..last], c)[i];
          assert m in Mine(due[..last], c);
          var k :| 0 <= k < last && due[..last][k] == Due(c, m);
          assert due[k] == Due(c, m) && due[k] != due[last] && Before(t, due[k], due[last]);
          EarlierHasSmallerIndex(t, c, m, due[last].index);
        }
      }
    }
  }

  ghost predicate AnySuccess(c: Campaign) {
    exists i :: 0 <= i < |c.attempts| && c.attempts[i].executedAt.Some? && c.attempts[i].succeeded
  }

  lemma {:induction false} RunAllMarks(c: Campaign, mine: seq<nat>, id: nat, now: Instant, provider: Provider)
    requires forall i :: 0 <= i < |mine| ==> mine[i] < |c.attempts|
    ensures
      var r := RunAll(c, mine, id, now, provider);
      forall i :: 0 <= i < |c.attempts| ==>
        r.attempts[i] == if i in mine then c.attempts[i].(executedAt := Some(now), succeeded := provider(id, i))
                         else c.attempts[i]
  {
    if mine == [] {
    } else {
      RunAllMarks(c, mine[..|mine| - 1], id, now, provider);
    }
  }

  /** Without the final attempt, or with it alone, the campaign completes exactly when some attempt succeeds. */
  lemma {:induction false} RunAllStatus(c: Campaign, mine: seq<nat>, id: nat, now: Instant, provider: Provider)
    requires forall i :: 0 <= i < |mine| ==> mine[i] < |c.attempts|
    requires c.status == Running && (2 !in mine || mine == [2])
    ensures RunAll(c, mine, id, now, provider).status == Completed <==>
              exists i :: 0 <= i < |mine| && provider(id, mine[i])
    ensures 2 !in mine ==> RunAll(c, mine, id, now, provider).status in {Running, Completed}
  {
    if mine == [] {
    } else {
      var last := |mine| - 1;
      RunAllStatus(c, mine[..last], id, now, provider);
      assert mine[last] in mine;
      if i :| 0 <= i < |mine| && provider(id, mine[i]) {
        assert i < last ==> provider(id, mine[..last][i]);
      }
    }
  }

  /** The final attempt is due together with an earlier one: the sweep has come too late to keep them apart. */
  ghost predicate LateSweep(t: Tables, now: Instant, c: nat) {
    IsDue(t, now, Due(c, 2)) && IsDue(t, now, Due(c, 1))
  }

  /** What a status promises: the campaign is completed exactly when it has collected. */
  ghost predicate Honest(c: Campaign) {
    AnySuccess(c) <==> c.status == Completed
  }

  ghost predicate AllHonest(t: Tables) {
    forall c :: 0 <= c < |t.campaigns| ==> Honest(t.campaigns[c])
  }

  ghost predicate Timely(t: Tables, step: Step) {
    step.Sweep? ==> forall c: nat :: c < |t.campaigns| ==> !LateSweep(t, step.now, c)
  }

  ghost predicate TimelyRun(t: Tables, steps: seq<Step>)
    requires ValidRun(t, steps)
    decreases |steps|
  {
    steps == [] || (Timely(t, steps[0]) && TimelyRun(Apply(t, steps[0]), steps[1..]))
  }

  lemma TimelyStepKeepsHonest(t: Tables, step: Step)
    requires Inv(t) && AllHonest(t) && Enabled(t, step) && Timely(t, step)
    ensures AllHonest(Apply(t, step))
  {
    var t' := Apply(t, step);
    forall c | 0 <= c < |t'.campaigns|
      ensures Honest(t'.campaigns[c])
    {
      assert c < |t.campaigns| ==> Honest(t.campaigns[c]);
      if step.Sweep? {
        SweepKeepsInv(t, step.due, step.now, step.provider);
        if t.campaigns[c].status == Running {
          TimelySweepCompletes(t, step.due, step.now, c, step.provider);
        }
      }
    }
  }

  /** In every run whose sweeps come in time, whatever the provider answers, each campaign is completed exactly when
      one of its attempts collected. */
  lemma {:induction false} TimelyRunsAreHonest(t: Tables, steps: seq<Step>)
    requires Inv(t) && AllHonest(t) && ValidRun(t, steps) && TimelyRun(t, steps)
    ensures AllHonest(After(t, steps))
    decreases |steps|
  {
    if steps == [] {
    } else {
      StepKeepsInv(t, steps[0]);
      TimelyStepKeepsHonest(t, steps[0]);
      TimelyRunsAreHonest(Apply(t, steps[0]), steps[1..]);
    }
  }

  /** After every run of timely sweeps, the next sweep keeps a running campaign honest, whatever the provider answers,
      exactly when it is not a late one for that campaign: in a late sweep a success of attempt 2 is overwritten by a
      failure of attempt 3, and the campaign ends exhausted although it collected. */
  lemma SuccessCompletesIffNotLate(steps: seq<Step>, due: seq<Due>, now: Instant, c: nat)
    requires ValidRun(Tables([], []), steps) && TimelyRun(Tables([], []), steps)
    requires
      var t := After(Tables([], []), steps);
      IsDueList(t, now, due) && c < |t.campaigns| && t.campaigns[c].status == Running
    ensures
      var t := After(Tables([], []), steps);
      (forall provider: Provider :: Honest(ExecuteAll(t, due, now, provider).campaigns[c])) <==> !LateSweep(t, now, c)
  {
    var t := After(Tables([], []), steps);
    RunKeepsInv(Tables([], []), steps);
    TimelyRunsAreHonest(Tables([], []), steps);
    if LateSweep(t, now, c) {
      var provider: Provider := (x, i) => i == 1;
      LateSweepHidesSuccess(t, due, now, c, provider);
      assert !Honest(ExecuteAll(t, due, now, provider).campaigns[c]);
    } else {
      forall provider: Provider
        ensures Honest(ExecuteAll(t, due, now, provider).campaigns[c])
      {
        TimelySweepCompletes(t, due, now, c, provider);
      }
    }
  }

  lemma AllThreeDue(c: Campaign, outbox: seq<Event>)
    requires c.status == Running && c.attempts == Schedule(0)
    ensures IsDueList(Tables([c], outbox), 8 * DAY, [Due(0, 0), Due(0, 1), Due(0, 2)])
  {
    var t, due := Tables([c], outbox), [Due(0, 0), Due(0, 1), Due(0, 2)];
    assert Before(t, due[0], due[1]) && Before(t, due[1], due[2]) && Before(t, due[0], due[2]);
    forall d
      ensures d in due <==> IsDue(t, 8 * DAY, d)
    {
      if IsDue(t, 8 * DAY, d) {
        assert d.campaign == 0 && d == due[d.index];
      }
    }
  }

  lemma TwoSteps(t: Tables, a: Step, b: Step)
    requires Enabled(t, a) && Enabled(Apply(t, a), b)
    ensures ValidRun(t, [a, b]) && After(t, [a, b]) == Apply(Apply(t, a), b)
  {
    assert [a, b][1..] == [b] && [b][1..] == [];
    var t1 := Apply(t, a);
    var t2 := Apply(t1, b);
    assert ValidRun(t2, []) && After(t2, []) == t2;
    assert ValidRun(t1, [b]) && After(t1, [b]) == t2;
  }

  /** A late sweep is reachable: a campaign that nobody sweeps until day 8 collects on attempt 2 and ends exhausted. */
  lemma UnsweptWeekHidesSuccess(subscription: nat, org: nat, key: Key) returns (steps: seq<Step>)
    ensures ValidRun(Tables([], []), steps)
    ensures
      var t := After(Tables([], []), steps);
      |t.campaigns| == 1 && AnySuccess(t.campaigns[0]) && t.campaigns[0].status == Exhausted
  {
    var t0, start := Tables([], []), Start(subscription, org, key, 0);
    var c := Campaign(subscription, org, key, 0, Running, Schedule(0));
    var sweep := Sweep(8 * DAY, [Due(0, 0), Due(0, 1), Due(0, 2)], (x, i) => i == 1);
    assert Apply(t0, start) == Tables([c], []);
    assert Inv(Tables([c], [])) by {
      StartKeepsInv(t0, subscription, org, key, 0);
    }
    AllThreeDue(c, []);
    TwoSteps(t0, start, sweep);
    FirstSweepOnDayEight(c, [], sweep.provider);
    steps := [start, sweep];
  }

  lemma FirstSweepOnDayEight(c: Campaign, outbox: seq<Event>, provider: Provider)
    requires Inv(Tables([c], outbox)) && c.status == Running && c.attempts == Schedule(0)
    requires provider(0, 1) && !provider(0, 2)
    ensures IsDueList(Tables([c], outbox), 8 * DAY, [Due(0, 0), Due(0, 1), Due(0, 2)])
    ensures
      var after := ExecuteAll(Tables([c], outbox), [Due(0, 0), Due(0, 1), Due(0, 2)], 8 * DAY, provider).campaigns[0];
      AnySuccess(after) && after.status == Exhausted
  {
    var t, due := Tables([c], outbox), [Due(0, 0), Due(0, 1), Due(0, 2)];
    AllThreeDue(c, outbox);
    assert LateSweep(t, 8 * DAY, 0);
    LateSweepHidesSuccess(t, due, 8 * DAY, 0, provider);
  }

  lemma AscendingEndsWithFinal(mine: seq<nat>)
    requires 2 in mine && forall i :: 0 <= i < |mine| ==> mine[i] < ATTEMPTS
    requires forall i, j :: 0 <= i < j < |mine| ==> mine[i] < mine[j]
    ensures mine[|mine| - 1] == 2
  {
    var last := mine[|mine| - 1];
    assert forall i :: 0 <= i < |mine| ==> mine[i] <= last;
  }

  lemma LateSweepHidesSuccess(t: Tables, due: seq<Due>, now: Instant, c: nat, provider: Provider)
    requires Inv(t) && IsDueList(t, now, due) && LateSweep(t, now, c)
    requires provider(c, 1) && !provider(c, 2)
    ensures c < |t.campaigns|
    ensures
      var after := ExecuteAll(t, due, now, provider).campaigns[c];
      AnySuccess(after) && after.status == Exhausted
  {
    var mine := Mine(due, c);
    MineMembers(due, c);
    MineAscends(t, due, c);
    SweepProjects(t, due, now, provider, c);
    RunAllMarks(t.campaigns[c], mine, c, now, provider);
    assert 1 in mine && 2 in mine;
    AscendingEndsWithFinal(mine);
    var after := ExecuteAll(t, due, now, provider).campaigns[c];
    assert after.attempts[1].succeeded && after.attempts[1].executedAt.Some?;
  }

  lemma TimelySweepRunsFinalAlone(t: Tables, due: seq<Due>, now: Instant, c: nat)
    requires Inv(t) && IsDueList(t, now, due) && c < |t.campaigns| && !LateSweep(t, now, c)
    ensures forall i :: 0 <= i < |Mine(due, c)| ==> Mine(due, c)[i] < ATTEMPTS
    ensures 2 !in Mine(due, c) || Mine(due, c) == [2]
    ensures forall i :: i in Mine(due, c) ==> !Ran(t.campaigns[c], i)
  {
    var mine := Mine(due, c);
    MineMembers(due, c);
    MineAscends(t, due, c);
    assert forall i :: i in mine ==> IsDue(t, now, Due(c, i));
    assert forall k :: 0 <= k < |mine| ==> mine[k] in mine;
    assert |mine| >= 2 ==> mine[0] < mine[1];
    assert CampaignInv(t.campaigns[c]);
    if 2 in mine {
      assert 0 !in mine && 1 !in mine;
      assert mine == [2];
    }
  }

  lemma RunAllCompletes(before: Campaign, mine: seq<nat>, c: nat, now: Instant, provider: Provider)
    requires forall i :: 0 <= i < |mine| ==> mine[i] < |before.attempts|
    requires before.status == Running && !AnySuccess(before) && (2 !in mine || mine == [2])
    ensures Honest(RunAll(before, mine, c, now, provider))
  {
    RunAllMarks(before, mine, c, now, provider);
    RunAllStatus(before, mine, c, now, provider);
    var after := RunAll(before, mine, c, now, provider);
    if i :| 0 <= i < |mine| && provider(c, mine[i]) {
      assert mine[i] in mine;
      assert after.attempts[mine[i]].succeeded && after.attempts[mine[i]].executedAt.Some?;
    }
    if i :| 0 <= i < |after.attempts| && after.attempts[i].executedAt.Some? && after.attempts[i].succeeded {
      assert i in mine;
    }
  }

  lemma TimelySweepCompletes(t: Tables, due: seq<Due>, now: Instant, c: nat, provider: Provider)
    requires Inv(t) && IsDueList(t, now, due) && c < |t.campaigns| && t.campaigns[c].status == Running
    requires !AnySuccess(t.campaigns[c]) && !LateSweep(t, now, c)
    ensures Honest(ExecuteAll(t, due, now, provider).campaigns[c])
  {
    TimelySweepRunsFinalAlone(t, due, now, c);
    SweepProjects(t, due, now, provider, c);
    RunAllCompletes(t.campaigns[c], Mine(due, c), c, now, provider);
  }

  /* ---------- the tables, updated in place ---------- */

  class DunningTables {
    var campaigns: seq<Campaign>
    var outbox: seq<Event>

    ghost function Contents(): Tables
      reads this
    {
      Tables(campaigns, outbox)
    }

    constructor ()
      ensures Contents() == Tables([], [])
    {
      campaigns, outbox := [], [];
    }

    /** Returns the campaign that now answers for the subscription: found by key, already running, or new. */
    method Start(enabled: bool, subscription: nat, org: nat, key: Key, startedAt: Instant) returns (c: Option<nat>)
      modifies this`campaigns
      ensures Contents() == if enabled then StartCampaign(old(Contents()), subscription, org, key, startedAt)
                            else old(Contents())
      ensures c.Some? == enabled
      ensures c.Some? ==>
                && c.value < |campaigns|
                && (campaigns[c.value].key == key
                    || (campaigns[c.value].subscription == subscription && campaigns[c.value].status == Running))
                && (FindByKey(old(campaigns), key).None? && FindRunning(old(campaigns), subscription).None? ==>
                      && campaigns == old(campaigns) + [campaigns[c.value]]
                      && IsNewCampaign(campaigns[c.value], subscription, org, key, startedAt))
                && (FindByKey(old(campaigns), key).Some? || FindRunning(old(campaigns), subscription).Some? ==>
                      campaigns == old(campaigns))
    {
      if !enabled {
        return None;
      }
      var existing := FindByKey(campaigns, key);
      if existing.Some? {
        return existing;
      }
      var running := FindRunning(campaigns, subscription);
      if running.Some? {
        return running;
      }
      var attempts: seq<Attempt> := [];
      for i := 0 to ATTEMPTS
        invariant attempts == Schedule(startedAt)[..i]
      {
        attempts := attempts + [Attempt(startedAt + OffsetDays(i) * DAY, None, false)];
      }
      assert attempts == Schedule(startedAt);
      campaigns := campaigns + [Campaign(subscription, org, key, startedAt, Running, attempts)];
      return Some(|campaigns| - 1);
    }

    method PauseCampaign(c: nat, org: nat) returns (outcome: Outcome)
      modifies this`campaigns
      ensures outcome == PauseOutcome(old(Contents()), c, org) && Contents() == Pause(old(Contents()), c, org)
      ensures outcome == NotFound <==> c >= |old(campaigns)| || old(campaigns)[c].org != org
      ensures outcome == Done <==>
                c < |old(campaigns)| && old(campaigns)[c].org == org && old(campaigns)[c].status == Running
      ensures outcome != Done ==> campaigns == old(campaigns)
      ensures outcome == Done ==>
                && OnlyChanges(old(Contents()), Contents(), c)
                && campaigns[c].attempts == old(campaigns)[c].attempts
                && (forall now: Instant, d: Due :: d.campaign == c ==> !IsDue(Contents(), now, d))
      ensures OneRunning(old(campaigns)) ==> OneRunning(campaigns)
      ensures outcome == Done && OneRunning(old(campaigns)) ==> FindRunning(campaigns, campaigns[c].subscription).None?
    {
      if c >= |campaigns| || campaigns[c].org != org {
        return NotFound;
      }
      if campaigns[c].status != Running {
        return WrongStatus;
      }
      campaigns := campaigns[c := campaigns[c].(status := CampaignStatus.Paused)];
      return Done;
    }

    method ResumeCampaign(c: nat, org: nat) returns (outcome: Outcome)
      modifies this`campaigns
      ensures outcome == ResumeOutcome(old(Contents()), c, org) && Contents() == Resume(old(Contents()), c, org)
      ensures outcome == NotFound <==> c >= |old(campaigns)| || old(campaigns)[c].org != org
      ensures outcome == Done <==>
                && c < |old(campaigns)| && old(campaigns)[c].org == org
                && old(campaigns)[c].status == CampaignStatus.Paused
                && FindRunning(old(campaigns), old(campaigns)[c].subscription).None?
      ensures outcome != Done ==> campaigns == old(campaigns)
      ensures outcome == Done ==>
                && OnlyChanges(old(Contents()), Contents(), c)
                && campaigns[c].attempts == old(campaigns)[c].attempts
                && FindRunning(campaigns, campaigns[c].subscription) == Some(c)
      ensures OneRunning(old(campaigns)) ==> OneRunning(campaigns)
    {
      if c >= |campaigns| || campaigns[c].org != org {
        return NotFound;
      }
      if campaigns[c].status != CampaignStatus.Paused {
        return WrongStatus;
      }
      var other := FindRunning(campaigns, campaigns[c].subscription);
      if other.Some? && other.value != c {
        return AnotherRunning;
      }
      campaigns := campaigns[c := campaigns[c].(status := Running)];
      assert campaigns[c].subscription == old(campaigns)[c].subscription;
      return Done;
    }

    /** Put one more attempt into an ordered list, after those that sort before it. */
    method InsertDue(due: seq<Due>, d: Due) returns (more: seq<Due>)
      requires Ordered(Contents(), due) && Exists(Contents(), d) && d !in due
      ensures Ordered(Contents(), more)
      ensures forall x :: x in more <==> x in due || x == d
    {
      var k := 0;
      while k < |due| && Before(Tables(campaigns, outbox), due[k], d)
        invariant 0 <= k <= |due|
        invariant forall i :: 0 <= i < k ==> Before(Contents(), due[i], d)
      {
        k := k + 1;
      }
      more := due[..k] + [d] + due[k..];
      assert forall x :: x in due <==> x in due[..k] || x in due[k..];
      InsertedInOrder(Contents(), due, d, k);
    }

    /** The sweep's query. */
    method DueAttempts(now: Instant) returns (due: seq<Due>)
      ensures IsDueList(Contents(), now, due)
    {
      due := [];
      for c := 0 to |campaigns|
        invariant Ordered(Contents(), due)
        invariant forall d :: d in due <==> IsDue(Contents(), now, d) && d.campaign < c
      {
        for i := 0 to |campaigns[c].attempts|
          invariant Ordered(Contents(), due)
          invariant forall d :: d in due <==>
                      IsDue(Contents(), now, d) && (d.campaign < c || (d.campaign == c && d.index < i))
        {
          var a := campaigns[c].attempts[i];
          if campaigns[c].status == Running && a.executedAt.None? && a.scheduledAt <= now {
            due := InsertDue(due, Due(c, i));
          }
        }
      }
    }

    method Execute(d: Due, now: Instant, succeeded: bool)
      requires Exists(Contents(), d)
      modifies this
      ensures AttemptDone(old(Contents()), Contents(), d, now, succeeded)
      ensures campaigns == old(campaigns)[d.campaign := RunAttempt(old(campaigns)[d.campaign], d.index, succeeded, now)]
      ensures outbox == Publish(old(outbox), d.campaign, d.index, succeeded)
    {
      var c := campaigns[d.campaign];
      var attempt := c.attempts[d.index].(executedAt := Some(now), succeeded := succeeded);
      var status := c.status;
      if !KeyInOutbox(outbox, d.campaign, d.index) {
        outbox := outbox + [Event(d.campaign, d.index, EventTypeFor(d.index, succeeded))];
      }
      if succeeded {
        status := Completed;
      } else if d.index == 2 {
        status := Exhausted;
      }
      campaigns := campaigns[d.campaign := c.(attempts := c.attempts[d.index := attempt], status := status)];
      ExecuteIsDone(old(Contents()), d, now, (_, _) => succeeded);
    }

    /** Ask the provider to collect, and record what came of it. */
    method AskAndExecute(d: Due, now: Instant, provider: Provider)
      requires Exists(Contents(), d)
      modifies this
      ensures Contents() == ExecuteAttempt(old(Contents()), d, now, provider)
    {
      Execute(d, now, provider(d.campaign, d.index));
    }

    /** Load the due attempts once, then run them all. */
    method ProcessDueAttempts(enabled: bool, now: Instant, provider: Provider)
      returns (processed: nat, ghost due: seq<Due>)
      modifies this
      ensures !enabled ==> Contents() == old(Contents()) && processed == 0
      ensures enabled ==>
                && IsDueList(old(Contents()), now, due)
                && Contents() == ExecuteAll(old(Contents()), due, now, provider)
                && processed == |due|
    {
      processed, due := 0, [];
      if !enabled {
        return;
      }
      var work := DueAttempts(now);
      due := work;
      ghost var t := Contents();
      for i := 0 to |work|
        invariant processed == i
        invariant Contents() == ExecuteAll(t, work[..i], now, provider)
      {
        var d := work[i];
        assert Exists(t, d) && Exists(Contents(), d);
        AskAndExecute(d, now, provider);
        processed := processed + 1;
        assert work[..i + 1][..i] == work[..i];
      }
      assert work[..|work|] == work;
    }
  }

  lemma InsertedInOrder(t: Tables, due: seq<Due>, d: Due, k: nat)
    requires Ordered(t, due) && Exists(t, d) && d !in due && k <= |due|
    requires forall i :: 0 <= i < k ==> Exists(t, due[i]) && Before(t, due[i], d)
    requires k < |due| ==> Exists(t, due[k]) && !Before(t, due[k], d)
    ensures Ordered(t, due[..k] + [d] + due[k..])
  {
    var more := due[..k] + [d] + due[k..];
    forall i | 0 <= i < |more|
      ensures Exists(t, more[i]) && (i < k ==> more[i] == due[i]) && (i > k ==> more[i] == due[i - 1])
    {
    }
    forall i, j | 0 <= i < j < |more|
      ensures more[i] != more[j] && Before(t, more[i], more[j])
    {
      if i == k {
        assert Before(t, d, due[k]);
        assert j - 1 > k ==> Before(t, due[k], due[j - 1]);
      }
    }
  }
}
