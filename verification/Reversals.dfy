/** What reversals do to the money of an organization, over every run of the lifecycle. */
module Reversals {
  import opened Wrappers
  import opened Subscriptions
  import opened Ledger
  import opened Webhooks
  import opened Lifecycle
  import opened LifecycleRuns

  /** The row refers to an earlier entry of the same organization and invoice and cancels its amount. */
  ghost predicate Cancels(entries: seq<Entry>, k: nat)
    requires k < |entries|
  {
    var e := entries[k];
    && e.reverses.Some? && e.reverses.value < k
    && var o := entries[e.reverses.value];
       e.org == o.org && e.invoice == o.invoice && e.amount + o.amount == 0
  }

  /** Exactly the reversals refer to other entries, and each of them cancels the one it refers to. */
  ghost predicate ReversalsCancel(entries: seq<Entry>) {
    forall k :: 0 <= k < |entries| ==>
      (entries[k].kind == Reversal <==> entries[k].reverses.Some?) && (entries[k].kind == Reversal ==>
          Cancels(entries, k))
  }

  lemma PostKeepsReversals(entries: seq<Entry>, e: Entry)
    requires ReversalsCancel(entries) && e.kind != Reversal && e.reverses.None?
    ensures ReversalsCancel(PostEntry(entries, e))
  {
    AppendKeeps(entries, e);
  }

  lemma AppendKeeps(entries: seq<Entry>, e: Entry)
    requires ReversalsCancel(entries)
    requires (e.kind == Reversal <==> e.reverses.Some?)
    requires e.kind == Reversal ==> Cancels(entries + [e], |entries|)
    ensures ReversalsCancel(entries + [e])
  {
    var more := entries + [e];
    forall k | 0 <= k < |more|
      ensures (more[k].kind == Reversal <==> more[k].reverses.Some?) && (more[k].kind == Reversal ==> Cancels(more, k))
    {
      if k < |entries| {
        assert more[k] == entries[k];
        assert entries[k].kind == Reversal ==> Cancels(entries, k);
      }
    }
  }

  lemma ReverseKeepsReversals(entries: seq<Entry>, entry: nat, key: Key)
    requires ReversalsCancel(entries) && entry < |entries|
    ensures ReversalsCancel(PostEntry(entries, ReversalOf(entries, entry, key)))
  {
    ReversalCompensates(entries, entry, key);
    AppendKeeps(entries, ReversalOf(entries, entry, key));
  }

  lemma {:induction false} SweepKeepsReversals(db: Db, n: nat, now: Instant, locked: set<nat>, env: Env)
    requires ReversalsCancel(db.ledger) && n <= |db.subs|
    ensures ReversalsCancel(SweepTo(db, n, now, locked, env).ledger)
  {
    if n == 0 {
    } else {
      SweepKeepsReversals(db, n - 1, now, locked, env);
      var before := SweepTo(db, n - 1, now, locked, env);
      PostKeepsReversals(before.ledger, Entry(before.subs[n - 1].org, None, RevokedAccess, 0, None, None,
                                              GraceKey(n - 1, RevokedMarker)));
    }
  }

  lemma ProcessKeepsReversals(db: Db, w: nat, now: Instant, env: Env)
    requires ReversalsCancel(db.ledger)
    ensures ReversalsCancel(Process(db, w, now, env).ledger)
  {
    if w < |db.webhooks| && Process(db, w, now, env).ledger != db.ledger {
      var e := Process(db, w, now, env).ledger[|db.ledger|];
      PostKeepsReversals(db.ledger, e);
    }
  }

  lemma StepKeepsReversals(db: Db, step: Step, env: Env)
    requires ReversalsCancel(db.ledger)
    ensures ReversalsCancel(Apply(db, step, env).ledger)
  {
    match step
    case SweepStep(now, locked) => SweepKeepsReversals(db, |db.subs|, now, locked, env);
    case ProcessStep(w, now) => ProcessKeepsReversals(db, w, now, env);
    case ReplayStep(w, now) =>
      if w < |db.webhooks| {
        ProcessKeepsReversals(db.(webhooks := db.webhooks[w := db.webhooks[w].(status := Received)]), w, now, env);
      }
    case ReverseStep(entry, key) =>
      if entry < |db.ledger| {
        ReverseKeepsReversals(db.ledger, entry, key);
      }
    case ChangePlanStep(i, plan, idem) =>
      if i < |db.subs| {
        var org := db.subs[i].org;
        PostKeepsReversals(db.ledger, Entry(org, None, ProrationDebit, 1, None, None, PlanChangeKey(idem, Debit)));
        PostKeepsReversals(db.ledger, Entry(org, None, ProrationCredit, -1, None, None, PlanChangeKey(idem, Credit)));
      }
    case _ =>
  }

  lemma {:induction false} RunKeepsReversals(db: Db, steps: seq<Step>, env: Env)
    requires ReversalsCancel(db.ledger)
    ensures ReversalsCancel(After(db, steps, env).ledger)
    decreases |steps|
  {
    if steps == [] {
    } else {
      StepKeepsReversals(db, steps[0], env);
      RunKeepsReversals(Apply(db, steps[0], env), steps[1..], env);
    }
  }

  /** An organization's money in entries that are not reversals. */
  function Gross(entries: seq<Entry>, org: nat): int {
    if entries == [] then 0
    else
      var e := entries[|entries| - 1];
      Gross(entries[..|entries| - 1], org) + (if e.org == org && e.kind != Reversal then e.amount else 0)
  }

  /** The amounts of an organization's entries that the first `n` rows reverse, once for each reversal. */
  ghost function Undone(entries: seq<Entry>, n: nat, org: nat): int
    requires n <= |entries|
  {
    if n == 0 then 0
    else
      var e := entries[n - 1];
      Undone(entries, n - 1, org)
      + (if e.org == org && e.kind == Reversal && e.reverses.Some? && e.reverses.value < |entries|
         then entries[e.reverses.value].amount else 0)
  }

  lemma {:induction false} BalanceOfPrefix(entries: seq<Entry>, n: nat, org: nat)
    requires ReversalsCancel(entries) && n <= |entries|
    ensures OrgTotal(entries[..n], org) == Gross(entries[..n], org) - Undone(entries, n, org)
  {
    if n == 0 {
    } else {
      BalanceOfPrefix(entries, n - 1, org);
      assert entries[..n][..n - 1] == entries[..n - 1];
      assert entries[n - 1].kind == Reversal ==> Cancels(entries, n - 1);
    }
  }

  /** After every run exactly the reversals refer to other entries, each cancels an earlier entry of the same
      organization and invoice, and an organization's balance is what was posted less what was reversed. */
  lemma BalanceIsPostedLessReversed(steps: seq<Step>, env: Env, org: nat)
    ensures
      var ledger := After(EMPTY, steps, env).ledger;
      && ReversalsCancel(ledger)
      && OrgTotal(ledger, org) == Gross(ledger, org) - Undone(ledger, |ledger|, org)
  {
    RunKeepsReversals(EMPTY, steps, env);
    var ledger := After(EMPTY, steps, env).ledger;
    BalanceOfPrefix(ledger, |ledger|, org);
    assert ledger[..|ledger|] == ledger;
  }
}
