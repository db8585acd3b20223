/** What a version bump guarantees to the evaluations that run beside and after it. */
module EntitlementBump {
  import opened Wrappers
  import opened Subscriptions
  import opened Entitlements
  import opened EntitlementCache

  /* ---------- what a bump guarantees ---------- */

  /** A build that reads the primary reads the latest committed state. */
  predicate ReadsPrimary(w: World, step: Step) {
    step.Read? ==> step.source == |w.history| - 1
  }

  ghost predicate PrimaryRun(w: World, steps: seq<Step>, cfg: Config)
    requires ValidRun(w, steps, cfg)
    decreases |steps|
  {
    steps == [] || (ReadsPrimary(w, steps[0]) && PrimaryRun(Apply(w, steps[0], cfg), steps[1..], cfg))
  }

  ghost predicate PhaseAfter(phase: Phase, bumped: nat) {
    (phase.Built? || phase.Stamped? || phase.Unlocking? || phase.Ready?) ==> phase.snap.source >= bumped
  }

  /** No evaluation in flight holds a snapshot older than state `bumped`. */
  ghost predicate NoOldFlight(w: World, bumped: nat) {
    forall f :: f in w.flights ==> PhaseAfter(w.flights[f].phase, bumped)
  }

  /** An evaluation could still pick up a snapshot older than state `bumped` from Redis. */
  ghost predicate ServesOld(w: World, bumped: nat) {
    Live(w.shared, w.now) && w.shared.value.snap.source < bumped
  }

  /** Every snapshot that an evaluation which misses L1 holds, can still pick up or has answered from since answer
      `missed` was read from state `bumped` or a later one. */
  ghost predicate FreshBehindL1(w: World, bumped: nat, missed: nat) {
    && bumped < |w.history|
    && !ServesOld(w, bumped)
    && NoOldFlight(w, bumped)
    && missed <= |w.answers|
    && (forall i :: missed <= i < |w.answers| && !w.answers[i].fromL1 ==> w.answers[i].snap.source >= bumped)
  }

  /** The same for the process `p` and its L1, since answer `answered`. */
  ghost predicate FreshInL1(w: World, p: nat, bumped: nat, answered: nat) {
    && answered <= |w.answers|
    && (p in w.l1 ==> w.l1[p].snap.source >= bumped)
    && (forall i :: answered <= i < |w.answers| && w.answers[i].process == p ==> w.answers[i].snap.source >= bumped)
  }

  lemma StepKeepsFreshBehindL1(w: World, step: Step, bumped: nat, missed: nat, cfg: Config)
    requires Enabled(w, step, cfg) && ReadsPrimary(w, step) && FreshBehindL1(w, bumped, missed)
    ensures FreshBehindL1(Apply(w, step, cfg), bumped, missed)
  {
    var w' := Apply(w, step, cfg);
    forall f | f in w'.flights
      ensures PhaseAfter(w'.flights[f].phase, bumped)
    {
      if f in w.flights {
        assert PhaseAfter(w.flights[f].phase, bumped);
      }
    }
    if step.Respond? || step.Store? {
      assert PhaseAfter(w.flights[step.flight].phase, bumped);
    }
  }

  lemma StepKeepsFreshInL1(w: World, step: Step, p: nat, bumped: nat, answered: nat, cfg: Config)
    requires Enabled(w, step, cfg) && NoOldFlight(w, bumped) && FreshInL1(w, p, bumped, answered)
    ensures FreshInL1(Apply(w, step, cfg), p, bumped, answered)
  {
    if step.Respond? {
      assert PhaseAfter(w.flights[step.flight].phase, bumped);
    }
  }

  lemma {:induction false} RunKeepsFreshBehindL1(w: World, steps: seq<Step>, bumped: nat, missed: nat, cfg: Config)
    requires ValidRun(w, steps, cfg) && PrimaryRun(w, steps, cfg) && FreshBehindL1(w, bumped, missed)
    ensures FreshBehindL1(After(w, steps, cfg), bumped, missed)
    decreases |steps|
  {
    if steps == [] {
    } else {
      StepKeepsFreshBehindL1(w, steps[0], bumped, missed, cfg);
      RunKeepsFreshBehindL1(Apply(w, steps[0], cfg), steps[1..], bumped, missed, cfg);
    }
  }

  lemma {:induction false} RunKeepsFreshInL1(w: World, steps: seq<Step>, p: nat, bumped: nat, missed: nat,
                                             answered: nat, cfg: Config)
    requires ValidRun(w, steps, cfg) && PrimaryRun(w, steps, cfg)
    requires FreshBehindL1(w, bumped, missed) && FreshInL1(w, p, bumped, answered)
    ensures FreshInL1(After(w, steps, cfg), p, bumped, answered)
    decreases |steps|
  {
    if steps == [] {
    } else {
      StepKeepsFreshBehindL1(w, steps[0], bumped, missed, cfg);
      StepKeepsFreshInL1(w, steps[0], p, bumped, answered, cfg);
      RunKeepsFreshInL1(Apply(w, steps[0], cfg), steps[1..], p, bumped, missed, answered, cfg);
    }
  }

  /** A run whose builds read the primary. */
  ghost predicate PrimaryRunFrom(w: World, steps: seq<Step>, cfg: Config) {
    ValidRun(w, steps, cfg) && PrimaryRun(w, steps, cfg)
  }

  /** `increment_entitlement_version` in process `p`, from the DELETE at `w` on: `mid` is what others do before the L1
      drop, and `steps` what everybody does after it. */
  ghost predicate BumpRun(w: World, p: nat, mid: seq<Step>, steps: seq<Step>, cfg: Config) {
    && PrimaryRunFrom(Apply(w, DeleteShared, cfg), mid, cfg)
    && PrimaryRunFrom(Dropped(w, p, mid, cfg), steps, cfg)
  }

  /** The world right after the L1 drop. */
  ghost function Dropped(w: World, p: nat, mid: seq<Step>, cfg: Config): World
    requires ValidRun(Apply(w, DeleteShared, cfg), mid, cfg)
  {
    Apply(After(Apply(w, DeleteShared, cfg), mid, cfg), DropL1(p), cfg)
  }

  ghost function AfterBumpRun(w: World, p: nat, mid: seq<Step>, steps: seq<Step>, cfg: Config): World
    requires BumpRun(w, p, mid, steps, cfg)
  {
    After(Dropped(w, p, mid, cfg), steps, cfg)
  }

  /** Answers that missed L1, from number `missed` on, and answers of `p`, from number `answered` on, rest on state
      `bumped` or a later one. */
  ghost predicate FreshAnswers(w: World, p: nat, bumped: nat, missed: nat, answered: nat) {
    && (forall i :: missed <= i < |w.answers| && !w.answers[i].fromL1 ==> w.answers[i].snap.source >= bumped)
    && (forall i :: answered <= i < |w.answers| && w.answers[i].process == p ==> w.answers[i].snap.source >= bumped)
  }

  /** The bump is seen: since the DELETE every answer that missed L1, and since the L1 drop every answer of the bumping
      process, rests on state `bumped` or a later one. */
  ghost predicate SeesBump(w: World, p: nat, mid: seq<Step>, steps: seq<Step>, bumped: nat, cfg: Config)
    requires BumpRun(w, p, mid, steps, cfg)
  {
    FreshAnswers(AfterBumpRun(w, p, mid, steps, cfg), p, bumped, |w.answers|, |Dropped(w, p, mid, cfg).answers|)
  }

  /** If no evaluation in flight holds an old snapshot at the DELETE of a bump, and builds read the primary, then the
      bump is seen, however the rest of it is interrupted. */
  lemma InterruptedBumpIsSeen(w: World, p: nat, mid: seq<Step>, steps: seq<Step>, bumped: nat, cfg: Config)
    requires bumped < |w.history| && NoOldFlight(w, bumped) && BumpRun(w, p, mid, steps, cfg)
    ensures SeesBump(w, p, mid, steps, bumped, cfg)
  {
    var deleted, dropped := Apply(w, DeleteShared, cfg), Dropped(w, p, mid, cfg);
    assert FreshBehindL1(deleted, bumped, |w.answers|);
    RunKeepsFreshBehindL1(deleted, mid, bumped, |w.answers|, cfg);
    StepKeepsFreshBehindL1(After(deleted, mid, cfg), DropL1(p), bumped, |w.answers|, cfg);
    RunKeepsFreshBehindL1(dropped, steps, bumped, |w.answers|, cfg);
    RunKeepsFreshInL1(dropped, steps, p, bumped, |w.answers|, |dropped.answers|, cfg);
  }

  /** The whole bump without interruption. */
  ghost function Bump(w: World, p: nat, cfg: Config): World {
    Apply(Apply(Apply(w, IncrementVersion, cfg), DeleteShared, cfg), DropL1(p), cfg)
  }

  /** The uninterrupted case: if no evaluation in flight holds an old snapshot when the bump runs, then every later
      answer of the bumping process, and every later answer of any process that missed L1, rests on the state at the
      bump or a later one. */
  lemma BumpIsSeenByLaterEvaluations(w: World, p: nat, steps: seq<Step>, cfg: Config)
    requires |w.history| >= 1 && NoOldFlight(w, |w.history| - 1)
    requires PrimaryRunFrom(Bump(w, p, cfg), steps, cfg)
    ensures FreshAnswers(After(Bump(w, p, cfg), steps, cfg), p, |w.history| - 1, |w.answers|, |w.answers|)
  {
    var counted := Apply(w, IncrementVersion, cfg);
    assert Dropped(counted, p, [], cfg) == Bump(w, p, cfg);
    InterruptedBumpIsSeen(counted, p, [], steps, |w.history| - 1, cfg);
  }

  ghost function Bumps(steps: seq<Step>): nat {
    if steps == [] then 0 else (if steps[0].IncrementVersion? then 1 else 0) + Bumps(steps[1..])
  }

  /** The version counts the bumps exactly, so it strictly increases on every one and never otherwise. */
  lemma {:induction false} VersionCountsBumps(w: World, steps: seq<Step>, cfg: Config)
    requires ValidRun(w, steps, cfg)
    ensures LogicalVersion(After(w, steps, cfg).version) == LogicalVersion(w.version) + Bumps(steps)
    decreases |steps|
  {
    if steps == [] {
    } else {
      VersionCountsBumps(Apply(w, steps[0], cfg), steps[1..], cfg);
    }
  }

  /* ---------- why the bump theorem needs its hypothesis ---------- */

  lemma {:induction false} RunConcat(w: World, a: seq<Step>, b: seq<Step>, cfg: Config)
    requires ValidRun(w, a, cfg) && ValidRun(After(w, a, cfg), b, cfg)
    requires PrimaryRun(w, a, cfg) && PrimaryRun(After(w, a, cfg), b, cfg)
    ensures ValidRun(w, a + b, cfg) && After(w, a + b, cfg) == After(After(w, a, cfg), b, cfg)
    ensures PrimaryRun(w, a + b, cfg)
    decreases |a|
  {
    if a == [] {
      assert a + b == b;
    } else {
      assert (a + b)[1..] == a[1..] + b;
      RunConcat(Apply(w, a[0], cfg), a[1..], b, cfg);
    }
  }

  lemma OneStep(w: World, step: Step, cfg: Config)
    requires Enabled(w, step, cfg) && ReadsPrimary(w, step)
    ensures ValidRun(w, [step], cfg) && PrimaryRun(w, [step], cfg) && After(w, [step], cfg) == Apply(w, step, cfg)
  {
    assert [step][1..] == [];
  }

  lemma Extend(w: World, steps: seq<Step>, step: Step, cfg: Config)
    requires ValidRun(w, steps, cfg) && PrimaryRun(w, steps, cfg)
    requires Enabled(After(w, steps, cfg), step, cfg) && ReadsPrimary(After(w, steps, cfg), step)
    ensures ValidRun(w, steps + [step], cfg) && PrimaryRun(w, steps + [step], cfg)
    ensures After(w, steps + [step], cfg) == Apply(After(w, steps, cfg), step, cfg)
  {
    OneStep(After(w, steps, cfg), step, cfg);
    RunConcat(w, steps, [step], cfg);
  }

  /** The first process to miss has taken the lock and read the database, but not yet stored. */
  function MidBuild(now: Instant, db: OrgState): World {
    var snap := Snap(BuildSnapshot(db, now), 0, now, 0);
    Start(now, db).(lockUntil := Some(now + BUILD_LOCK_TTL), flights := map[0 := Flight(0, Built(snap, true))])
  }

  lemma ReachMidBuild(now: Instant, db: OrgState, cfg: Config) returns (steps: seq<Step>)
    ensures ValidRun(Start(now, db), steps, cfg) && PrimaryRun(Start(now, db), steps, cfg)
    ensures After(Start(now, db), steps, cfg) == MidBuild(now, db)
  {
    var w0 := Start(now, db);
    steps := [];
    Extend(w0, steps, Begin(0, 0), cfg);   steps := steps + [Begin(0, 0)];
    Extend(w0, steps, Get(0), cfg);        steps := steps + [Get(0)];
    Extend(w0, steps, TryLock(0), cfg);    steps := steps + [TryLock(0)];
    Extend(w0, steps, LookAgain(0), cfg);  steps := steps + [LookAgain(0)];
    Extend(w0, steps, Read(0, 0), cfg);    steps := steps + [Read(0, 0)];
    var w := After(w0, steps, cfg);
    assert w.flights == MidBuild(now, db).flights;
    assert w.l1 == map[];
  }

  /** A build that read the database before a write and stores after the bump for that write leaves a shared snapshot
      of the old state under the new version: the version does not identify a database state, and only the time
      bound limits how long the old state is served. */
  lemma BumpCanBeOvertaken(now: Instant, db0: OrgState, db1: OrgState, cfg: Config) returns (steps: seq<Step>)
    ensures ValidRun(Start(now, db0), steps, cfg) && PrimaryRun(Start(now, db0), steps, cfg)
    ensures
      var w := After(Start(now, db0), steps, cfg);
      && |w.history| == 2 && w.history[1].db == db1
      && w.version == Some(2)
      && w.shared.Some? && w.shared.value.snap.version == 2 && w.shared.value.snap.source == 0
  {
    var mid := MidBuild(now, db0);
    var head := ReachMidBuild(now, db0, cfg);
    var tail: seq<Step> := [];
    Extend(mid, tail, Write(db1), cfg);        tail := tail + [Write(db1)];
    Extend(mid, tail, IncrementVersion, cfg);  tail := tail + [IncrementVersion];
    Extend(mid, tail, DeleteShared, cfg);      tail := tail + [DeleteShared];
    Extend(mid, tail, DropL1(0), cfg);         tail := tail + [DropL1(0)];
    Extend(mid, tail, Stamp(0), cfg);          tail := tail + [Stamp(0)];
    Extend(mid, tail, Store(0), cfg);          tail := tail + [Store(0)];
    RunConcat(Start(now, db0), head, tail, cfg);
    steps := head + tail;
  }

  /* ---------- exactly when a bump is seen ---------- */

  /** How far an evaluation that holds a snapshot is from its answer. */
  function StepsLeft(phase: Phase): nat {
    match phase
    case Built(_, _) => 4
    case Stamped(_, _) => 3
    case Unlocking(_, _) => 2
    case _ => 1
  }

  function NextStep(f: nat, phase: Phase): Step {
    match phase
    case Built(_, _) => Stamp(f)
    case Stamped(_, _) => Store(f)
    case Unlocking(_, _) => Unlock(f)
    case _ => Respond(f, [])
  }

  ghost predicate HoldsSnapshot(w: World, f: nat, source: nat) {
    && f in w.flights
    && var phase := w.flights[f].phase;
       (phase.Built? || phase.Stamped? || phase.Unlocking? || phase.Ready?) && phase.snap.source == source
  }

  /** An evaluation that holds a snapshot can always go on to answer from it. */
  lemma {:induction false} FlightAnswers(w: World, f: nat, source: nat, cfg: Config) returns (steps: seq<Step>)
    requires HoldsSnapshot(w, f, source)
    ensures ValidRun(w, steps, cfg) && PrimaryRun(w, steps, cfg)
    ensures
      var w' := After(w, steps, cfg);
      && |w'.answers| == |w.answers| + 1
      && !w'.answers[|w.answers|].fromL1
      && w'.answers[|w.answers|].snap.source == source
    decreases StepsLeft(w.flights[f].phase)
  {
    var step := NextStep(f, w.flights[f].phase);
    var w' := Apply(w, step, cfg);
    OneStep(w, step, cfg);
    if w.flights[f].phase.Ready? {
      steps := [step];
    } else {
      var rest := FlightAnswers(w', f, source, cfg);
      RunConcat(w, [step], rest, cfg);
      steps := [step] + rest;
    }
  }

  /** With `w` the world at the DELETE of a bump: the bump is seen in every run, whatever happens between the DELETE and
      the L1 drop and after it, exactly when no evaluation in flight at the DELETE holds a snapshot older than `bumped`.
      Such an evaluation can always answer from it, and nothing else can. */
  lemma InterruptedBumpIsSeenIffNoOldFlight(w: World, p: nat, bumped: nat, cfg: Config)
    requires bumped < |w.history|
    ensures
      (forall mid, steps :: BumpRun(w, p, mid, steps, cfg) ==> SeesBump(w, p, mid, steps, bumped, cfg))
      <==> NoOldFlight(w, bumped)
  {
    if NoOldFlight(w, bumped) {
      forall mid, steps | BumpRun(w, p, mid, steps, cfg)
        ensures SeesBump(w, p, mid, steps, bumped, cfg)
      {
        InterruptedBumpIsSeen(w, p, mid, steps, bumped, cfg);
      }
    } else {
      var f :| f in w.flights && !PhaseAfter(w.flights[f].phase, bumped);
      var dropped := Dropped(w, p, [], cfg);
      var steps := FlightAnswers(dropped, f, w.flights[f].phase.snap.source, cfg);
      assert BumpRun(w, p, [], steps, cfg);
      assert !SeesBump(w, p, [], steps, bumped, cfg);
    }
  }

  /** The uninterrupted case: a bump is seen by every continuation exactly when no evaluation in flight holds a snapshot
      older than the state at the bump. */
  lemma BumpIsSeenIffNoOldFlight(w: World, p: nat, cfg: Config)
    requires |w.history| >= 1
    ensures
      var bumped := Bump(w, p, cfg);
      (forall steps :: PrimaryRunFrom(bumped, steps, cfg) ==>
         FreshAnswers(After(bumped, steps, cfg), p, |w.history| - 1, |w.answers|, |w.answers|))
      <==> NoOldFlight(w, |w.history| - 1)
  {
    var bumped := Bump(w, p, cfg);
    if NoOldFlight(w, |w.history| - 1) {
      forall steps | PrimaryRunFrom(bumped, steps, cfg)
        ensures FreshAnswers(After(bumped, steps, cfg), p, |w.history| - 1, |w.answers|, |w.answers|)
      {
        BumpIsSeenByLaterEvaluations(w, p, steps, cfg);
      }
    } else {
      var f :| f in w.flights && !PhaseAfter(w.flights[f].phase, |w.history| - 1);
      var steps := FlightAnswers(bumped, f, w.flights[f].phase.snap.source, cfg);
      assert PrimaryRunFrom(bumped, steps, cfg);
      assert !FreshAnswers(After(bumped, steps, cfg), p, |w.history| - 1, |w.answers|, |w.answers|);
    }
  }

  /* ---------- a bump from its INCR on ---------- */

  /** The whole of a bump that starts at `w`: after its INCR others do `pre`, then comes the DELETE. */
  ghost predicate WholeBumpRun(w: World, p: nat, pre: seq<Step>, mid: seq<Step>, steps: seq<Step>, cfg: Config) {
    && PrimaryRunFrom(Apply(w, IncrementVersion, cfg), pre, cfg)
    && BumpRun(AtDelete(w, pre, cfg), p, mid, steps, cfg)
  }

  ghost function AtDelete(w: World, pre: seq<Step>, cfg: Config): World
    requires ValidRun(Apply(w, IncrementVersion, cfg), pre, cfg)
  {
    After(Apply(w, IncrementVersion, cfg), pre, cfg)
  }

  ghost predicate SeesWholeBump(w: World, p: nat, pre: seq<Step>, mid: seq<Step>, steps: seq<Step>, cfg: Config)
    requires |w.history| >= 1 && WholeBumpRun(w, p, pre, mid, steps, cfg)
  {
    SeesBump(AtDelete(w, pre, cfg), p, mid, steps, |w.history| - 1, cfg)
  }

  /** A number above every member of a finite set. */
  lemma {:induction false} FreshNumber(s: set<nat>) returns (n: nat)
    ensures forall k :: k in s ==> k < n
    decreases |s|
  {
    if s == {} {
      n := 0;
    } else {
      var k :| k in s;
      var rest := FreshNumber(s - {k});
      n := if rest <= k then k + 1 else rest;
      assert forall x :: x in s ==> x == k || x in s - {k};
    }
  }

  /** An evaluation that looks into Redis between the INCR and the DELETE slips through: it picks up an old snapshot
      that is still live there and answers from it after the bump, although nothing was in flight when the bump
      started. */
  lemma EvaluationCanSlipThrough(w: World, p: nat, cfg: Config) returns (pre: seq<Step>, steps: seq<Step>)
    requires |w.history| >= 1 && ServesOld(w, |w.history| - 1)
    ensures WholeBumpRun(w, p, pre, [], steps, cfg) && !SeesWholeBump(w, p, pre, [], steps, cfg)
  {
    var f := FreshNumber(w.flights.Keys);
    var q := FreshNumber(w.l1.Keys);
    var counted := Apply(w, IncrementVersion, cfg);
    pre := [Begin(f, q)];
    OneStep(counted, Begin(f, q), cfg);
    Extend(counted, pre, Get(f), cfg);
    pre := pre + [Get(f)];
    var at := AtDelete(w, pre, cfg);
    assert HoldsSnapshot(at, f, w.shared.value.snap.source);
    steps := FlightAnswers(Dropped(at, p, [], cfg), f, w.shared.value.snap.source, cfg);
    assert BumpRun(at, p, [], steps, cfg);
  }

  /** Such a state is reached whenever Redis keeps snapshots at all: an evaluation fills it, nothing is left in
      flight, and the database changes. */
  lemma OldSnapshotIsServed(now: Instant, db0: OrgState, db1: OrgState, cfg: Config) returns (steps: seq<Step>)
    requires cfg.sharedTtl > 0
    ensures PrimaryRunFrom(Start(now, db0), steps, cfg)
    ensures
      var w := After(Start(now, db0), steps, cfg);
      |w.history| == 2 && w.history[1].db == db1 && w.flights == map[] && ServesOld(w, 1)
  {
    var mid := MidBuild(now, db0);
    var head := ReachMidBuild(now, db0, cfg);
    var tail: seq<Step> := [];
    Extend(mid, tail, Stamp(0), cfg);        tail := tail + [Stamp(0)];
    Extend(mid, tail, Store(0), cfg);        tail := tail + [Store(0)];
    Extend(mid, tail, Unlock(0), cfg);       tail := tail + [Unlock(0)];
    Extend(mid, tail, Respond(0, []), cfg);  tail := tail + [Respond(0, [])];
    Extend(mid, tail, Write(db1), cfg);      tail := tail + [Write(db1)];
    RunConcat(Start(now, db0), head, tail, cfg);
    steps := head + tail;
  }

  /** Exactly when a bump that starts at `w` is seen in every run, wherever it is interrupted: no evaluation in flight
      holds an old snapshot, and Redis serves none. */
  lemma WholeBumpIsSeenIffNothingOld(w: World, p: nat, cfg: Config)
    requires |w.history| >= 1
    ensures
      (forall pre, mid, steps :: WholeBumpRun(w, p, pre, mid, steps, cfg) ==>
         SeesWholeBump(w, p, pre, mid, steps, cfg))
      <==> NoOldFlight(w, |w.history| - 1) && !ServesOld(w, |w.history| - 1)
  {
    var bumped, counted := |w.history| - 1, Apply(w, IncrementVersion, cfg);
    if ServesOld(w, bumped) {
      var pre, steps := EvaluationCanSlipThrough(w, p, cfg);
    } else if NoOldFlight(w, bumped) {
      forall pre, mid, steps | WholeBumpRun(w, p, pre, mid, steps, cfg)
        ensures SeesWholeBump(w, p, pre, mid, steps, cfg)
      {
        RunKeepsFreshBehindL1(counted, pre, bumped, |w.answers|, cfg);
        InterruptedBumpIsSeen(AtDelete(w, pre, cfg), p, mid, steps, bumped, cfg);
      }
    } else {
      var f :| f in w.flights && !PhaseAfter(w.flights[f].phase, bumped);
      assert AtDelete(w, [], cfg) == counted;
      var steps := FlightAnswers(Dropped(counted, p, [], cfg), f, w.flights[f].phase.snap.source, cfg);
      assert BumpRun(counted, p, [], steps, cfg);
      assert WholeBumpRun(w, p, [], [], steps, cfg) && !SeesWholeBump(w, p, [], [], steps, cfg);
    }
  }
}
