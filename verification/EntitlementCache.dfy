/**
 Entitlement evaluation of one organization behind two caches: a map in every process (L1) and a shared Redis
 snapshot with a build lock and a version key.  Every Redis or database call of every process is one step, so
 evaluations, database writes, expiries and version bumps interleave freely.

 All keys of the original embed the organization id, so organizations do not interact.
 */
module EntitlementCache {
  import opened Wrappers
  import opened Subscriptions
  import opened Entitlements

  const LOCK_WAIT_ATTEMPTS: nat := 50
  const SECOND: int := 1_000_000
  const BUILD_LOCK_TTL: int := 5 * SECOND

  /** `l1Ttl` may be zero or negative, which switches the process cache off. */
  datatype Config = Config(l1Ttl: int, sharedTtl: nat, replicaLag: nat)

  /** A built snapshot with its provenance: the database state it was read from, and when. */
  datatype Snap = Snap(value: Snapshot, version: nat, readAt: Instant, source: nat)

  datatype Cached = Cached(snap: Snap, expiresAt: Instant)

  /** A database state and the moment it was committed. */
  datatype Commit = Commit(at: Instant, db: OrgState)

  /** Where an evaluation that missed L1 has got to. */
  datatype Phase =
    | Looking                                  // about to GET the snapshot
    | Missed                                   // about to try the build lock
    | Locked                                   // holds the lock, about to look again
    | Waiting(left: nat)                       // another process builds, about to look again
    | Building(locked: bool)                   // about to read the database
    | Built(snap: Snap, locked: bool)          // about to read the version
    | Stamped(snap: Snap, locked: bool)        // about to store, if it holds the lock
    | Unlocking(snap: Snap, gotAt: Instant)    // about to delete the lock
    | Ready(snap: Snap, gotAt: Instant)        // about to fill L1 and answer

  datatype Flight = Flight(process: nat, phase: Phase)

  datatype Answer = Answer(
    process: nat,
    at: Instant,
    fromL1: bool,
    snap: Snap,
    checks: seq<Check>,
    results: seq<CheckResult>)

  datatype World = World(
    now: Instant,
    history: seq<Commit>,
    version: Option<nat>,
    lockUntil: Option<Instant>,
    shared: Option<Cached>,
    l1: map<nat, Cached>,
    flights: map<nat, Flight>,
    answers: seq<Answer>,
    buildDelay: nat,      // the longest observed time from a database read to the Redis store
    fillDelay: nat)       // the longest observed time from obtaining a snapshot to the L1 store and answer

  datatype Step =
    | Tick(dt: nat)
    | Write(db: OrgState)
    | AnswerFromL1(process: nat, checks: seq<Check>)
    | Begin(flight: nat, process: nat)
    | Get(flight: nat)
    | TryLock(flight: nat)
    | LookAgain(flight: nat)
    | Read(flight: nat, source: nat)
    | Stamp(flight: nat)
    | Store(flight: nat)
    | Unlock(flight: nat)
    | Respond(flight: nat, checks: seq<Check>)
    | Abort(flight: nat, unlock: bool)
    | IncrementVersion      // INCR; the SETNX before it does not change the logical version
    | DeleteShared
    | DropL1(process: nat)

  predicate Live(c: Option<Cached>, now: Instant) {
    c.Some? && now < c.value.expiresAt
  }

  function L1Entry(w: World, p: nat): Option<Cached> {
    if p in w.l1 then Some(w.l1[p]) else None
  }

  function LogicalVersion(v: Option<nat>): nat {
    if v.None? then 1 else v.value
  }

  function Max(a: nat, b: int): (m: nat)
    ensures m >= a && m >= b
  {
    if b > a then b else a
  }

  /** State `source` was current at some moment of the replica's permitted past [at - lag, at]. */
  ghost predicate Held(history: seq<Commit>, source: nat, at: Instant, lag: nat) {
    && source < |history|
    && history[source].at <= at
    && (source + 1 < |history| ==> at - lag <= history[source + 1].at)
  }

  ghost predicate Enabled(w: World, step: Step, cfg: Config) {
    match step
    case Tick(_) => true
    case Write(_) => true
    case AnswerFromL1(p, _) => Live(L1Entry(w, p), w.now)
    case Begin(f, p) => f !in w.flights && !Live(L1Entry(w, p), w.now)
    case Get(f) => f in w.flights && w.flights[f].phase.Looking?
    case TryLock(f) => f in w.flights && w.flights[f].phase.Missed?
    case LookAgain(f) => f in w.flights && (w.flights[f].phase.Locked? || w.flights[f].phase.Waiting?)
    case Read(f, source) =>
      f in w.flights && w.flights[f].phase.Building? && Held(w.history, source, w.now, cfg.replicaLag)
    case Stamp(f) => f in w.flights && w.flights[f].phase.Built?
    case Store(f) => f in w.flights && w.flights[f].phase.Stamped?
    case Unlock(f) => f in w.flights && w.flights[f].phase.Unlocking?
    case Respond(f, _) => f in w.flights && w.flights[f].phase.Ready?
    case Abort(f, _) => f in w.flights
    case IncrementVersion => true
    case DeleteShared => true
    case DropL1(_) => true
  }

  function Move(w: World, f: nat, phase: Phase): World
    requires f in w.flights
  {
    w.(flights := w.flights[f := w.flights[f].(phase := phase)])
  }

  function LookAgainPhase(w: World, phase: Phase): Phase
    requires phase.Locked? || phase.Waiting?
  {
    if Live(w.shared, w.now) then
      if phase.Locked? then Unlocking(w.shared.value.snap, w.now) else Ready(w.shared.value.snap, w.now)
    else if phase.Locked? then Building(true)
    else if phase.left > 1 then Waiting(phase.left - 1)
    else Building(false)
  }

  function FillL1(l1: map<nat, Cached>, p: nat, snap: Snap, now: Instant, cfg: Config): map<nat, Cached> {
    if cfg.l1Ttl <= 0 then l1 else l1[p := Cached(snap, now + cfg.l1Ttl)]
  }

  ghost function Apply(w: World, step: Step, cfg: Config): World
    requires Enabled(w, step, cfg)
  {
    match step
    case Tick(dt) => w.(now := w.now + dt)
    case Write(db) => w.(history := w.history + [Commit(w.now, db)])
    case AnswerFromL1(p, checks) =>
      var snap := w.l1[p].snap;
      w.(answers := w.answers + [Answer(p, w.now, true, snap, checks, EvaluateChecks(snap.value, checks))])
    case Begin(f, p) => w.(flights := w.flights[f := Flight(p, Looking)], l1 := w.l1 - {p})
    case Get(f) =>
      if Live(w.shared, w.now) then Move(w, f, Ready(w.shared.value.snap, w.now)) else Move(w, f, Missed)
    case TryLock(f) =>
      if w.lockUntil.Some? && w.now < w.lockUntil.value then Move(w, f, Waiting(LOCK_WAIT_ATTEMPTS))
      else Move(w, f, Locked).(lockUntil := Some(w.now + BUILD_LOCK_TTL))
    case LookAgain(f) => Move(w, f, LookAgainPhase(w, w.flights[f].phase))
    case Read(f, source) =>
      var snap := Snap(BuildSnapshot(w.history[source].db, w.now), 0, w.now, source);
      Move(w, f, Built(snap, w.flights[f].phase.locked))
    case Stamp(f) =>
      var phase := w.flights[f].phase;
      Move(w, f, Stamped(phase.snap.(version := LogicalVersion(w.version)), phase.locked))
    case Store(f) =>
      var phase := w.flights[f].phase;
      if phase.locked then
        Move(w, f, Unlocking(phase.snap, phase.snap.readAt))
          .(shared := Some(Cached(phase.snap, w.now + cfg.sharedTtl)),
            buildDelay := Max(w.buildDelay, w.now - phase.snap.readAt))
      else
        Move(w, f, Ready(phase.snap, phase.snap.readAt))
    case Unlock(f) =>
      var phase := w.flights[f].phase;
      Move(w, f, Ready(phase.snap, phase.gotAt)).(lockUntil := None)
    case Respond(f, checks) =>
      var p, phase := w.flights[f].process, w.flights[f].phase;
      w.(flights := w.flights - {f},
         l1 := FillL1(w.l1, p, phase.snap, w.now, cfg),
         answers := w.answers
           + [Answer(p, w.now, false, phase.snap, checks, EvaluateChecks(phase.snap.value, checks))],
         fillDelay := Max(w.fillDelay, w.now - phase.gotAt))
    case Abort(f, unlock) =>
      w.(flights := w.flights - {f}, lockUntil := if unlock then None else w.lockUntil)
    case IncrementVersion => w.(version := Some(LogicalVersion(w.version) + 1))
    case DeleteShared => w.(shared := None)
    case DropL1(p) => w.(l1 := w.l1 - {p})
  }

  ghost predicate ValidRun(w: World, steps: seq<Step>, cfg: Config)
    decreases |steps|
  {
    steps == [] || (Enabled(w, steps[0], cfg) && ValidRun(Apply(w, steps[0], cfg), steps[1..], cfg))
  }

  ghost function After(w: World, steps: seq<Step>, cfg: Config): World
    requires ValidRun(w, steps, cfg)
    decreases |steps|
  {
    if steps == [] then w else After(Apply(w, steps[0], cfg), steps[1..], cfg)
  }

  /** Nothing cached and nothing in flight; the database holds `db`. */
  function Start(now: Instant, db: OrgState): World {
    World(now, [Commit(now, db)], None, None, None, map[], map[], [], 0, 0)
  }

  /* ---------- bounded staleness ---------- */

  /** The snapshot is what the database held, at most the replica lag before it was read. */
  ghost predicate Genuine(history: seq<Commit>, snap: Snap, cfg: Config) {
    && Held(history, snap.source, snap.readAt, cfg.replicaLag)
    && snap.value == BuildSnapshot(history[snap.source].db, snap.readAt)
  }

  ghost predicate SnapOk(w: World, snap: Snap, cfg: Config) {
    snap.readAt <= w.now && Genuine(w.history, snap, cfg)
  }

  ghost predicate PhaseOk(w: World, phase: Phase, cfg: Config) {
    match phase
    case Built(snap, _) => SnapOk(w, snap, cfg)
    case Stamped(snap, _) => SnapOk(w, snap, cfg)
    case Unlocking(snap, gotAt) =>
      SnapOk(w, snap, cfg) && gotAt <= w.now && gotAt - snap.readAt <= cfg.sharedTtl + w.buildDelay
    case Ready(snap, gotAt) =>
      SnapOk(w, snap, cfg) && gotAt <= w.now && gotAt - snap.readAt <= cfg.sharedTtl + w.buildDelay
    case _ => true
  }

  ghost predicate SharedOk(w: World, cfg: Config) {
    w.shared.Some? ==>
      && SnapOk(w, w.shared.value.snap, cfg)
      && w.shared.value.expiresAt - w.shared.value.snap.readAt <= cfg.sharedTtl + w.buildDelay
  }

  ghost function Bound(w: World, cfg: Config): int {
    (if cfg.l1Ttl > 0 then cfg.l1Ttl else 0) + cfg.sharedTtl + w.buildDelay + w.fillDelay
  }

  ghost predicate L1Ok(w: World, c: Cached, cfg: Config) {
    SnapOk(w, c.snap, cfg) && c.expiresAt - c.snap.readAt <= Bound(w, cfg)
  }

  /** The answer is the evaluation of a snapshot the database held, read no longer ago than the bound. */
  ghost predicate AnswerOk(w: World, a: Answer, cfg: Config) {
    && Genuine(w.history, a.snap, cfg)
    && a.results == EvaluateChecks(BuildSnapshot(w.history[a.snap.source].db, a.snap.readAt), a.checks)
    && a.snap.readAt <= a.at <= w.now
    && a.at - a.snap.readAt <= Bound(w, cfg)
  }

  ghost predicate HistoryOk(w: World) {
    && |w.history| >= 1
    && (forall i :: 0 <= i < |w.history| ==> w.history[i].at <= w.now)
  }

  ghost predicate Inv(w: World, cfg: Config) {
    && HistoryOk(w)
    && SharedOk(w, cfg)
    && (forall p :: p in w.l1 ==> L1Ok(w, w.l1[p], cfg))
    && (forall f :: f in w.flights ==> PhaseOk(w, w.flights[f].phase, cfg))
    && (forall i :: 0 <= i < |w.answers| ==> AnswerOk(w, w.answers[i], cfg))
  }

  /** Later worlds: time, history and the observed delays only grow. */
  ghost predicate Grows(w: World, w': World) {
    && w.now <= w'.now && w.buildDelay <= w'.buildDelay && w.fillDelay <= w'.fillDelay
    && |w.history| <= |w'.history| && w'.history[..|w.history|] == w.history
    && (forall i :: |w.history| <= i < |w'.history| ==> w.now <= w'.history[i].at)
  }

  lemma StepGrows(w: World, step: Step, cfg: Config)
    requires Enabled(w, step, cfg)
    ensures Grows(w, Apply(w, step, cfg))
  {
  }

  lemma GenuineGrows(w: World, w': World, snap: Snap, cfg: Config)
    requires Grows(w, w') && Genuine(w.history, snap, cfg) && snap.readAt <= w.now
    ensures Genuine(w'.history, snap, cfg) && w'.history[snap.source] == w.history[snap.source]
  {
    assert w.history[snap.source] == w'.history[..|w.history|][snap.source];
    if snap.source + 1 < |w.history| {
      assert w.history[snap.source + 1] == w'.history[..|w.history|][snap.source + 1];
    }
  }

  lemma PhaseOkGrows(w: World, w': World, phase: Phase, cfg: Config)
    requires Grows(w, w') && PhaseOk(w, phase, cfg)
    ensures PhaseOk(w', phase, cfg)
  {
    if phase.Built? || phase.Stamped? || phase.Unlocking? || phase.Ready? {
      GenuineGrows(w, w', phase.snap, cfg);
    }
  }

  lemma AnswerOkGrows(w: World, w': World, a: Answer, cfg: Config)
    requires Grows(w, w') && AnswerOk(w, a, cfg)
    ensures AnswerOk(w', a, cfg)
  {
    GenuineGrows(w, w', a.snap, cfg);
  }

  lemma StepKeepsShared(w: World, step: Step, cfg: Config)
    requires Inv(w, cfg) && Enabled(w, step, cfg)
    ensures SharedOk(Apply(w, step, cfg), cfg)
  {
    var w' := Apply(w, step, cfg);
    StepGrows(w, step, cfg);
    if step.Store? && w.flights[step.flight].phase.locked {
      var phase := w.flights[step.flight].phase;
      assert PhaseOk(w, phase, cfg);
      GenuineGrows(w, w', phase.snap, cfg);
    } else if w'.shared.Some? {
      assert w'.shared == w.shared;
      GenuineGrows(w, w', w.shared.value.snap, cfg);
    }
  }

  lemma StepKeepsL1(w: World, step: Step, p: nat, cfg: Config)
    requires Inv(w, cfg) && Enabled(w, step, cfg) && p in Apply(w, step, cfg).l1
    ensures L1Ok(Apply(w, step, cfg), Apply(w, step, cfg).l1[p], cfg)
  {
    var w' := Apply(w, step, cfg);
    StepGrows(w, step, cfg);
    if p in w.l1 && w'.l1[p] == w.l1[p] {
      assert L1Ok(w, w.l1[p], cfg);
      GenuineGrows(w, w', w.l1[p].snap, cfg);
    } else {
      assert step.Respond?;
      assert PhaseOk(w, w.flights[step.flight].phase, cfg);
      GenuineGrows(w, w', w.flights[step.flight].phase.snap, cfg);
    }
  }

  lemma StepKeepsFlight(w: World, step: Step, f: nat, cfg: Config)
    requires Inv(w, cfg) && Enabled(w, step, cfg) && f in Apply(w, step, cfg).flights
    ensures PhaseOk(Apply(w, step, cfg), Apply(w, step, cfg).flights[f].phase, cfg)
  {
    var w' := Apply(w, step, cfg);
    StepGrows(w, step, cfg);
    if f in w.flights {
      assert PhaseOk(w, w.flights[f].phase, cfg);
      PhaseOkGrows(w, w', w.flights[f].phase, cfg);
    }
    if w.shared.Some? {
      GenuineGrows(w, w', w.shared.value.snap, cfg);
    }
  }

  lemma StepKeepsAnswers(w: World, step: Step, i: nat, cfg: Config)
    requires Inv(w, cfg) && Enabled(w, step, cfg) && i < |Apply(w, step, cfg).answers|
    ensures AnswerOk(Apply(w, step, cfg), Apply(w, step, cfg).answers[i], cfg)
  {
    var w' := Apply(w, step, cfg);
    StepGrows(w, step, cfg);
    if i < |w.answers| {
      assert AnswerOk(w, w.answers[i], cfg);
      AnswerOkGrows(w, w', w.answers[i], cfg);
    } else if step.AnswerFromL1? {
      assert L1Ok(w, w.l1[step.process], cfg);
    } else {
      assert PhaseOk(w, w.flights[step.flight].phase, cfg);
    }
  }

  lemma StepPreservesInv(w: World, step: Step, cfg: Config)
    requires Inv(w, cfg) && Enabled(w, step, cfg)
    ensures Inv(Apply(w, step, cfg), cfg)
  {
    var w' := Apply(w, step, cfg);
    StepKeepsShared(w, step, cfg);
    forall p | p in w'.l1
      ensures L1Ok(w', w'.l1[p], cfg)
    {
      StepKeepsL1(w, step, p, cfg);
    }
    forall f | f in w'.flights
      ensures PhaseOk(w', w'.flights[f].phase, cfg)
    {
      StepKeepsFlight(w, step, f, cfg);
    }
    forall i | 0 <= i < |w'.answers|
      ensures AnswerOk(w', w'.answers[i], cfg)
    {
      StepKeepsAnswers(w, step, i, cfg);
    }
  }

  lemma {:induction false} RunPreservesInv(w: World, steps: seq<Step>, cfg: Config)
    requires Inv(w, cfg) && ValidRun(w, steps, cfg)
    ensures Inv(After(w, steps, cfg), cfg)
    decreases |steps|
  {
    if steps == [] {
    } else {
      StepPreservesInv(w, steps[0], cfg);
      RunPreservesInv(Apply(w, steps[0], cfg), steps[1..], cfg);
    }
  }

  /** In every interleaving, every answer given is right for a state the database held when it was read, and was given
      at most L1 TTL + Redis TTL + the longest store delays after that. */
  lemma EveryAnswerIsBoundedlyStale(now: Instant, db: OrgState, steps: seq<Step>, cfg: Config)
    requires ValidRun(Start(now, db), steps, cfg)
    ensures
      var w := After(Start(now, db), steps, cfg);
      forall i :: 0 <= i < |w.answers| ==>
        var a := w.answers[i];
        && AnswerOk(w, a, cfg)
        && AreAnswers(w.history[a.snap.source].db, a.snap.readAt, a.checks, a.results)
  {
    RunPreservesInv(Start(now, db), steps, cfg);
    var w := After(Start(now, db), steps, cfg);
    forall i | 0 <= i < |w.answers|
      ensures
        var a := w.answers[i];
        AnswerOk(w, a, cfg) && AreAnswers(w.history[a.snap.source].db, a.snap.readAt, a.checks, a.results)
    {
      var a := w.answers[i];
      assert AnswerOk(w, a, cfg);
      BuiltResultsAreExact(w.history[a.snap.source].db, a.snap.readAt, a.checks);
    }
  }
}
