/**
 Many processes authenticating the same API keys: each looks in its own cache, and on a miss reads the key from a
 database or a bounded-lag replica and caches the context.  Revocations commit at any time.
 */
module AuthRevocation {
  import opened Wrappers
  import opened Subscriptions
  import opened HotpathCache

  datatype Config = Config(ttl: int, replicaLag: nat)

  /** A database read that found the key valid and has not been cached yet. */
  datatype Flight = Flight(process: nat, digest: string, ctx: AuthContext, readAt: Instant)

  datatype Acceptance = Acceptance(process: nat, apiKey: nat, at: Instant)

  datatype World = World(
    now: Instant,
    revokedAt: map<nat, Instant>,
    caches: map<nat, Index<string, AuthContext>>,
    flights: map<nat, Flight>,
    accepted: seq<Acceptance>,
    delay: nat)      // the longest observed time from the database read to the cache store

  datatype Step =
    | Tick(dt: nat)
    | Revoke(apiKey: nat)
    | Forget(process: nat, apiKey: nat)
    | Hit(process: nat, digest: string)
    | Expired(process: nat, digest: string)
    | ReadKey(flight: nat, process: nat, digest: string, ctx: AuthContext)
    | Finish(flight: nat)
    | Abort(flight: nat)

  function CacheOf(w: World, p: nat): Index<string, AuthContext> {
    if p in w.caches then w.caches[p] else Index(map[], map[])
  }

  /** The key's own expiry has not come. */
  predicate Unexpired(ctx: AuthContext, now: Instant) {
    ctx.expiresAt.None? || now < ctx.expiresAt.value
  }

  /** A read finishes, and a cached context is served, only for a key that has not itself expired: otherwise the read is
      an `Abort`, and the context is dropped by a `Forget`. */
  ghost predicate Enabled(w: World, step: Step, cfg: Config) {
    match step
    case Tick(_) => true
    case Revoke(k) => k !in w.revokedAt
    case Forget(_, _) => true
    case Hit(p, d) =>
      && d in CacheOf(w, p).entries && w.now < CacheOf(w, p).entries[d].expiresAt
      && Unexpired(CacheOf(w, p).entries[d].value, w.now)
    case Expired(p, d) => d in CacheOf(w, p).entries && w.now >= CacheOf(w, p).entries[d].expiresAt
    case ReadKey(f, _, _, ctx) =>
      f !in w.flights && (ctx.apiKey in w.revokedAt ==> w.now - cfg.replicaLag <= w.revokedAt[ctx.apiKey])
    case Finish(f) => f in w.flights && Unexpired(w.flights[f].ctx, w.now)
    case Abort(f) => f in w.flights
  }

  ghost function Apply(w: World, step: Step, cfg: Config): World
    requires Enabled(w, step, cfg)
  {
    match step
    case Tick(dt) => w.(now := w.now + dt)
    case Revoke(k) => w.(revokedAt := w.revokedAt[k := w.now])
    case Forget(p, k) => w.(caches := w.caches[p := Invalidate(CacheOf(w, p), k)])
    case Hit(p, d) => w.(accepted := w.accepted + [Acceptance(p, CacheOf(w, p).entries[d].owner, w.now)])
    case Expired(p, d) => w.(caches := w.caches[p := Expire(CacheOf(w, p), d)])
    case ReadKey(f, p, d, ctx) => w.(flights := w.flights[f := Flight(p, d, ctx, w.now)])
    case Finish(f) =>
      var x := w.flights[f];
      var late := w.now - x.readAt;
      w.(flights := w.flights - {f},
         caches := w.caches[x.process := Put(CacheOf(w, x.process), x.digest, x.ctx.apiKey, x.ctx, cfg.ttl, w.now)],
         accepted := w.accepted + [Acceptance(x.process, x.ctx.apiKey, w.now)],
         delay := if late > w.delay then late else w.delay)
    case Abort(f) => w.(flights := w.flights - {f})
  }

  ghost predicate ValidRun(w: World, steps: seq<Step>, cfg: Config)
    decreases |steps|
  {
    steps == [] || (Enabled(w, steps[0], cfg) && ValidRun(Apply(w, steps[0], cfg), steps[1..], cfg))
  }

  ghost function After(w: World, steps: seq<Step>, cfg: Config): World
    requires ValidRun(w, steps, cfg)
    decreases |steps|
  {
    if steps == [] then w else After(Apply(w, steps[0], cfg), steps[1..], cfg)
  }

  function Start(now: Instant): World {
    World(now, map[], map[], map[], [], 0)
  }

  /** How long a context can be served from a cache: the last whole instant of its time to live. */
  ghost function Served(cfg: Config): nat {
    if cfg.ttl > 0 then cfg.ttl - 1 else 0
  }

  /** The last moment a revoked key can still be accepted. */
  ghost function Deadline(w: World, k: nat, cfg: Config): Instant
    requires k in w.revokedAt
  {
    w.revokedAt[k] + cfg.replicaLag + w.delay + Served(cfg)
  }

  ghost predicate EntryOk(w: World, e: Entry<AuthContext>, cfg: Config) {
    cfg.ttl > 0 && (e.owner in w.revokedAt ==> e.expiresAt <= Deadline(w, e.owner, cfg) + 1)
    && e.expiresAt <= w.now + cfg.ttl
  }

  ghost predicate FlightOk(w: World, x: Flight, cfg: Config) {
    x.readAt <= w.now && (x.ctx.apiKey in w.revokedAt ==> x.readAt <= w.revokedAt[x.ctx.apiKey] + cfg.replicaLag)
  }

  ghost predicate AcceptanceOk(w: World, a: Acceptance, cfg: Config) {
    a.at <= w.now && (a.apiKey in w.revokedAt ==> a.at <= Deadline(w, a.apiKey, cfg))
  }

  ghost predicate Inv(w: World, cfg: Config) {
    && (forall p, d :: p in w.caches && d in w.caches[p].entries ==> EntryOk(w, w.caches[p].entries[d], cfg))
    && (forall f :: f in w.flights ==> FlightOk(w, w.flights[f], cfg))
    && (forall i :: 0 <= i < |w.accepted| ==> AcceptanceOk(w, w.accepted[i], cfg))
  }

  lemma StepKeepsEntries(w: World, step: Step, p: nat, d: string, cfg: Config)
    requires Inv(w, cfg) && Enabled(w, step, cfg)
    requires p in Apply(w, step, cfg).caches && d in Apply(w, step, cfg).caches[p].entries
    ensures EntryOk(Apply(w, step, cfg), Apply(w, step, cfg).caches[p].entries[d], cfg)
  {
    var w' := Apply(w, step, cfg);
    var e := w'.caches[p].entries[d];
    if d in CacheOf(w, p).entries && CacheOf(w, p).entries[d] == e {
      assert EntryOk(w, e, cfg);
    } else {
      assert step.Finish? && FlightOk(w, w.flights[step.flight], cfg);
    }
  }

  lemma StepPreservesInv(w: World, step: Step, cfg: Config)
    requires Inv(w, cfg) && Enabled(w, step, cfg)
    ensures Inv(Apply(w, step, cfg), cfg)
  {
    var w' := Apply(w, step, cfg);
    forall p, d | p in w'.caches && d in w'.caches[p].entries
      ensures EntryOk(w', w'.caches[p].entries[d], cfg)
    {
      StepKeepsEntries(w, step, p, d, cfg);
    }
    forall f | f in w'.flights
      ensures FlightOk(w', w'.flights[f], cfg)
    {
      assert f in w.flights ==> FlightOk(w, w.flights[f], cfg);
    }
    forall i | 0 <= i < |w'.accepted|
      ensures AcceptanceOk(w', w'.accepted[i], cfg)
    {
      if i < |w.accepted| {
        assert AcceptanceOk(w, w.accepted[i], cfg);
      } else if step.Finish? {
        assert FlightOk(w, w.flights[step.flight], cfg);
      } else {
        assert EntryOk(w, CacheOf(w, step.process).entries[step.digest], cfg);
      }
    }
  }

  lemma {:induction false} RunPreservesInv(w: World, steps: seq<Step>, cfg: Config)
    requires Inv(w, cfg) && ValidRun(w, steps, cfg)
    ensures Inv(After(w, steps, cfg), cfg)
    decreases |steps|
  {
    if steps == [] {
    } else {
      StepPreservesInv(w, steps[0], cfg);
      RunPreservesInv(Apply(w, steps[0], cfg), steps[1..], cfg);
    }
  }

  /** Every acceptance of a revoked key falls within `bound` of its revocation. */
  ghost predicate AcceptsWithin(w: World, bound: int) {
    forall i :: 0 <= i < |w.accepted| && w.accepted[i].apiKey in w.revokedAt ==>
      w.accepted[i].at <= w.revokedAt[w.accepted[i].apiKey] + bound
  }

  /** In every interleaving, no process accepts a key later than the replica lag and the longest time a read took to
      reach the cache after its revocation committed, plus, if contexts are cached, strictly less than the auth TTL. */
  lemma RevokedKeyIsNotAcceptedLate(now: Instant, steps: seq<Step>, cfg: Config)
    requires ValidRun(Start(now), steps, cfg)
    ensures
      var w := After(Start(now), steps, cfg);
      AcceptsWithin(w, cfg.replicaLag + w.delay + Served(cfg))
  {
    RunPreservesInv(Start(now), steps, cfg);
    var w := After(Start(now), steps, cfg);
    assert forall i :: 0 <= i < |w.accepted| ==> AcceptanceOk(w, w.accepted[i], cfg);
  }

  /* ---------- the bound is reached ---------- */

  lemma {:induction false} Extend(w: World, steps: seq<Step>, step: Step, cfg: Config)
    requires ValidRun(w, steps, cfg) && Enabled(After(w, steps, cfg), step, cfg)
    ensures ValidRun(w, steps + [step], cfg) && After(w, steps + [step], cfg) == Apply(After(w, steps, cfg), step, cfg)
    decreases |steps|
  {
    if steps == [] {
      assert steps + [step] == [step] && [step][1..] == [];
    } else {
      assert (steps + [step])[1..] == steps[1..] + [step];
      Extend(Apply(w, steps[0], cfg), steps[1..], step, cfg);
    }
  }

  /** A replica that is as late as it may be, a read that takes `delay` to reach the cache, and a hit at the end of the
      entry's life: whatever the configuration, the bound is reached by every key that does not expire before. */
  lemma LatestAcceptance(cfg: Config, delay: nat, ctx: AuthContext) returns (steps: seq<Step>)
    requires Unexpired(ctx, cfg.replicaLag + delay + Served(cfg))
    ensures ValidRun(Start(0), steps, cfg)
    ensures
      var w := After(Start(0), steps, cfg);
      && w.delay == delay && w.revokedAt == map[ctx.apiKey := 0] && |w.accepted| > 0
      && w.accepted[|w.accepted| - 1] == Acceptance(0, ctx.apiKey, cfg.replicaLag + delay + Served(cfg))
  {
    var w0 := Start(0);
    steps := [];
    Extend(w0, steps, Revoke(ctx.apiKey), cfg);        steps := steps + [Revoke(ctx.apiKey)];
    Extend(w0, steps, Tick(cfg.replicaLag), cfg);      steps := steps + [Tick(cfg.replicaLag)];
    Extend(w0, steps, ReadKey(0, 0, "d", ctx), cfg);   steps := steps + [ReadKey(0, 0, "d", ctx)];
    Extend(w0, steps, Tick(delay), cfg);               steps := steps + [Tick(delay)];
    Extend(w0, steps, Finish(0), cfg);                 steps := steps + [Finish(0)];
    if cfg.ttl > 0 {
      Extend(w0, steps, Tick(cfg.ttl - 1), cfg);       steps := steps + [Tick(cfg.ttl - 1)];
      Extend(w0, steps, Hit(0, "d"), cfg);             steps := steps + [Hit(0, "d")];
    }
  }

  /** The runs in which no read took longer than `delay` to reach the cache respect a bound. */
  ghost predicate EveryRunAcceptsWithin(cfg: Config, delay: nat, bound: int) {
    forall now: Instant, steps :: ValidRun(Start(now), steps, cfg) && After(Start(now), steps, cfg).delay <= delay ==>
      AcceptsWithin(After(Start(now), steps, cfg), bound)
  }

  /** The exact lifetime of a revoked key: a bound holds of every run exactly when it allows for the replica lag, the
      delay and the served part of the TTL. */
  lemma ExactLifetimeOfARevokedKey(cfg: Config, delay: nat, bound: int)
    ensures EveryRunAcceptsWithin(cfg, delay, bound) <==> bound >= cfg.replicaLag + delay + Served(cfg)
  {
    if bound >= cfg.replicaLag + delay + Served(cfg) {
      forall now: Instant, steps | ValidRun(Start(now), steps, cfg) && After(Start(now), steps, cfg).delay <= delay
        ensures AcceptsWithin(After(Start(now), steps, cfg), bound)
      {
        RevokedKeyIsNotAcceptedLate(now, steps, cfg);
      }
    } else {
      var steps := LatestAcceptance(cfg, delay, AuthContext(0, "", None));
      var w := After(Start(0), steps, cfg);
      assert w.accepted[|w.accepted| - 1].at > bound;
      assert !AcceptsWithin(w, bound);
    }
  }

  /** A revoked key is accepted for less than the auth TTL, in every run, exactly when replicas do not lag and reads
      reach the cache at once; up to and including the TTL exactly when lag and delay add up to at most one
      microsecond. */
  lemma PlainTtlHoldsIffNoLagAndNoDelay(cfg: Config, delay: nat)
    requires cfg.ttl > 0
    ensures EveryRunAcceptsWithin(cfg, delay, cfg.ttl - 1) <==> cfg.replicaLag == 0 && delay == 0
    ensures EveryRunAcceptsWithin(cfg, delay, cfg.ttl) <==> cfg.replicaLag + delay <= 1
  {
    ExactLifetimeOfARevokedKey(cfg, delay, cfg.ttl - 1);
    ExactLifetimeOfARevokedKey(cfg, delay, cfg.ttl);
  }
}
