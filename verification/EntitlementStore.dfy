/** The cache keys of one organization updated in place, by calls that are not interrupted. */
module EntitlementStore {
  import opened Wrappers
  import opened Subscriptions
  import opened Entitlements
  import opened EntitlementCache
  import opened EntitlementBump

  const LOCK_WAIT_INTERVAL: int := 100_000

  class SnapshotCache {
    var version: Option<nat>
    var lockUntil: Option<Instant>
    var shared: Option<Cached>
    var l1: map<nat, Cached>

    constructor ()
      ensures version.None? && lockUntil.None? && shared.None? && l1 == map[]
    {
      version, lockUntil, shared, l1 := None, None, None, map[];
    }

    /** The four writes of a bump; the result is a version no earlier bump returned. */
    method IncrementEntitlementVersion(process: nat) returns (v: nat)
      modifies this`version, this`shared, this`l1
      ensures version == Some(v) && v == (if old(version).None? then 2 else old(version).value + 1)
      ensures shared.None? && l1 == old(l1) - {process}
      ensures forall w: World, cfg: Config ::
                w.version == old(version) && w.shared == old(shared) && w.l1 == old(l1) ==>
                var bumped := Bump(w, process, cfg);
                bumped.version == version && bumped.shared == shared && bumped.l1 == l1
    {
      if version.None? {
        version := Some(1);
      }
      version := Some(version.value + 1);
      shared := None;
      l1 := l1 - {process};
      v := version.value;
    }

    /** Look up to fifty times, a tenth of a second apart, for the snapshot another process is building. */
    method WaitForBuilder(now: Instant, others: nat -> Option<Cached>) returns (found: Option<Snap>, until: Instant)
      modifies this`shared
      ensures found.Some? <==> exists k: nat :: k < LOCK_WAIT_ATTEMPTS && Sees(others, now, k)
      ensures found.Some? ==> Live(shared, until) && found.value == shared.value.snap
      ensures found.None? ==> shared == others(LOCK_WAIT_ATTEMPTS - 1)
      ensures now <= until <= now + 5_000_000
    {
      until := now;
      for k := 0 to LOCK_WAIT_ATTEMPTS
        invariant until == now + k * LOCK_WAIT_INTERVAL
        invariant k > 0 ==> shared == others(k - 1)
        invariant forall j: nat :: j < k ==> !Sees(others, now, j)
      {
        until := until + LOCK_WAIT_INTERVAL;
        shared := others(k);
        assert Sees(others, now, k) <==> Live(shared, until);
        if shared.Some? && until < shared.value.expiresAt {
          return Some(shared.value.snap), until;
        }
      }
      found := None;
    }

    /** GET, then either the lock and a build that is stored, or a wait for the builder and, failing that, a build
        that is not stored. `source` is the database state the build reads, and `others(k)` is what the other
        processes have made of the shared key by the k-th look. */
    method GetOrBuildCachedSnapshot(now: Instant, cfg: Config, db: OrgState, source: nat, others: nat -> Option<Cached>)
      returns (snap: Snap, hit: bool, until: Instant)
      modifies this`shared, this`lockUntil
      ensures
        var held := old(lockUntil).Some? && now < old(lockUntil).value;
        hit <==> Live(old(shared), now) || (held && exists k: nat :: k < LOCK_WAIT_ATTEMPTS && Sees(others, now, k))
      ensures hit ==> Live(shared, until) && snap == shared.value.snap && lockUntil == old(lockUntil)
      ensures hit && Live(old(shared), now) ==> shared == old(shared) && until == now
      ensures !hit ==>
                && snap == Snap(BuildSnapshot(db, until), LogicalVersion(version), until, source)
                && (if old(lockUntil).Some? && now < old(lockUntil).value
                    then shared == others(LOCK_WAIT_ATTEMPTS - 1) && lockUntil == old(lockUntil)
                    else shared == Some(Cached(snap, now + cfg.sharedTtl)) && lockUntil.None? && until == now)
      ensures now <= until <= now + 5_000_000
    {
      until := now;
      if shared.Some? && now < shared.value.expiresAt {
        return shared.value.snap, true, now;
      }
      hit := false;
      if lockUntil.Some? && now < lockUntil.value {
        var found;
        found, until := WaitForBuilder(now, others);
        if found.Some? {
          return found.value, true, until;
        }
        snap := Snap(BuildSnapshot(db, until), LogicalVersion(version), until, source);
        return;
      }
      lockUntil := Some(now + BUILD_LOCK_TTL);
      snap := Snap(BuildSnapshot(db, now), 0, now, source);
      snap := snap.(version := LogicalVersion(version));
      shared := Some(Cached(snap, now + cfg.sharedTtl));
      lockUntil := None;
    }

    /** L1, then Redis, then the database: the answer is the evaluation of the first live snapshot found, and of the
        current database state when none is. */
    method Evaluate(process: nat, now: Instant, cfg: Config, db: OrgState, source: nat, others: nat -> Option<Cached>,
                    checks: seq<Check>)
      returns (results: seq<CheckResult>, cacheHit: bool, ghost until: Instant)
      modifies this`shared, this`lockUntil, this`l1
      ensures
        var local := if process in old(l1) then Some(old(l1)[process]) else None;
        var held := old(lockUntil).Some? && now < old(lockUntil).value;
        if Live(local, now) then
          && cacheHit && results == EvaluateChecks(local.value.snap.value, checks)
          && shared == old(shared) && l1 == old(l1) && lockUntil == old(lockUntil)
        else if cacheHit then
          && (Live(old(shared), now) || (held && exists k: nat :: k < LOCK_WAIT_ATTEMPTS && Sees(others, now, k)))
          && Live(shared, until) && results == EvaluateChecks(shared.value.snap.value, checks)
          && IsFilled(old(l1), l1, process, shared.value.snap, until, cfg) && lockUntil == old(lockUntil)
        else
          var built := Snap(BuildSnapshot(db, until), LogicalVersion(version), until, source);
          && !Live(old(shared), now) && (held ==> forall k: nat :: k < LOCK_WAIT_ATTEMPTS ==> !Sees(others, now, k))
          && results == EvaluateChecks(BuildSnapshot(db, until), checks) && AreAnswers(db, until, checks, results)
          && IsFilled(old(l1), l1, process, built, until, cfg)
          && (if held then shared == others(LOCK_WAIT_ATTEMPTS - 1) && lockUntil == old(lockUntil)
              else shared == Some(Cached(built, now + cfg.sharedTtl)) && lockUntil.None? && until == now)
      ensures now <= until
    {
      until := now;
      if process in l1 {
        var item := l1[process];
        if now < item.expiresAt {
          results := RunChecks(item.snap.value, checks);
          cacheHit := true;
          return;
        }
        l1 := l1 - {process};
      }
      assert l1 == old(l1) - {process};
      var snap, hit, readyAt := GetOrBuildCachedSnapshot(now, cfg, db, source, others);
      if cfg.l1Ttl > 0 {
        l1 := l1[process := Cached(snap, readyAt + cfg.l1Ttl)];
      }
      results := RunChecks(snap.value, checks);
      cacheHit, until := hit, readyAt;
      BuiltResultsAreExact(db, until, checks);
    }
  }

  /** With a positive TTL the process now caches the snapshot for that long, otherwise nothing; other processes'
      caches are as they were. */
  ghost predicate IsFilled(before: map<nat, Cached>, after: map<nat, Cached>, process: nat, snap: Snap, at: Instant,
                           cfg: Config)
  {
    && (forall p :: p != process ==> (p in after <==> p in before) && (p in after ==> after[p] == before[p]))
    && (process in after <==> cfg.l1Ttl > 0)
    && (process in after ==> after[process] == Cached(snap, at + cfg.l1Ttl))
  }

  /** The interleaved evaluations fill L1 in the same way. */
  lemma RespondFillsL1(l1: map<nat, Cached>, process: nat, snap: Snap, at: Instant, cfg: Config)
    ensures IsFilled(l1, FillL1(l1 - {process}, process, snap, at, cfg), process, snap, at, cfg)
  {
  }

  /** The k-th look finds a live snapshot. */
  predicate Sees(others: nat -> Option<Cached>, now: Instant, k: nat) {
    Live(others(k), LookAt(now, k))
  }

  /** The moment of the k-th look while waiting. */
  function LookAt(now: Instant, k: nat): Instant {
    now + (k + 1) * LOCK_WAIT_INTERVAL
  }
}
