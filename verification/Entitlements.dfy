/** Entitlement snapshots and the decisions taken on them. */
module Entitlements {
  import opened Subscriptions
  import opened Wrappers

  datatype FeatureType = Boolean | Quota | RateLimit | Seat | OtherType(name: string)

  datatype Reason =
    | NoReason
    | FeatureDisabled
    | FeatureMisconfigured
    | FeatureNotInPlan
    | AccessRevoked
    | Exhausted(kind: FeatureType)
    | ExceededSoft(kind: FeatureType)

  /** One plan feature as a snapshot holds it, usage included. */
  datatype Feature = Feature(
    kind: FeatureType,
    limit: Option<int>,
    used: int,
    seats: Option<int>,
    enabled: bool,
    enforcement: Enforcement)

  /** What the database says about one organization: its primary subscription, its plan and its usage. */
  datatype OrgState = OrgState(
    status: Status,
    enteredAt: Option<Instant>,
    graceDays: int,
    features: map<string, Feature>)

  datatype Snapshot = Snapshot(status: Status, graceActive: bool, features: map<string, Feature>)

  function BuildSnapshot(db: OrgState, now: Instant): Snapshot {
    Snapshot(db.status, GraceActive(db.status, db.graceDays, db.enteredAt, now), db.features)
  }

  datatype Decision = Decision(
    allowed: bool,
    limit: Option<int>,
    used: Option<int>,
    remaining: Option<int>,
    reason: Reason)

  function Remaining(limit: Option<int>, used: int): Option<int> {
    if limit.None? then None else Some(if limit.value - used > 0 then limit.value - used else 0)
  }

  function EffectiveLimit(f: Feature): Option<int> {
    if f.kind == Seat && f.seats.Some? then f.seats else f.limit
  }

  function DecideNumeric(f: Feature, quantity: int): Decision {
    var limit := EffectiveLimit(f);
    if limit.Some? && f.used >= limit.value then
      if f.enforcement == Hard then Decision(false, limit, Some(f.used), Some(0), Exhausted(f.kind))
      else Decision(true, limit, Some(f.used), Some(0), ExceededSoft(f.kind))
    else if limit.Some? && f.used + quantity > limit.value && f.enforcement == Hard then
      Decision(false, limit, Some(f.used), Remaining(limit, f.used), Exhausted(f.kind))
    else
      Decision(true, limit, Some(f.used), Remaining(limit, f.used), NoReason)
  }

  function DecideFeature(f: Feature, quantity: int): Decision {
    if f.kind == Boolean then
      Decision(f.enabled, None, None, None, if f.enabled then NoReason else FeatureDisabled)
    else if !f.enabled then
      Decision(false, f.limit, Some(f.used), Remaining(f.limit, f.used), FeatureDisabled)
    else if f.kind == Quota || f.kind == RateLimit || f.kind == Seat then
      DecideNumeric(f, quantity)
    else
      Decision(false, f.limit, Some(f.used), Remaining(f.limit, f.used), FeatureMisconfigured)
  }

  datatype Check = Check(feature: string, quantity: int)

  datatype CheckResult = CheckResult(feature: string, kind: FeatureType, decision: Decision)

  /** The answer to one check.  It is positive exactly when the subscription grants access, the feature is an enabled
      feature of the plan of a known kind, and a hard numeric limit holds with the requested quantity included. */
  function EvaluateCheck(s: Snapshot, c: Check): (r: CheckResult)
    ensures
      r.decision.allowed <==>
        && c.feature in s.features
        && var f := s.features[c.feature];
           && (s.status == Active || s.status == Trialing || (s.status == PastDue && s.graceActive))
           && f.enabled
           && !f.kind.OtherType?
           && (f.kind != Boolean && f.enforcement == Hard && EffectiveLimit(f).Some? ==>
                 f.used < EffectiveLimit(f).value && f.used + c.quantity <= EffectiveLimit(f).value)
  {
    if c.feature !in s.features then
      CheckResult(c.feature, OtherType("unknown"), Decision(false, None, None, None, FeatureNotInPlan))
    else
      var f := s.features[c.feature];
      if !DecideAccess(s.status, s.graceActive, f.enforcement).allowed then
        CheckResult(c.feature, f.kind,
                    Decision(false, f.limit, Some(f.used), Remaining(f.limit, f.used), AccessRevoked))
      else
        CheckResult(c.feature, f.kind, DecideFeature(f, c.quantity))
  }

  /** The subscription grants access at an instant: it is active or trialing, or past due with a clock that has run
      for less than its grace days of 86 400 seconds each. */
  predicate GrantsAccess(db: OrgState, at: Instant) {
    || db.status == Active
    || db.status == Trialing
    || (db.status == PastDue && db.enteredAt.Some? && at < db.enteredAt.value + db.graceDays * 86_400_000_000)
  }

  /** The limit a numeric feature is held to: the seats of a seat feature, if the plan gives any, else its limit. */
  ghost predicate IsLimit(f: Feature, limit: Option<int>) {
    limit == if f.kind == Seat && f.seats.Some? then f.seats else f.limit
  }

  /** The feature itself allows the quantity: it is enabled, of a known kind, and a hard limit is not reached and
      holds with the quantity included. */
  ghost predicate FeatureAllows(f: Feature, quantity: int) {
    && f.enabled && !f.kind.OtherType?
    && (f.kind != Boolean && f.enforcement == Hard ==>
          forall limit: int :: IsLimit(f, Some(limit)) ==> f.used < limit && f.used + quantity <= limit)
  }

  /** The answer to a check in terms of the database row: access from the status and the clock, the rest from the plan's
      feature and its usage. */
  ghost predicate IsAnswer(db: OrgState, at: Instant, c: Check, r: CheckResult) {
    && r.feature == c.feature
    && var d := r.decision;
       if c.feature !in db.features then
         d == Decision(false, None, None, None, FeatureNotInPlan)
       else
         var f := db.features[c.feature];
         && r.kind == f.kind
         && (d.allowed <==> GrantsAccess(db, at) && FeatureAllows(f, c.quantity))
         && (if GrantsAccess(db, at) && f.kind == Boolean then d.used.None? && d.limit.None?
             else d.used == Some(f.used)
                  && (if GrantsAccess(db, at) && f.enabled && !f.kind.OtherType? then IsLimit(f, d.limit)
                      else d.limit == f.limit))
         && (d.remaining.Some? <==> d.limit.Some?)
         && (d.limit.Some? ==> d.remaining.value == if d.limit.value > f.used then d.limit.value - f.used else 0)
         && (d.reason == AccessRevoked <==> !GrantsAccess(db, at))
         && (d.reason == FeatureDisabled <==> GrantsAccess(db, at) && !f.enabled)
         && (d.reason == FeatureMisconfigured <==> GrantsAccess(db, at) && f.enabled && f.kind.OtherType?)
         && (d.reason == Exhausted(f.kind) <==>
               GrantsAccess(db, at) && f.enabled && !f.kind.OtherType? && !FeatureAllows(f, c.quantity))
         && (d.reason == ExceededSoft(f.kind) <==>
               && GrantsAccess(db, at) && f.enabled && !f.kind.OtherType? && f.kind != Boolean && f.enforcement != Hard
               && d.limit.Some? && f.used >= d.limit.value)
         && (d.reason == NoReason <==> d.allowed && d.reason != ExceededSoft(f.kind))
  }

  /** Every check on a snapshot built at an instant is answered from the database row as it should be. */
  lemma BuiltAnswersAreExact(db: OrgState, at: Instant, c: Check)
    ensures IsAnswer(db, at, c, EvaluateCheck(BuildSnapshot(db, at), c))
  {
    if c.feature in db.features {
      var f := db.features[c.feature];
      var limit := EffectiveLimit(f);
      assert limit.Some? ==> IsLimit(f, Some(limit.value));
      assert FeatureAllows(f, c.quantity) <==>
               && f.enabled && !f.kind.OtherType?
               && (f.kind != Boolean && f.enforcement == Hard && limit.Some? ==>
                     f.used < limit.value && f.used + c.quantity <= limit.value);
    }
  }

  /** The mode of an access decision: degraded exactly in the grace window of a degraded feature. */
  lemma AccessModes(status: Status, graceActive: bool, enforcement: Enforcement)
    ensures
      var a := DecideAccess(status, graceActive, enforcement);
      && (a.allowed <==> status == Active || status == Trialing || (status == PastDue && graceActive))
      && (a.mode == Denied <==> !a.allowed)
      && (a.mode == DegradedMode <==> status == PastDue && graceActive && enforcement == Degraded)
  {
  }

  /** The answers to a request, check by check. */
  ghost predicate AreAnswers(db: OrgState, at: Instant, checks: seq<Check>, results: seq<CheckResult>) {
    |results| == |checks| && forall i :: 0 <= i < |checks| ==> IsAnswer(db, at, checks[i], results[i])
  }

  lemma BuiltResultsAreExact(db: OrgState, at: Instant, checks: seq<Check>)
    ensures AreAnswers(db, at, checks, EvaluateChecks(BuildSnapshot(db, at), checks))
  {
    forall i | 0 <= i < |checks|
      ensures IsAnswer(db, at, checks[i], EvaluateChecks(BuildSnapshot(db, at), checks)[i])
    {
      BuiltAnswersAreExact(db, at, checks[i]);
    }
  }

  function EvaluateChecks(s: Snapshot, checks: seq<Check>): seq<CheckResult> {
    seq(|checks|, i requires 0 <= i < |checks| => EvaluateCheck(s, checks[i]))
  }

  method RunChecks(s: Snapshot, checks: seq<Check>) returns (results: seq<CheckResult>)
    ensures results == EvaluateChecks(s, checks)
  {
    results := [];
    for i := 0 to |checks|
      invariant |results| == i
      invariant forall j :: 0 <= j < i ==> results[j] == EvaluateCheck(s, checks[j])
    {
      var c := checks[i];
      if c.feature !in s.features {
        results := results
          + [CheckResult(c.feature, OtherType("unknown"), Decision(false, None, None, None, FeatureNotInPlan))];
      } else {
        var f := s.features[c.feature];
        var access := DecideAccess(s.status, s.graceActive, f.enforcement);
        if !access.allowed {
          var denied := Decision(false, f.limit, Some(f.used), Remaining(f.limit, f.used), AccessRevoked);
          results := results + [CheckResult(c.feature, f.kind, denied)];
        } else {
          results := results + [CheckResult(c.feature, f.kind, DecideFeature(f, c.quantity))];
        }
      }
    }
  }
}
