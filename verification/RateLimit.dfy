/** Fixed-window rate limiting per API key on a Redis counter with expiry. */
module RateLimit {
  import opened Wrappers
  import opened Subscriptions

  const SECOND: int := 1_000_000
  const WINDOW: int := 60 * SECOND

  /** The minute a request falls into; the original formats it into the key. */
  function Minute(at: Instant): int {
    at / WINDOW
  }

  datatype Slot = Slot(apiKey: nat, minute: int)

  datatype Counter = Counter(count: nat, expiresAt: Instant)

  datatype Decision = Decision(allowed: bool, remaining: int, retryAfter: Option<int>)

  predicate Live(counters: map<Slot, Counter>, slot: Slot, now: Instant) {
    slot in counters && now < counters[slot].expiresAt
  }

  /** The script: INCR, and EXPIRE when the counter was created by it. */
  function Increment(counters: map<Slot, Counter>, slot: Slot, now: Instant): map<Slot, Counter> {
    if Live(counters, slot, now) then counters[slot := counters[slot].(count := counters[slot].count + 1)]
    else counters[slot := Counter(1, now + WINDOW)]
  }

  datatype Request = Request(apiKey: nat, at: Instant)

  function SlotOf(r: Request): Slot {
    Slot(r.apiKey, Minute(r.at))
  }

  /** How many requests of a trace fall into a slot. */
  function Arrivals(trace: seq<Request>, slot: Slot): nat {
    if trace == [] then 0
    else
      var n := |trace| - 1;
      Arrivals(trace[..n], slot) + (if SlotOf(trace[n]) == slot then 1 else 0)
  }

  /** The counters after a trace, starting empty. */
  function Counters(trace: seq<Request>): map<Slot, Counter> {
    if trace == [] then map[]
    else
      var n := |trace| - 1;
      Increment(Counters(trace[..n]), SlotOf(trace[n]), trace[n].at)
  }

  /** A slot's counter is exactly the number of its requests, and outlives its minute: it is never reset inside it. */
  lemma {:induction false} CounterCountsItsMinute(trace: seq<Request>, slot: Slot)
    ensures
      var counters := Counters(trace);
      if Arrivals(trace, slot) == 0 then slot !in counters
      else
        && slot in counters
        && counters[slot].count == Arrivals(trace, slot)
        && (slot.minute + 1) * WINDOW <= counters[slot].expiresAt
  {
    if trace == [] {
    } else {
      var n := |trace| - 1;
      CounterCountsItsMinute(trace[..n], slot);
      var r := trace[n];
      assert Minute(r.at) * WINDOW <= r.at < (Minute(r.at) + 1) * WINDOW;
    }
  }

  /** The decision `check_rate_limit` takes for a request that arrives after `earlier`. */
  predicate Allowed(earlier: seq<Request>, r: Request, limit: int) {
    var counters := Increment(Counters(earlier), SlotOf(r), r.at);
    limit <= 0 || counters[SlotOf(r)].count <= limit
  }

  /** A request is allowed exactly when fewer than `limit` requests of the same key and minute came before it. */
  lemma AllowedIffUnderLimit(earlier: seq<Request>, r: Request, limit: int)
    requires limit > 0
    ensures Allowed(earlier, r, limit) <==> Arrivals(earlier, SlotOf(r)) < limit
  {
    CounterCountsItsMinute(earlier, SlotOf(r));
    assert r.at < (Minute(r.at) + 1) * WINDOW;
  }

  /** How many requests of a key were allowed at an instant within [from, until). */
  function AllowedWithin(trace: seq<Request>, apiKey: nat, from: Instant, until: Instant, limit: int): nat {
    if trace == [] then 0
    else
      var n := |trace| - 1;
      var r := trace[n];
      AllowedWithin(trace[..n], apiKey, from, until, limit)
      + (if r.apiKey == apiKey && from <= r.at < until && Allowed(trace[..n], r, limit) then 1 else 0)
  }

  function Min(a: int, b: int): int {
    if a < b then a else b
  }

  /** Exactly the first `limit` requests of a minute are allowed. */
  lemma {:induction false} MinuteAllowsLimit(trace: seq<Request>, slot: Slot, limit: int)
    requires limit > 0
    ensures AllowedWithin(trace, slot.apiKey, slot.minute * 60_000_000, (slot.minute + 1) * 60_000_000, limit)
         == Min(Arrivals(trace, slot), limit)
  {
    if trace == [] {
    } else {
      var n := |trace| - 1;
      MinuteAllowsLimit(trace[..n], slot, limit);
      AllowedIffUnderLimit(trace[..n], trace[n], limit);
      InMinute(trace[n].at, slot.minute);
    }
  }

  lemma InMinute(at: Instant, minute: int)
    ensures Minute(at) == minute <==> minute * WINDOW <= at < (minute + 1) * WINDOW
  {
  }

  lemma {:induction false} AllowedSplits(trace: seq<Request>, apiKey: nat, a: Instant, b: Instant, c: Instant,
                                         d: Instant, e: Instant, limit: int)
    requires a <= b <= c <= d <= e
    ensures AllowedWithin(trace, apiKey, b, d, limit)
         <= AllowedWithin(trace, apiKey, a, c, limit) + AllowedWithin(trace, apiKey, c, e, limit)
  {
    if trace == [] {
    } else {
      AllowedSplits(trace[..|trace| - 1], apiKey, a, b, c, d, e, limit);
    }
  }

  /** Any interval of sixty seconds lets through at most twice the limit. */
  lemma SixtySecondsAllowTwiceTheLimit(trace: seq<Request>, apiKey: nat, from: Instant, limit: int)
    requires limit > 0
    ensures AllowedWithin(trace, apiKey, from, from + 60_000_000, limit) <= 2 * limit
  {
    var m := Minute(from);
    InMinute(from, m);
    AllowedSplits(trace, apiKey, m * WINDOW, from, (m + 1) * WINDOW, from + WINDOW, (m + 2) * WINDOW, limit);
    MinuteAllowsLimit(trace, Slot(apiKey, m), limit);
    MinuteAllowsLimit(trace, Slot(apiKey, m + 1), limit);
  }

  /** `n` requests of a key at one instant. */
  function Burst(apiKey: nat, at: Instant, n: nat): seq<Request> {
    if n == 0 then [] else Burst(apiKey, at, n - 1) + [Request(apiKey, at)]
  }

  lemma {:induction false} BurstArrives(before: seq<Request>, apiKey: nat, at: Instant, n: nat, slot: Slot)
    ensures Arrivals(before + Burst(apiKey, at, n), slot)
         == Arrivals(before, slot) + (if slot == Slot(apiKey, Minute(at)) then n else 0)
  {
    if n == 0 {
      assert before + Burst(apiKey, at, n) == before;
    } else {
      var trace := before + Burst(apiKey, at, n);
      assert trace[..|trace| - 1] == before + Burst(apiKey, at, n - 1);
      BurstArrives(before, apiKey, at, n - 1, slot);
    }
  }

  lemma {:induction false} BurstIsAllowed(before: seq<Request>, apiKey: nat, at: Instant, n: nat, from: Instant,
                                          until: Instant, limit: int)
    requires limit >= n && Arrivals(before, Slot(apiKey, Minute(at))) == 0 && from <= at < until
    ensures AllowedWithin(before + Burst(apiKey, at, n), apiKey, from, until, limit)
         == AllowedWithin(before, apiKey, from, until, limit) + n
  {
    if n == 0 {
      assert before + Burst(apiKey, at, n) == before;
    } else {
      var fewer := before + Burst(apiKey, at, n - 1);
      assert before + Burst(apiKey, at, n) == fewer + [Request(apiKey, at)];
      BurstIsAllowed(before, apiKey, at, n - 1, from, until, limit);
      BurstArrives(before, apiKey, at, n - 1, Slot(apiKey, Minute(at)));
      OneMoreIsAllowed(fewer, Request(apiKey, at), from, until, limit);
    }
  }

  lemma OneMoreIsAllowed(trace: seq<Request>, r: Request, from: Instant, until: Instant, limit: int)
    requires Arrivals(trace, SlotOf(r)) < limit && from <= r.at < until
    ensures AllowedWithin(trace + [r], r.apiKey, from, until, limit)
         == AllowedWithin(trace, r.apiKey, from, until, limit) + 1
  {
    assert (trace + [r])[..|trace|] == trace;
    AllowedIffUnderLimit(trace, r, limit);
  }

  /** Twice the limit is reached, whatever the limit: by bursts at the end of a minute and the start of the next. */
  lemma TwiceTheLimitIsReached(apiKey: nat, limit: nat) returns (trace: seq<Request>)
    requires limit > 0
    ensures AllowedWithin(trace, apiKey, WINDOW - 1, 2 * WINDOW - 1, limit) == 2 * limit
    ensures forall i, j :: 0 <= i < j < |trace| ==> trace[i].at <= trace[j].at
  {
    var first := Burst(apiKey, WINDOW - 1, limit);
    assert [] + first == first;
    BurstIsAllowed([], apiKey, WINDOW - 1, limit, WINDOW - 1, 2 * WINDOW - 1, limit);
    BurstArrives([], apiKey, WINDOW - 1, limit, Slot(apiKey, Minute(WINDOW)));
    BurstIsAllowed(first, apiKey, WINDOW, limit, WINDOW - 1, 2 * WINDOW - 1, limit);
    trace := first + Burst(apiKey, WINDOW, limit);
    BurstMembers(apiKey, WINDOW - 1, limit);
    BurstMembers(apiKey, WINDOW, limit);
  }

  lemma {:induction false} BurstMembers(apiKey: nat, at: Instant, n: nat)
    ensures |Burst(apiKey, at, n)| == n
    ensures forall i :: 0 <= i < n ==> Burst(apiKey, at, n)[i] == Request(apiKey, at)
  {
    if n == 0 {
    } else {
      BurstMembers(apiKey, at, n - 1);
    }
  }

  lemma {:induction false} ExpiryWithinWindow(trace: seq<Request>, slot: Slot, now: Instant)
    requires forall i :: 0 <= i < |trace| ==> trace[i].at <= now
    ensures slot in Counters(trace) ==> Counters(trace)[slot].expiresAt <= now + WINDOW
  {
    if trace == [] {
    } else {
      ExpiryWithinWindow(trace[..|trace| - 1], slot, now);
    }
  }

  class RateLimiter {
    var counters: map<Slot, Counter>
    ghost var trace: seq<Request>      // the limited requests so far

    ghost predicate Valid()
      reads this
    {
      counters == Counters(trace)
    }

    constructor ()
      ensures Valid() && trace == []
    {
      counters, trace := map[], [];
    }

    /** TTL in whole seconds, rounded as Redis rounds; negative when the key is gone. */
    method SecondsToLive(slot: Slot, now: Instant) returns (ttl: int)
      ensures if Live(counters, slot, now) then ttl == (counters[slot].expiresAt - now + SECOND / 2) / SECOND
              else ttl < 0
    {
      if slot in counters && now < counters[slot].expiresAt {
        return (counters[slot].expiresAt - now + SECOND / 2) / SECOND;
      }
      return -2;
    }

    /** The hint for a refused request: the counter's remaining life, between one second and a minute. */
    method RetryAfter(slot: Slot, asked: Instant) returns (seconds: int)
      ensures 1 <= seconds
      ensures Live(counters, slot, asked) && counters[slot].expiresAt - asked >= SECOND / 2 ==>
                seconds == (counters[slot].expiresAt - asked + SECOND / 2) / SECOND
      ensures !Live(counters, slot, asked) ==> seconds == 60
      ensures slot in counters && counters[slot].expiresAt <= asked + WINDOW ==> seconds <= 60
    {
      var ttl := SecondsToLive(slot, asked);
      seconds := if ttl > 0 then ttl else 60;
    }

    /** `asked` is when the TTL of a refused request is read, no earlier than the increment. */
    method CheckRateLimit(apiKey: nat, limit: int, now: Instant, asked: Instant) returns (decision: Decision)
      requires Valid() && now <= asked
      modifies this
      ensures Valid() && trace == if limit > 0 then old(trace) + [Request(apiKey, now)] else old(trace)
      ensures limit <= 0 ==> decision == Decision(true, limit, None)
      ensures limit > 0 ==>
                var before := Arrivals(old(trace), Slot(apiKey, Minute(now)));
                && decision.allowed == (before < limit)
                && decision.remaining == if before < limit then limit - before - 1 else 0
      ensures decision.allowed == decision.retryAfter.None?
      ensures
        var slot := Slot(apiKey, Minute(now));
        decision.retryAfter.Some? && Live(counters, slot, asked) && counters[slot].expiresAt - asked >= SECOND / 2 ==>
          decision.retryAfter.value == (counters[slot].expiresAt - asked + SECOND / 2) / SECOND
      ensures decision.retryAfter.Some? && (forall i :: 0 <= i < |old(trace)| ==> old(trace)[i].at <= now) ==>
                1 <= decision.retryAfter.value <= 60
    {
      if limit <= 0 {
        return Decision(true, limit, None);
      }
      var slot := Slot(apiKey, Minute(now));
      var count := 1;
      ghost var r := Request(apiKey, now);
      CountersNext(trace, r);
      CounterCountsItsMinute(trace + [r], slot);
      if slot in counters && now < counters[slot].expiresAt {
        count := counters[slot].count + 1;
        counters := counters[slot := counters[slot].(count := count)];
      } else {
        counters := counters[slot := Counter(1, now + WINDOW)];
      }
      trace := trace + [r];
      var allowed := count <= limit;
      var remaining := if allowed then (if limit - count > 0 then limit - count else 0) else 0;
      var retryAfter: Option<int> := None;
      if !allowed {
        if forall i :: 0 <= i < |old(trace)| ==> old(trace)[i].at <= now {
          ExpiryWithinWindow(trace, slot, now);
        }
        var seconds := RetryAfter(slot, asked);
        retryAfter := Some(seconds);
      }
      decision := Decision(allowed, remaining, retryAfter);
    }
  }

  lemma CountersNext(trace: seq<Request>, r: Request)
    ensures Counters(trace + [r]) == Increment(Counters(trace), SlotOf(r), r.at)
    ensures Arrivals(trace + [r], SlotOf(r)) == Arrivals(trace, SlotOf(r)) + 1
  {
    assert (trace + [r])[..|trace|] == trace;
  }
}
