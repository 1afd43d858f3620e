/** Admission by token bucket: the Lua script run per gateway key, and its whole-run rate bound. */
module TokenBucket {
  import opened Prelude

  const WINDOW_MS: nat := 1000
  const TTL_MS: nat := 60000

  /** Per-client limits; the schema keeps both at one or more. */
  datatype Limits = Limits(rps: nat, burst: nat)

  /** The Redis hash of one key. `None` below stands for a key that is absent (or has expired). */
  datatype Bucket = Bucket(tokens: int, lastRefill: int)
  datatype Verdict = Verdict(allowed: bool, remaining: int, resetAt: int)

  /** `math.floor((elapsed / window) * rate)`, taken as exact. Dafny's `/` is floor here, the divisor being positive. */
  function Refill(limits: Limits, elapsed: int): int {
    elapsed * limits.rps / WINDOW_MS
  }

  /** The tokens on hand at `now`, before one is taken. */
  function Available(limits: Limits, bucket: Option<Bucket>, now: int): int {
    match bucket
    case None => limits.burst
    case Some(b) => Min(limits.burst, b.tokens + Refill(limits, now - b.lastRefill))
  }

  predicate Admits(limits: Limits, bucket: Option<Bucket>, now: int) {
    Available(limits, bucket, now) >= 1
  }

  /** The hash after a call at `now`: rewritten when the call is admitted, untouched when it is not. */
  function After(limits: Limits, bucket: Option<Bucket>, now: int): Option<Bucket> {
    if Admits(limits, bucket, now) then Some(Bucket(Available(limits, bucket, now) - 1, now)) else bucket
  }

  /** What Redis still holds at `now` under an expiry of `ttl` ms counted from the last admission. */
  function Live(ttl: Option<nat>, bucket: Option<Bucket>, now: int): Option<Bucket> {
    if bucket.Some? && ttl.Some? && now - bucket.value.lastRefill >= ttl.value then None else bucket
  }

  class RateLimiter {
    var buckets: map<string, Bucket>

    function Get(key: string): Option<Bucket>
      reads this
    {
      if key in buckets then Some(buckets[key]) else None
    }

    constructor ()
      ensures buckets == map[]
    {
      buckets := map[];
    }

    /** One evaluation of the script for `key` at `now`. */
    method CheckRateLimit(key: string, now: int, limits: Limits) returns (v: Verdict)
      modifies this
      ensures v.allowed == Admits(limits, old(Live(Some(TTL_MS), Get(key), now)), now)
      ensures Get(key) == After(limits, old(Live(Some(TTL_MS), Get(key), now)), now)
      ensures forall other :: other != key ==> Get(other) == old(Get(other))
      ensures v.allowed ==> Get(key).Some? && v.remaining == Get(key).value.tokens && v.resetAt == now + WINDOW_MS
      ensures !v.allowed ==> v.remaining == 0 && v.resetAt == now
    {
      if key in buckets && now - buckets[key].lastRefill >= TTL_MS {
        buckets := buckets - {key};
      }
      var tokens, lastRefill: int := limits.burst, now;
      if key in buckets {
        tokens := buckets[key].tokens;
        lastRefill := buckets[key].lastRefill;
        var elapsed := now - lastRefill;
        var refillAmount := (elapsed * limits.rps) / WINDOW_MS;
        tokens := Min(limits.burst, tokens + refillAmount);
        lastRefill := now;
      }
      if tokens >= 1 {
        tokens := tokens - 1;
        buckets := buckets[key := Bucket(tokens, lastRefill)];
        return Verdict(true, tokens, lastRefill + WINDOW_MS);
      }
      return Verdict(false, 0, now);
    }
  }

  // ---------------------------------------------------------------------------
  // Whole runs of calls for one key
  // ---------------------------------------------------------------------------

  ghost predicate Nondecreasing(times: seq<int>) {
    forall i, j :: 0 <= i <= j < |times| ==> times[i] <= times[j]
  }

  /** The verdicts of a run of calls at `times`, starting from `bucket`. */
  function Run(limits: Limits, ttl: Option<nat>, bucket: Option<Bucket>, times: seq<int>): (verdicts: seq<bool>)
    ensures |verdicts| == |times|
    decreases |times|
  {
    if times == [] then []
    else
      var b := Live(ttl, bucket, times[0]);
      [Admits(limits, b, times[0])] + Run(limits, ttl, After(limits, b, times[0]), times[1..])
  }

  /** How many calls were admitted at a time in `[s, t]`. */
  function AdmittedWithin(times: seq<int>, verdicts: seq<bool>, s: int, t: int): (n: nat)
    requires |times| == |verdicts|
  {
    if times == [] then 0
    else (if verdicts[0] && s <= times[0] <= t then 1 else 0) + AdmittedWithin(times[1..], verdicts[1..], s, t)
  }

  /** The most that can still be admitted in `[s, t]` from `bucket`. */
  function Potential(limits: Limits, bucket: Option<Bucket>, s: int, t: int): int {
    if t < s then 0
    else if bucket.None? || bucket.value.lastRefill < s then limits.burst + Refill(limits, t - s)
    else if bucket.value.lastRefill > t then 0
    else bucket.value.tokens + Refill(limits, t - bucket.value.lastRefill)
  }

  ghost predicate InRange(limits: Limits, bucket: Option<Bucket>) {
    bucket.Some? ==> 0 <= bucket.value.tokens < limits.burst
  }

  lemma RefillSplits(limits: Limits, x: nat, y: nat)
    ensures 0 <= Refill(limits, x)
    ensures Refill(limits, x) + Refill(limits, y) <= Refill(limits, x + y)
  {
    var a, b := x * limits.rps, y * limits.rps;
    assert (x + y) * limits.rps == a + b;
    assert a / WINDOW_MS * WINDOW_MS <= a && b / WINDOW_MS * WINDOW_MS <= b;
  }

  lemma RefillMonotone(limits: Limits, x: nat, y: nat)
    requires x <= y
    ensures 0 <= Refill(limits, x) <= Refill(limits, y)
  {
    RefillSplits(limits, x, y - x);
    RefillSplits(limits, y - x, 0);
  }

  /** What one call does to the stored tokens. */
  lemma AfterInRange(limits: Limits, bucket: Option<Bucket>, now: int)
    requires InRange(limits, bucket)
    requires bucket.Some? ==> bucket.value.lastRefill <= now
    ensures InRange(limits, After(limits, bucket, now))
    ensures After(limits, bucket, now).Some? ==> After(limits, bucket, now).value.lastRefill <= now
  {
    if bucket.Some? {
      RefillSplits(limits, now - bucket.value.lastRefill, 0);
    }
  }

  /** An admission spends potential that is there; a denial spends none. */
  lemma PotentialPays(limits: Limits, bucket: Option<Bucket>, now: int, s: int, t: int)
    requires InRange(limits, bucket)
    requires bucket.Some? ==> bucket.value.lastRefill <= now
    ensures var spent := if Admits(limits, bucket, now) && s <= now <= t then 1 else 0;
            spent + Potential(limits, After(limits, bucket, now), s, t) <= Potential(limits, bucket, s, t)
    ensures 0 <= Potential(limits, bucket, s, t)
  {
    if s <= t {
      RefillSplits(limits, t - s, 0);
      if bucket.Some? && s <= bucket.value.lastRefill <= t {
        RefillSplits(limits, t - bucket.value.lastRefill, 0);
      }
      if Admits(limits, bucket, now) && s <= now <= t {
        RefillMonotone(limits, t - now, t - s);
        if bucket.Some? && s <= bucket.value.lastRefill {
          RefillSplits(limits, now - bucket.value.lastRefill, t - now);
        }
      }
    }
  }

  lemma {:induction false} PotentialBounds(limits: Limits, bucket: Option<Bucket>, times: seq<int>, s: int, t: int)
    requires Nondecreasing(times) && InRange(limits, bucket)
    requires bucket.Some? && times != [] ==> bucket.value.lastRefill <= times[0]
    ensures AdmittedWithin(times, Run(limits, None, bucket, times), s, t) <= Potential(limits, bucket, s, t)
    decreases |times|
  {
    if times == [] {
      PotentialPays(limits, bucket, if bucket.Some? then bucket.value.lastRefill else 0, s, t);
    } else {
      var now := times[0];
      PotentialPays(limits, bucket, now, s, t);
      AfterInRange(limits, bucket, now);
      PotentialBounds(limits, After(limits, bucket, now), times[1..], s, t);
      var vs := Run(limits, None, bucket, times);
      assert vs[1..] == Run(limits, None, After(limits, bucket, now), times[1..]);
    }
  }

  /** The rate bound while the hash never expires: any run of a key, any interval of it. */
  lemma RateBound(limits: Limits, times: seq<int>, s: int, t: int)
    requires Nondecreasing(times) && s <= t
    ensures AdmittedWithin(times, Run(limits, None, None, times), s, t) <= limits.burst + Refill(limits, t - s)
  {
    PotentialBounds(limits, None, times, s, t);
  }

  // ---------------------------------------------------------------------------
  // The 60 s expiry
  // ---------------------------------------------------------------------------

  /** A bucket old enough to have expired is a full one, given `burst <= 60 * rps`. */
  lemma ExpiredIsFull(limits: Limits, b: Bucket, now: int)
    requires limits.burst <= 60 * limits.rps && 0 <= b.tokens
    requires now - b.lastRefill >= TTL_MS
    ensures Available(limits, Some(b), now) == limits.burst
  {
    RefillMonotone(limits, TTL_MS, now - b.lastRefill);
    assert Refill(limits, TTL_MS) == 60 * limits.rps;
  }

  /** Expiry cannot be told from no expiry, call by call, over every run. */
  lemma {:induction false} ExpiryInvisible(limits: Limits, bucket: Option<Bucket>, times: seq<int>)
    requires limits.burst <= 60 * limits.rps
    requires Nondecreasing(times) && InRange(limits, bucket)
    requires bucket.Some? && times != [] ==> bucket.value.lastRefill <= times[0]
    ensures Run(limits, Some(TTL_MS), bucket, times) == Run(limits, None, bucket, times)
    decreases |times|
  {
    if times != [] {
      var now := times[0];
      var live := Live(Some(TTL_MS), bucket, now);
      AfterInRange(limits, bucket, now);
      if live != bucket {
        ExpiredIsFull(limits, bucket.value, now);
      }
      assert After(limits, live, now) == After(limits, bucket, now);
      ExpiryInvisible(limits, After(limits, bucket, now), times[1..]);
    }
  }

  function Repeat(time: int, n: nat): (times: seq<int>)
    ensures |times| == n && forall i :: 0 <= i < n ==> times[i] == time
  {
    seq(n, _ => time)
  }

  /** A burst of `n` simultaneous calls on at least `n` tokens is admitted whole. */
  lemma {:induction false} BurstAdmitted(limits: Limits, ttl: Option<nat>, bucket: Option<Bucket>, time: int, n: nat,
                                         rest: seq<int>, s: int, t: int)
    requires ttl.Some? ==> ttl.value > 0
    requires n <= limits.burst
    requires Live(ttl, bucket, time).None?
             || (bucket.value.lastRefill == time && n <= bucket.value.tokens < limits.burst)
    requires s <= time <= t
    ensures exists last: Option<Bucket> ::
              && (n > 0 ==> last.Some? && last.value.lastRefill == time)
              && (n == 0 ==> last == bucket)
              && AdmittedWithin(Repeat(time, n) + rest, Run(limits, ttl, bucket, Repeat(time, n) + rest), s, t)
                 == n + AdmittedWithin(rest, Run(limits, ttl, last, rest), s, t)
    decreases n
  {
    var times := Repeat(time, n) + rest;
    if n == 0 {
      assert times == rest;
      assert AdmittedWithin(times, Run(limits, ttl, bucket, times), s, t)
             == 0 + AdmittedWithin(rest, Run(limits, ttl, bucket, rest), s, t);
    } else {
      var live := Live(ttl, bucket, time);
      assert Refill(limits, 0) == 0;
      assert Available(limits, live, time) >= n;
      var next := After(limits, live, time);
      assert times[0] == time && times[1..] == Repeat(time, n - 1) + rest;
      var vs := Run(limits, ttl, bucket, times);
      assert vs[0] && vs[1..] == Run(limits, ttl, next, times[1..]);
      assert Live(ttl, next, time) == next;
      BurstAdmitted(limits, ttl, next, time, n - 1, rest, s, t);
    }
  }

  /** With a larger burst the expiry hands out a full bucket too early: two bursts a minute apart. */
  lemma EarlyRefill(limits: Limits)
    requires limits.burst > 60 * limits.rps
    ensures var times := Repeat(0, limits.burst) + Repeat(TTL_MS, limits.burst);
            && Nondecreasing(times)
            && AdmittedWithin(times, Run(limits, Some(TTL_MS), None, times), 0, TTL_MS) == 2 * limits.burst
  {
    var second := Repeat(TTL_MS, limits.burst);
    BurstAdmitted(limits, Some(TTL_MS), None, 0, limits.burst, second, 0, TTL_MS);
    var last: Option<Bucket> :|
      && (limits.burst > 0 ==> last.Some? && last.value.lastRefill == 0)
      && AdmittedWithin(Repeat(0, limits.burst) + second,
                        Run(limits, Some(TTL_MS), None, Repeat(0, limits.burst) + second), 0, TTL_MS)
         == limits.burst + AdmittedWithin(second, Run(limits, Some(TTL_MS), last, second), 0, TTL_MS);
    BurstAdmitted(limits, Some(TTL_MS), last, TTL_MS, limits.burst, [], 0, TTL_MS);
    assert second + [] == second;
  }

  /** The promised bound `burst + floor(rps * (t - s) / 1000)`, with the key expiring as the script sets it. */
  ghost predicate RateBounded(limits: Limits) {
    forall times: seq<int>, s: int, t: int :: Nondecreasing(times) && s <= t ==>
      AdmittedWithin(times, Run(limits, Some(TTL_MS), None, times), s, t) <= limits.burst + Refill(limits, t - s)
  }

  /** Exactly when the expiring bucket keeps its rate bound over every run and interval. */
  lemma RateBoundedIff(limits: Limits)
    ensures RateBounded(limits) <==> limits.burst <= 60 * limits.rps
  {
    if limits.burst <= 60 * limits.rps {
      forall times: seq<int>, s: int, t: int | Nondecreasing(times) && s <= t
        ensures AdmittedWithin(times, Run(limits, Some(TTL_MS), None, times), s, t) <= limits.burst
                + Refill(limits, t - s)
      {
        ExpiryInvisible(limits, None, times);
        RateBound(limits, times, s, t);
      }
    } else {
      EarlyRefill(limits);
      assert Refill(limits, TTL_MS - 0) == 60 * limits.rps;
    }
  }

  // ---------------------------------------------------------------------------
  // No starvation
  // ---------------------------------------------------------------------------

  /** Polling that is denied leaves the bucket alone, so a token is there once 1000/rps ms have passed. */
  lemma {:induction false} PollingIsHarmless(limits: Limits, ttl: Option<nat>, bucket: Option<Bucket>, times: seq<int>,
                                             n: nat)
    requires limits.burst >= 1 && n < |times| && Nondecreasing(times) && InRange(limits, bucket)
    requires bucket.Some? ==> bucket.value.lastRefill <= times[0]
    requires bucket.Some? ==> (times[n] - bucket.value.lastRefill) * limits.rps >= WINDOW_MS
    requires forall i :: 0 <= i < n ==> !Run(limits, ttl, bucket, times)[i]
    ensures Run(limits, ttl, bucket, times)[n]
    decreases n
  {
    var now := times[0];
    var live := Live(ttl, bucket, now);
    var vs := Run(limits, ttl, bucket, times);
    if n > 0 {
      assert !vs[0];
      assert vs[1..] == Run(limits, ttl, live, times[1..]);
      assert live == bucket;
      PollingIsHarmless(limits, ttl, bucket, times[1..], n - 1);
    }
  }

  /** The state in front of call `i` of a run. */
  function StateAt(limits: Limits, ttl: Option<nat>, bucket: Option<Bucket>, times: seq<int>, i: nat): Option<Bucket>
    requires i <= |times|
    decreases i
  {
    if i == 0 then bucket
    else StateAt(limits, ttl, After(limits, Live(ttl, bucket, times[0]), times[0]), times[1..], i - 1)
  }

  lemma {:induction false} RunFrom(limits: Limits, ttl: Option<nat>, bucket: Option<Bucket>, times: seq<int>, i: nat)
    requires i <= |times| && Nondecreasing(times) && InRange(limits, bucket)
    requires bucket.Some? && times != [] ==> bucket.value.lastRefill <= times[0]
    ensures Run(limits, ttl, bucket, times)[i..] == Run(limits, ttl, StateAt(limits, ttl, bucket, times, i), times[i..])
    ensures InRange(limits, StateAt(limits, ttl, bucket, times, i))
    ensures i > 0 && Run(limits, ttl, bucket, times)[i - 1] ==>
              StateAt(limits, ttl, bucket, times, i).Some?
                  && StateAt(limits, ttl, bucket, times, i).value.lastRefill == times[i - 1]
    decreases i
  {
    if i > 0 {
      var live := Live(ttl, bucket, times[0]);
      var next := After(limits, live, times[0]);
      AfterInRange(limits, live, times[0]);
      RunFrom(limits, ttl, next, times[1..], i - 1);
      assert Run(limits, ttl, bucket, times)[i..] == Run(limits, ttl, next, times[1..])[i - 1..];
      assert times[i..] == times[1..][i - 1..];
    }
  }

  /**
    No starvation over whole runs: if call `m` was the last admission and call `n` comes
    1000/rps ms or more after it, call `n` is admitted, however many denied polls lie between.
   */
  lemma NoStarvation(limits: Limits, ttl: Option<nat>, times: seq<int>, m: nat, n: nat)
    requires limits.burst >= 1 && Nondecreasing(times) && m < n < |times|
    requires Run(limits, ttl, None, times)[m]
    requires forall i :: m < i < n ==> !Run(limits, ttl, None, times)[i]
    requires (times[n] - times[m]) * limits.rps >= WINDOW_MS
    ensures Run(limits, ttl, None, times)[n]
  {
    var vs := Run(limits, ttl, None, times);
    RunFrom(limits, ttl, None, times, m + 1);
    var state := StateAt(limits, ttl, None, times, m + 1);
    var tail := times[m + 1..];
    forall i | 0 <= i < n - m - 1
      ensures !Run(limits, ttl, state, tail)[i]
    {
      assert vs[m + 1..][i] == vs[m + 1 + i];
    }
    PollingIsHarmless(limits, ttl, state, tail, n - m - 1);
    assert vs[m + 1..][n - m - 1] == vs[n];
  }
}
