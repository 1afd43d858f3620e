/** Retry with exponential backoff on the primary alias, then on the fallback alias. */
module Resilience {
  import opened Prelude

  /** What an attempt can throw. A missed deadline is `Http(504, true)`; `hasCode` says the body carries a code. */
  datatype Failure = Http(status: int, hasCode: bool) | Other(what: string)
  datatype Outcome<+T> = Value(value: T) | Threw(error: Failure)

  datatype Policy = Policy(maxAttempts: nat, onStatus: set<int>, initialDelayMs: nat, maxDelayMs: nat)

  /** What the executor does, in order. */
  datatype Event<+T> = Call(alias: string, attempt: nat, outcome: Outcome<T>) | Sleep(ms: nat)

  datatype AttemptResult<+T> =
    | Succeeded(value: T, attempts: nat)
    | Exhausted(error: Option<Failure>, attempts: nat)

  const BAD_GATEWAY: int := 502

  /** The thrown exception once both aliases have failed; `totalAttempts` is what its details report. */
  datatype ExhaustedReport = ExhaustedReport(status: int, totalAttempts: Option<nat>)

  datatype Execution<+T> =
    | Done(value: T, usedAlias: string, attempts: nat, didFallback: bool)
    | FallbackCycle
    | PrimaryFailed(error: Option<Failure>)
    | BothFailed(report: ExhaustedReport)

  predicate Retryable(policy: Policy, error: Failure) {
    error.Http? && error.status in policy.onStatus
  }

  function Pow2(n: nat): (p: nat)
    ensures p >= 1
  {
    if n == 0 then 1 else 2 * Pow2(n - 1)
  }

  /** The wait after failed attempt `attempt`, counted from one. */
  function BackoffDelayMs(policy: Policy, attempt: nat): nat
    requires attempt >= 1
  {
    Min(policy.maxDelayMs, policy.initialDelayMs * Pow2(attempt - 1))
  }

  /** The outcome of the attempts from number `k` on. */
  function Segment<T>(alias: string, policy: Policy, runOnce: (string, nat) -> Outcome<T>, k: nat): AttemptResult<T>
    requires 1 <= k <= policy.maxAttempts
    decreases policy.maxAttempts - k
  {
    match runOnce(alias, k)
    case Value(v) => Succeeded(v, k)
    case Threw(e) =>
      if Retryable(policy, e) && k < policy.maxAttempts then Segment(alias, policy, runOnce, k + 1)
      else Exhausted(Some(e), k)
  }

  function Try<T>(alias: string, policy: Policy, runOnce: (string, nat) -> Outcome<T>): AttemptResult<T> {
    if policy.maxAttempts == 0 then Exhausted(None, 0) else Segment(alias, policy, runOnce, 1)
  }

  /** `n` calls with the waits between them. */
  function Attempts<T>(alias: string, policy: Policy, runOnce: (string, nat) -> Outcome<T>, n: nat): seq<Event<T>> {
    if n == 0 then []
    else if n == 1 then [Call(alias, 1, runOnce(alias, 1))]
    else
      Attempts(alias, policy, runOnce, n - 1)
      + [Sleep(BackoffDelayMs(policy, n - 1)), Call(alias, n, runOnce(alias, n))]
  }

  method TryAlias<T>(alias: string, policy: Policy, runOnce: (string, nat) -> Outcome<T>)
    returns (result: AttemptResult<T>, trace: seq<Event<T>>)
    ensures result == Try(alias, policy, runOnce)
    ensures trace == Attempts(alias, policy, runOnce, result.attempts)
  {
    var lastError: Option<Failure> := None;
    var attemptsMade := 0;
    trace := [];
    var attempt := 1;
    while attempt <= policy.maxAttempts
      invariant 1 <= attempt <= policy.maxAttempts + 1
      invariant attemptsMade == attempt - 1
      invariant attempt == 1 ==> trace == [] && lastError == None
      invariant attempt > 1 ==> lastError.Some? && Retryable(policy, lastError.value)
      invariant 1 < attempt <= policy.maxAttempts ==>
                  trace == Attempts(alias, policy, runOnce, attempt - 1) + [Sleep(BackoffDelayMs(policy, attempt - 1))]
      invariant attempt <= policy.maxAttempts ==>
                Try(alias, policy, runOnce) == Segment(alias, policy, runOnce, attempt)
      invariant attempt > policy.maxAttempts ==>
                  && trace == Attempts(alias, policy, runOnce, attempt - 1)
                  && Try(alias, policy, runOnce) == Exhausted(lastError, attempt - 1)
    {
      attemptsMade := attempt;
      var outcome := runOnce(alias, attempt);
      ghost var before := trace;
      trace := trace + [Call(alias, attempt, outcome)];
      assert trace == Attempts(alias, policy, runOnce, attempt) by {
        if attempt > 1 {
          assert trace == Attempts(alias, policy, runOnce, attempt - 1)
                 + [Sleep(BackoffDelayMs(policy, attempt - 1)), Call(alias, attempt, outcome)];
        }
      }
      if outcome.Value? {
        return Succeeded(outcome.value, attempt), trace;
      }
      lastError := Some(outcome.error);
      if !Retryable(policy, outcome.error) {
        break;
      }
      if attempt < policy.maxAttempts {
        trace := trace + [Sleep(BackoffDelayMs(policy, attempt))];
      }
      attempt := attempt + 1;
    }
    result := Exhausted(lastError, attemptsMade);
  }

  function ToExhausted(policy: Policy, primaryError: Option<Failure>): ExhaustedReport {
    match primaryError
    case Some(Http(status, true)) => ExhaustedReport(status, Some(policy.maxAttempts * 2))
    case _ => ExhaustedReport(BAD_GATEWAY, None)
  }

  /** An absent or empty fallback alias is no fallback. */
  predicate HasFallback(fallback: Option<string>) {
    fallback.Some? && fallback.value != ""
  }

  method ExecuteWithRetryAndFallback<T>(primary: string, fallback: Option<string>, policy: Policy,
                                        runOnce: (string, nat) -> Outcome<T>)
    returns (result: Execution<T>, trace: seq<Event<T>>)
    ensures result == Execute(primary, fallback, policy, runOnce)
    ensures trace == ExecuteTrace(primary, fallback, policy, runOnce)
  {
    if HasFallback(fallback) && fallback.value == primary {
      return FallbackCycle, [];
    }
    var first, firstTrace := TryAlias(primary, policy, runOnce);
    if first.Succeeded? {
      return Done(first.value, primary, first.attempts, false), firstTrace;
    }
    if !HasFallback(fallback) {
      return PrimaryFailed(first.error), firstTrace;
    }
    var second, secondTrace := TryAlias(fallback.value, policy, runOnce);
    trace := firstTrace + secondTrace;
    if second.Succeeded? {
      return Done(second.value, fallback.value, first.attempts + second.attempts, true), trace;
    }
    return BothFailed(ToExhausted(policy, first.error)), trace;
  }

  function Execute<T>(primary: string, fallback: Option<string>, policy: Policy,
                      runOnce: (string, nat) -> Outcome<T>): Execution<T> {
    if HasFallback(fallback) && fallback.value == primary then FallbackCycle
    else
      match Try(primary, policy, runOnce)
      case Succeeded(v, n) => Done(v, primary, n, false)
      case Exhausted(e, n) =>
        if !HasFallback(fallback) then PrimaryFailed(e)
        else
          match Try(fallback.value, policy, runOnce)
          case Succeeded(v, m) => Done(v, fallback.value, n + m, true)
          case Exhausted(_, _) => BothFailed(ToExhausted(policy, e))
  }

  function ExecuteTrace<T>(primary: string, fallback: Option<string>, policy: Policy,
                           runOnce: (string, nat) -> Outcome<T>): seq<Event<T>> {
    if HasFallback(fallback) && fallback.value == primary then []
    else
      var first := Try(primary, policy, runOnce);
      Attempts(primary, policy, runOnce, first.attempts) +
      if first.Exhausted? && HasFallback(fallback)
      then Attempts(fallback.value, policy, runOnce, Try(fallback.value, policy, runOnce).attempts)
      else []
  }

  // ---------------------------------------------------------------------------
  // What the attempts of one alias mean
  // ---------------------------------------------------------------------------

  /** A segment seen from outside: which attempt it stops at and why. */
  ghost predicate StopsRightly<T>(alias: string, policy: Policy, runOnce: (string, nat) -> Outcome<T>,
                                  r: AttemptResult<T>) {
    && r.attempts <= policy.maxAttempts
    && (forall i :: 1 <= i < r.attempts ==> runOnce(alias, i).Threw? && Retryable(policy, runOnce(alias, i).error))
    && match r
       case Succeeded(v, n) => n >= 1 && runOnce(alias, n) == Value(v)
       case Exhausted(None, n) => policy.maxAttempts == 0
       case Exhausted(Some(e), n) =>
         n >= 1 && runOnce(alias, n) == Threw(e)
         && (n == policy.maxAttempts || !Retryable(policy, e))
  }

  lemma {:induction false} SegmentStopsRightly<T>(alias: string, policy: Policy, runOnce: (string, nat) -> Outcome<T>,
                                                  k: nat)
    requires 1 <= k <= policy.maxAttempts
    requires forall i :: 1 <= i < k ==> runOnce(alias, i).Threw? && Retryable(policy, runOnce(alias, i).error)
    ensures StopsRightly(alias, policy, runOnce, Segment(alias, policy, runOnce, k))
    decreases policy.maxAttempts - k
  {
    var outcome := runOnce(alias, k);
    if outcome.Threw? && Retryable(policy, outcome.error) && k < policy.maxAttempts {
      SegmentStopsRightly(alias, policy, runOnce, k + 1);
    }
  }

  /** The result of an alias is the one and only result that stops rightly. */
  lemma TryIsTheRightStop<T>(alias: string, policy: Policy, runOnce: (string, nat) -> Outcome<T>, r: AttemptResult<T>)
    ensures r == Try(alias, policy, runOnce) <==> StopsRightly(alias, policy, runOnce, r)
  {
    var t := Try(alias, policy, runOnce);
    if policy.maxAttempts > 0 { SegmentStopsRightly(alias, policy, runOnce, 1); }
    if StopsRightly(alias, policy, runOnce, r) {
      assert r.attempts < t.attempts ==> runOnce(alias, r.attempts).Threw? || r.attempts == 0;
      assert t.attempts < r.attempts ==> runOnce(alias, t.attempts).Threw? || t.attempts == 0;
      assert r.attempts == t.attempts;
    }
  }

  /** Position by position: odd places are the waits, even places the calls 1, 2, 3, ... */
  lemma {:induction false} AttemptsShape<T>(alias: string, policy: Policy, runOnce: (string, nat) -> Outcome<T>, n: nat)
    ensures |Attempts(alias, policy, runOnce, n)| == if n == 0 then 0 else 2 * n - 1
    ensures forall i :: 1 <= i <= n ==>
            Attempts(alias, policy, runOnce, n)[2 * i - 2] == Call(alias, i, runOnce(alias, i))
    ensures forall i :: 1 <= i < n ==>
            Attempts(alias, policy, runOnce, n)[2 * i - 1] == Sleep(BackoffDelayMs(policy, i))
  {
    if n > 1 { AttemptsShape(alias, policy, runOnce, n - 1); }
  }

  // ---------------------------------------------------------------------------
  // Counting calls and waits
  // ---------------------------------------------------------------------------

  function CallCount<T>(trace: seq<Event<T>>): nat {
    if trace == [] then 0 else CallCount(trace[..|trace| - 1]) + if trace[|trace| - 1].Call? then 1 else 0
  }

  function TotalWait<T>(trace: seq<Event<T>>): nat {
    if trace == [] then 0
    else TotalWait(trace[..|trace| - 1]) + if trace[|trace| - 1].Sleep? then trace[|trace| - 1].ms else 0
  }

  lemma {:induction false} CountsAdd<T>(a: seq<Event<T>>, b: seq<Event<T>>)
    ensures CallCount(a + b) == CallCount(a) + CallCount(b)
    ensures TotalWait(a + b) == TotalWait(a) + TotalWait(b)
  {
    if b == [] {
      assert a + b == a;
    } else {
      var init := b[..|b| - 1];
      assert (a + b)[..|a + b| - 1] == a + init;
      CountsAdd(a, init);
    }
  }

  lemma SleepThenCall<T>(s: Event<T>, c: Event<T>)
    requires s.Sleep? && c.Call?
    ensures CallCount([s, c]) == 1 && TotalWait([s, c]) == s.ms
  {
    assert [s, c][..1] == [s] && [s][..0] == [];
    assert TotalWait([s]) == s.ms && CallCount([s]) == 0;
  }

  lemma OneMore(n: nat, d: nat)
    ensures (n + 1) * d == n * d + d
  {
  }

  lemma {:induction false} AttemptsCount<T>(alias: string, policy: Policy, runOnce: (string, nat) -> Outcome<T>, n: nat)
    ensures CallCount(Attempts(alias, policy, runOnce, n)) == n
    ensures TotalWait(Attempts(alias, policy, runOnce, n)) <= (if n == 0 then 0 else n - 1) * policy.maxDelayMs
  {
    if n == 1 {
      var t := Attempts(alias, policy, runOnce, 1);
      assert t[..0] == [];
    } else if n > 1 {
      AttemptsCount(alias, policy, runOnce, n - 1);
      var s: Event<T>, c: Event<T> := Sleep(BackoffDelayMs(policy, n - 1)), Call(alias, n, runOnce(alias, n));
      CountsAdd(Attempts(alias, policy, runOnce, n - 1), [s, c]);
      SleepThenCall(s, c);
      OneMore(n - 2, policy.maxDelayMs);
    }
  }

  lemma TryAttempts<T>(alias: string, policy: Policy, runOnce: (string, nat) -> Outcome<T>)
    ensures Try(alias, policy, runOnce).attempts <= policy.maxAttempts
    ensures policy.maxAttempts > 0 ==> Try(alias, policy, runOnce).attempts >= 1
  {
    TryIsTheRightStop(alias, policy, runOnce, Try(alias, policy, runOnce));
  }

  /** A reported success counts exactly the calls that were made, and names the alias its value came from. */
  lemma SuccessReportExact<T>(primary: string, fallback: Option<string>, policy: Policy,
                              runOnce: (string, nat) -> Outcome<T>)
    requires Execute(primary, fallback, policy, runOnce).Done?
    ensures var done := Execute(primary, fallback, policy, runOnce);
            var trace := ExecuteTrace(primary, fallback, policy, runOnce);
            && done.attempts == CallCount(trace)
            && trace != [] && trace[|trace| - 1].Call? && trace[|trace| - 1].outcome == Value(done.value)
            && trace[|trace| - 1].alias == done.usedAlias
            && (done.didFallback <==> done.usedAlias != primary)
            && (done.didFallback ==> fallback == Some(done.usedAlias))
  {
    var first := Try(primary, policy, runOnce);
    TryIsTheRightStop(primary, policy, runOnce, first);
    AttemptsCount(primary, policy, runOnce, first.attempts);
    AttemptsShape(primary, policy, runOnce, first.attempts);
    if first.Exhausted? {
      var second := Try(fallback.value, policy, runOnce);
      TryIsTheRightStop(fallback.value, policy, runOnce, second);
      AttemptsCount(fallback.value, policy, runOnce, second.attempts);
      AttemptsShape(fallback.value, policy, runOnce, second.attempts);
      CountsAdd(Attempts(primary, policy, runOnce, first.attempts),
                Attempts(fallback.value, policy, runOnce, second.attempts));
    } else {
      assert Attempts(primary, policy, runOnce, first.attempts) + []
             == Attempts(primary, policy, runOnce, first.attempts);
    }
  }

  /** The fallback is called only once the primary has failed for good; with a cycle nothing is called. */
  lemma FallbackOnlyAfterPrimary<T>(primary: string, fallback: Option<string>, policy: Policy,
                                    runOnce: (string, nat) -> Outcome<T>, i: nat)
    requires i < |ExecuteTrace(primary, fallback, policy, runOnce)|
    requires ExecuteTrace(primary, fallback, policy, runOnce)[i].Call?
    requires ExecuteTrace(primary, fallback, policy, runOnce)[i].alias != primary
    ensures var trace := ExecuteTrace(primary, fallback, policy, runOnce);
            var first := Try(primary, policy, runOnce);
            && first.Exhausted? && fallback == Some(trace[i].alias)
            && |Attempts(primary, policy, runOnce, first.attempts)| <= i
            && forall j :: i <= j < |trace| && trace[j].Call? ==> trace[j].alias == trace[i].alias
  {
    var first := Try(primary, policy, runOnce);
    AllOneAlias(primary, policy, runOnce, first.attempts);
    if first.Exhausted? && HasFallback(fallback) {
      AllOneAlias(fallback.value, policy, runOnce, Try(fallback.value, policy, runOnce).attempts);
    }
  }

  lemma {:induction false} AllOneAlias<T>(alias: string, policy: Policy, runOnce: (string, nat) -> Outcome<T>, n: nat)
    ensures forall e :: e in Attempts(alias, policy, runOnce, n) && e.Call? ==> e.alias == alias
  {
    if n > 1 { AllOneAlias(alias, policy, runOnce, n - 1); }
  }

  /** Every attempt but the last fails with an error that is retried. */
  ghost predicate KeepsRetrying<T>(alias: string, policy: Policy, runOnce: (string, nat) -> Outcome<T>) {
    forall i :: 1 <= i < policy.maxAttempts ==> runOnce(alias, i).Threw? && Retryable(policy, runOnce(alias, i).error)
  }

  lemma AllAttemptsIff<T>(alias: string, policy: Policy, runOnce: (string, nat) -> Outcome<T>)
    requires Try(alias, policy, runOnce).Exhausted?
    ensures Try(alias, policy, runOnce).attempts == policy.maxAttempts <==> KeepsRetrying(alias, policy, runOnce)
  {
    TryIsTheRightStop(alias, policy, runOnce, Try(alias, policy, runOnce));
  }

  /**
    The exhausted exception reports `2 * maxAttempts`. That is the number of calls made exactly
    when neither alias stops early: every attempt before the last fails with an error that is retried.
   */
  lemma ExhaustedReportExactIff<T>(primary: string, fallback: Option<string>, policy: Policy,
                                   runOnce: (string, nat) -> Outcome<T>)
    requires Execute(primary, fallback, policy, runOnce).BothFailed?
    requires Execute(primary, fallback, policy, runOnce).report.totalAttempts.Some?
    ensures Execute(primary, fallback, policy, runOnce).report.totalAttempts.value
            == CallCount(ExecuteTrace(primary, fallback, policy, runOnce))
            <==> KeepsRetrying(primary, policy, runOnce) && KeepsRetrying(fallback.value, policy, runOnce)
  {
    var first, second := Try(primary, policy, runOnce), Try(fallback.value, policy, runOnce);
    AttemptsCount(primary, policy, runOnce, first.attempts);
    AttemptsCount(fallback.value, policy, runOnce, second.attempts);
    CountsAdd(Attempts(primary, policy, runOnce, first.attempts),
              Attempts(fallback.value, policy, runOnce, second.attempts));
    AllAttemptsIff(primary, policy, runOnce);
    AllAttemptsIff(fallback.value, policy, runOnce);
    TryAttempts(primary, policy, runOnce);
    TryAttempts(fallback.value, policy, runOnce);
  }

  function AlwaysThrows(status: int): (string, nat) -> Outcome<()> {
    (alias, n) => Threw(Http(status, true))
  }

  /** A status that is not retried, on both aliases: two calls are made, and twice the maximum is reported. */
  lemma ReportOverstates(primary: string, fallback: string, policy: Policy, status: int)
    requires policy.maxAttempts >= 2 && status !in policy.onStatus && fallback != "" && fallback != primary
    ensures var runOnce := AlwaysThrows(status);
            && Execute(primary, Some(fallback), policy, runOnce)
               == BothFailed(ExhaustedReport(status, Some(2 * policy.maxAttempts)))
            && CallCount(ExecuteTrace(primary, Some(fallback), policy, runOnce)) == 2
  {
    var runOnce := AlwaysThrows(status);
    assert Try(primary, policy, runOnce).attempts == 1 && Try(fallback, policy, runOnce).attempts == 1;
    AttemptsCount(primary, policy, runOnce, 1);
    AttemptsCount(fallback, policy, runOnce, 1);
    CountsAdd(Attempts(primary, policy, runOnce, 1), Attempts(fallback, policy, runOnce, 1));
  }

  // ---------------------------------------------------------------------------
  // Backoff
  // ---------------------------------------------------------------------------

  lemma {:induction false} Pow2Monotone(a: nat, b: nat)
    requires a <= b
    ensures Pow2(a) <= Pow2(b)
    decreases b
  {
    if a < b { Pow2Monotone(a, b - 1); }
  }

  /** Waits never shrink from one attempt to the next and never pass the cap. */
  lemma BackoffGrowsToCap(policy: Policy, a: nat, b: nat)
    requires 1 <= a <= b
    ensures BackoffDelayMs(policy, a) <= BackoffDelayMs(policy, b) <= policy.maxDelayMs
    ensures BackoffDelayMs(policy, b) == policy.maxDelayMs || BackoffDelayMs(policy, b + 1) == policy.maxDelayMs
            || BackoffDelayMs(policy, b + 1) == 2 * BackoffDelayMs(policy, b)
  {
    Pow2Monotone(a - 1, b - 1);
    MulMonotone(Pow2(a - 1), Pow2(b - 1), policy.initialDelayMs);
    MulDouble(policy.initialDelayMs, Pow2(b - 1));
  }

  lemma MulMonotone(x: nat, y: nat, d: nat)
    requires x <= y
    ensures d * x <= d * y && x * d <= y * d
  {
    assert d * (y - x) >= 0;
  }

  lemma MulDouble(d: nat, y: nat)
    ensures d * (2 * y) == 2 * (d * y)
  {
  }

  /** The whole execution sleeps at most `maxAttempts - 1` capped waits per alias. */
  lemma TotalWaitBounded<T>(primary: string, fallback: Option<string>, policy: Policy,
                            runOnce: (string, nat) -> Outcome<T>)
    requires policy.maxAttempts >= 1
    ensures TotalWait(ExecuteTrace(primary, fallback, policy, runOnce))
            <= 2 * ((policy.maxAttempts - 1) * policy.maxDelayMs)
    ensures CallCount(ExecuteTrace(primary, fallback, policy, runOnce)) <= 2 * policy.maxAttempts
  {
    var cap := (policy.maxAttempts - 1) * policy.maxDelayMs;
    SegmentWait(primary, policy, runOnce);
    var first := Attempts(primary, policy, runOnce, Try(primary, policy, runOnce).attempts);
    if HasFallback(fallback) {
      SegmentWait(fallback.value, policy, runOnce);
      CountsAdd(first, Attempts(fallback.value, policy, runOnce, Try(fallback.value, policy, runOnce).attempts));
    }
    CountsAdd(first, []);
  }

  lemma SegmentWait<T>(alias: string, policy: Policy, runOnce: (string, nat) -> Outcome<T>)
    requires policy.maxAttempts >= 1
    ensures var trace := Attempts(alias, policy, runOnce, Try(alias, policy, runOnce).attempts);
            TotalWait(trace) <= (policy.maxAttempts - 1) * policy.maxDelayMs && CallCount(trace) <= policy.maxAttempts
  {
    var n := Try(alias, policy, runOnce).attempts;
    TryAttempts(alias, policy, runOnce);
    AttemptsCount(alias, policy, runOnce, n);
    MulMonotone(n - 1, policy.maxAttempts - 1, policy.maxDelayMs);
  }
}
