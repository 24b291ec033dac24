/** Outcome classification and capped exponential backoff (internal/delivery/retry.go). */
module Retry {
  import opened Common

  const SECOND := 1_000_000_000
  const TWO_62 := 0x4000_0000_0000_0000
  const TWO_63 := 0x8000_0000_0000_0000
  const TWO_64 := 0x1_0000_0000_0000_0000

  /** Go's time.Duration. */
  type Duration = d: int | -TWO_63 <= d < TWO_63

  datatype RetryPolicy = RetryPolicy(baseDelay: Duration, maxDelay: Duration) {
    /** Non-positive settings fall back to the defaults. */
    function Base(): (b: Duration)
      ensures b > 0
    {
      if baseDelay <= 0 then 2 * SECOND else baseDelay
    }

    function Cap(): (m: Duration)
      ensures m > 0
    {
      if maxDelay <= 0 then 300 * SECOND else maxDelay
    }

    /** Doubling reaches the cap before it overflows; any base below 2^62 and cap up to 2^62 will do. */
    predicate Safe() {
      Base() < TWO_62 && Cap() <= LastDoubling(Base())
    }
  }

  /** The last doubling of `delay` that 64 bits can hold. */
  function LastDoubling(delay: Duration): (last: Duration)
    requires delay > 0
    ensures last >= TWO_62 && last >= delay
    decreases TWO_63 - delay
  {
    if delay >= TWO_62 then delay else LastDoubling(delay * 2)
  }

  const DEFAULT_RETRY_POLICY := RetryPolicy(2 * SECOND, 300 * SECOND)

  /** Two's-complement wrap-around of a 64-bit result. */
  function Wrap64(x: int): Duration {
    var m := x % TWO_64;
    if m >= TWO_63 then m - TWO_64 else m
  }

  /** The value the doubling loop leaves after `rounds` more rounds. */
  function Doubled(delay: Duration, cap: Duration, rounds: nat): Duration
    decreases rounds
  {
    if rounds == 0 then delay
    else
      var next := Wrap64(delay * 2);
      if next >= cap then cap else Doubled(next, cap, rounds - 1)
  }

  function Delay(policy: RetryPolicy, attemptNumber: int): Duration {
    Doubled(policy.Base(), policy.Cap(), if attemptNumber <= 1 then 0 else attemptNumber - 1)
  }

  method ComputeDelay(policy: RetryPolicy, attemptNumber: int) returns (delay: Duration)
    ensures delay == Delay(policy, attemptNumber)
  {
    var cap := policy.Cap();
    delay := policy.Base();
    var i := 1;
    while i < attemptNumber
      invariant 1 <= i
      invariant attemptNumber >= 1 ==> i <= attemptNumber
      invariant i <= attemptNumber ==> Doubled(delay, cap, attemptNumber - i) == Delay(policy, attemptNumber)
      invariant attemptNumber <= 1 ==> delay == policy.Base()
    {
      delay := Wrap64(delay * 2);
      if delay >= cap {
        return cap;
      }
      i := i + 1;
    }
  }

  function Pow2(k: nat): (p: nat)
    ensures p >= 1
  {
    if k == 0 then 1 else 2 * Pow2(k - 1)
  }

  function Min(a: int, b: int): int {
    if a <= b then a else b
  }

  /** The backoff as documented: base * 2^(n-1), never above the cap. */
  function CappedBackoff(policy: RetryPolicy, attemptNumber: int): int {
    Min(policy.Base() * Pow2(if attemptNumber <= 1 then 0 else attemptNumber - 1), policy.Cap())
  }

  lemma {:induction false} DoubledIsCapped(delay: Duration, cap: Duration, rounds: nat)
    requires 0 < delay < TWO_62 && 0 < cap <= LastDoubling(delay)
    requires rounds > 0 || delay <= cap
    ensures Doubled(delay, cap, rounds) == Min(delay * Pow2(rounds), cap)
    decreases rounds
  {
    if rounds > 0 {
      assert Wrap64(delay * 2) == delay * 2;
      if delay * 2 >= cap {
        MulAtLeast(delay * 2, Pow2(rounds - 1));
      } else {
        DoubledIsCapped(delay * 2, cap, rounds - 1);
      }
      MulAssoc(delay, Pow2(rounds - 1));
    }
  }

  /** A cap beyond the last doubling is overtaken by the sign bit. */
  lemma {:induction false} DoubledOverflows(delay: Duration, cap: Duration) returns (rounds: nat)
    requires delay > 0 && cap > 0 && (delay >= TWO_62 || cap > LastDoubling(delay))
    ensures rounds > 0 && Doubled(delay, cap, rounds) < 0
    decreases TWO_63 - delay
  {
    var next := Wrap64(delay * 2);
    if delay >= TWO_62 {
      rounds := 1;
      assert next == delay * 2 - TWO_64 < 0;
      assert Doubled(delay, cap, 1) == Doubled(next, cap, 0);
    } else {
      assert next == delay * 2 < cap;
      var more := DoubledOverflows(next, cap);
      rounds := more + 1;
      assert Doubled(delay, cap, rounds) == Doubled(next, cap, more);
    }
  }

  lemma MulAtLeast(a: int, p: nat)
    requires a >= 0 && p >= 1
    ensures a * p >= a
  {
  }

  lemma MulAssoc(a: int, p: int)
    ensures a * 2 * p == a * (2 * p)
  {
  }

  /**
   * The loop computes the documented backoff exactly when it runs at least once
   * or starts at or below the cap; the one failure is the first retry under a
   * policy whose base exceeds its cap.
   */
  lemma DelayClosedForm(policy: RetryPolicy, attemptNumber: int)
    requires policy.Safe()
    ensures Delay(policy, attemptNumber) == CappedBackoff(policy, attemptNumber) <==>
            attemptNumber >= 2 || policy.Base() <= policy.Cap()
    ensures Delay(policy, attemptNumber) > 0
  {
    if attemptNumber >= 2 || policy.Base() <= policy.Cap() {
      DoubledIsCapped(policy.Base(), policy.Cap(), if attemptNumber <= 1 then 0 else attemptNumber - 1);
      MulAtLeast(policy.Base(), Pow2(if attemptNumber <= 1 then 0 else attemptNumber - 1));
    }
  }

  /**
   * Every delay is positive exactly for the safe policies, and is the documented
   * backoff exactly for those whose base does not exceed their cap; any other
   * policy wraps to a negative delay at some attempt.
   */
  lemma BackoffAsDocumented(policy: RetryPolicy)
    ensures policy.Safe() <==> forall n :: Delay(policy, n) > 0
    ensures policy.Safe() && policy.Base() <= policy.Cap() <==>
            forall n :: Delay(policy, n) == CappedBackoff(policy, n)
  {
    if policy.Safe() {
      forall n
        ensures Delay(policy, n) > 0
        ensures policy.Base() <= policy.Cap() ==> Delay(policy, n) == CappedBackoff(policy, n)
      {
        DelayClosedForm(policy, n);
      }
      DelayClosedForm(policy, 1);
    } else {
      var rounds := DoubledOverflows(policy.Base(), policy.Cap());
      assert Delay(policy, rounds + 1) < 0;
      MulAtLeast(policy.Base(), Pow2(rounds));
      assert CappedBackoff(policy, rounds + 1) > 0;
    }
  }

  /** An unsafe policy: a cap of the largest duration is never reached from 2^62. */
  lemma HugeCapOverflows()
    ensures var policy := RetryPolicy(TWO_62, TWO_63 - 1);
            policy.Base() <= policy.Cap() && !policy.Safe() && Delay(policy, 2) < 0
  {
    assert Doubled(TWO_62, TWO_63 - 1, 1) == Doubled(Wrap64(TWO_62 * 2), TWO_63 - 1, 0);
  }

  /** The default policy waits 2, 4, 8, ... seconds, up to five minutes. */
  lemma DefaultDelay(attemptNumber: int)
    requires attemptNumber >= 1
    ensures Delay(DEFAULT_RETRY_POLICY, attemptNumber) == Min(2_000_000_000 * Pow2(attemptNumber - 1), 300_000_000_000)
  {
    DelayClosedForm(DEFAULT_RETRY_POLICY, attemptNumber);
  }

  /** Settings that are not positive count as the defaults. */
  lemma FallbackDelay(base: Duration, cap: Duration, attemptNumber: int)
    ensures Delay(RetryPolicy(base, cap), attemptNumber) ==
            Delay(RetryPolicy(if base <= 0 then 2_000_000_000 else base, if cap <= 0 then 300_000_000_000 else cap),
                  attemptNumber)
  {
  }

  lemma DelayMonotone(policy: RetryPolicy, m: int, n: int)
    requires policy.Safe() && policy.Base() <= policy.Cap() && m <= n
    ensures Delay(policy, m) <= Delay(policy, n) <= policy.Cap()
    decreases n - m
  {
    DelayClosedForm(policy, m);
    DelayClosedForm(policy, n);
    if m < n {
      DelayMonotone(policy, m + 1, n);
      DelayClosedForm(policy, m + 1);
      if m >= 1 {
        assert Pow2(m) == 2 * Pow2(m - 1);
        MulMonotone(policy.Base(), Pow2(m - 1), Pow2(m));
      }
    }
  }

  lemma MulMonotone(a: int, p: int, q: int)
    requires a >= 0 && p <= q
    ensures a * p <= a * q
  {
  }

  function TotalDelay(policy: RetryPolicy, retries: nat): int {
    if retries == 0 then 0 else TotalDelay(policy, retries - 1) + Delay(policy, retries)
  }

  /** All the waiting between `attempts` attempts is at most (attempts - 1) caps. */
  lemma {:induction false} TotalDelayBound(policy: RetryPolicy, attempts: nat)
    requires policy.Safe() && policy.Base() <= policy.Cap() && attempts >= 1
    ensures attempts - 1 <= TotalDelay(policy, attempts - 1) <= (attempts - 1) * policy.Cap()
  {
    if attempts > 1 {
      TotalDelayBound(policy, attempts - 1);
      DelayMonotone(policy, attempts - 1, attempts - 1);
      DelayClosedForm(policy, attempts - 1);
      assert (attempts - 1) * policy.Cap() == (attempts - 2) * policy.Cap() + policy.Cap();
    }
  }

  /** One HTTP attempt as the transport reports it; the duration is not modelled. */
  datatype AttemptResult = AttemptResult(statusCode: int, err: Option<string>) {
    predicate Is2xx() {
      200 <= statusCode <= 299
    }

    predicate Succeeded() {
      err.None? && Is2xx()
    }
  }

  datatype RetryDecision = RetryDecision(retry: bool, terminal: bool, delay: Duration)

  predicate IsRetryableStatus(status: int) {
    if status == 0 then false
    else if status == 408 || status == 409 || status == 425 || status == 429 then true
    else 500 <= status <= 599
  }

  function Decide(policy: RetryPolicy, result: AttemptResult, attemptNumber: int, maxAttempts: int): RetryDecision {
    if attemptNumber >= maxAttempts then RetryDecision(false, true, 0)
    else if result.err.Some? || IsRetryableStatus(result.statusCode) then
      RetryDecision(true, false, Delay(policy, attemptNumber))
    else if result.Is2xx() then RetryDecision(false, false, 0)
    else RetryDecision(false, true, 0)
  }

  /**
   * The decision for every result: retry exactly when attempts remain and the
   * cause is transient, give up exactly when none remain or the answer is neither
   * transient nor a 2xx; and the delay of a retry is that of this very attempt.
   */
  lemma DecideMeaning(policy: RetryPolicy, result: AttemptResult, attemptNumber: int, maxAttempts: int)
    ensures var d := Decide(policy, result, attemptNumber, maxAttempts);
            var transient := result.err.Some? || result.statusCode in {408, 409, 425, 429} ||
                             500 <= result.statusCode <= 599;
            && (d.retry <==> attemptNumber < maxAttempts && transient)
            && (d.terminal <==> attemptNumber >= maxAttempts || (!transient && !(200 <= result.statusCode <= 299)))
            && d.delay == if d.retry then Delay(policy, attemptNumber) else 0
  {
  }

  /**
   * A failure is either retried or terminal and never both; it is retried exactly
   * when attempts remain and the cause is transient, and then after the backoff
   * for this very attempt.
   */
  lemma DecideFailure(policy: RetryPolicy, result: AttemptResult, attemptNumber: int, maxAttempts: int)
    requires !result.Succeeded()
    ensures var d := Decide(policy, result, attemptNumber, maxAttempts);
            && (d.retry <==> !d.terminal)
            && (d.retry <==> attemptNumber < maxAttempts &&
                             (result.err.Some? || result.statusCode in {408, 409, 425, 429} ||
                              500 <= result.statusCode <= 599))
            && (d.retry ==> d.delay == Delay(policy, attemptNumber))
            && (d.retry && policy.Safe() ==> d.delay > 0)
            && (d.retry && policy.Safe() && policy.Base() <= policy.Cap() ==>
                  d.delay == CappedBackoff(policy, attemptNumber))
  {
    if policy.Safe() {
      DelayClosedForm(policy, attemptNumber);
    }
  }
}
