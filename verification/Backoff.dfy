/** Retry delays: the saturating doubling loop and its closed form. */
module Backoff {
  import opened Basics
  import opened Definitions

  const MAX_DOUBLINGS: nat := 63

  /** How often the loop doubles; attempt zero wraps around as an unsigned 32-bit number. */
  function Doublings(attempt: Uint32): nat {
    Min(if attempt == 0 then MAX_UINT32 else attempt - 1, MAX_DOUBLINGS)
  }

  function Doubled(policy: RetryPolicy, times: nat): int {
    if times == 0 then policy.initialDelay else Min(2 * Doubled(policy, times - 1), policy.maxDelay)
  }

  function RetryDelay(policy: RetryPolicy, attempt: Uint32): int {
    Doubled(policy, Doublings(attempt))
  }

  /**
   * The bounded loop in 64-bit arithmetic. The doubled value is reduced modulo
   * 2^64, as fixed-width integers are; the postcondition shows the reduction never bites.
   */
  method ComputeRetryDelay(policy: RetryPolicy, attempt: Uint32) returns (delay: Duration)
    requires ValidRetry(policy)
    ensures delay == RetryDelay(policy, attempt)
    ensures 0 < delay <= policy.maxDelay
  {
    delay := policy.initialDelay;
    var count := Doublings(attempt);
    for i := 0 to count
      invariant delay == Doubled(policy, i)
      invariant 0 < delay <= policy.maxDelay
    {
      var wrapped := (2 * delay) % (MAX_UINT64 + 1);
      delay := Min(wrapped, policy.maxDelay);
    }
  }

  function Pow2(n: nat): (p: nat)
    ensures p >= 1
  {
    if n == 0 then 1 else 2 * Pow2(n - 1)
  }

  lemma {:induction false} DoubledClosedForm(policy: RetryPolicy, times: nat)
    requires ValidRetry(policy)
    ensures Doubled(policy, times) == Min(policy.initialDelay * Pow2(times), policy.maxDelay)
  {
    if times > 0 {
      DoubledClosedForm(policy, times - 1);
      assert policy.initialDelay * Pow2(times) == 2 * (policy.initialDelay * Pow2(times - 1));
    }
  }

  lemma {:induction false} Pow2Monotone(a: nat, b: nat)
    requires a <= b
    ensures Pow2(a) <= Pow2(b)
  {
    if a < b {
      Pow2Monotone(a, b - 1);
    }
  }

  lemma Pow2Of63()
    ensures Pow2(63) == MAX_INT64 + 1
  {
    assert Pow2(8) == 256;
    assert Pow2(16) == 256 * 256 by { Pow2Sum(8, 8); }
    assert Pow2(32) == 65536 * 65536 by { Pow2Sum(16, 16); }
    assert Pow2(64) == 0x1_0000_0000 * 0x1_0000_0000 by { Pow2Sum(32, 32); }
  }

  lemma {:induction false} Pow2Sum(a: nat, b: nat)
    ensures Pow2(a + b) == Pow2(a) * Pow2(b)
  {
    if b > 0 {
      Pow2Sum(a, b - 1);
    }
  }

  /**
   * Sixty-three doublings suffice: for every 32-bit attempt the capped loop
   * yields exactly min(Initial * 2^(attempt-1), Max).
   */
  lemma RetryDelayClosedForm(policy: RetryPolicy, attempt: Uint32)
    requires ValidRetry(policy) && attempt >= 1
    ensures RetryDelay(policy, attempt) == Min(policy.initialDelay * Pow2(attempt - 1), policy.maxDelay)
  {
    DoubledClosedForm(policy, Doublings(attempt));
    if attempt - 1 > MAX_DOUBLINGS {
      Pow2Of63();
      Pow2Monotone(63, attempt - 1);
      AtLeast(policy.initialDelay, Pow2(63));
      AtLeast(policy.initialDelay, Pow2(attempt - 1));
    }
  }

  lemma AtLeast(a: int, p: int)
    requires a >= 1 && p >= 0
    ensures a * p >= p
  {
    assert a * p == p + (a - 1) * p;
  }

  /** Total wait the policy imposes before attempt `last`, counted from attempt `first`. */
  function SumDelays(policy: RetryPolicy, first: nat, last: nat): int
    requires 1 <= first && last <= MAX_UINT32 + 1
    decreases last
  {
    if last <= first then 0 else SumDelays(policy, first, last - 1) + RetryDelay(policy, last - 1)
  }
}
