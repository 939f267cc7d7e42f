/** Retry delays: doubled per failed attempt up to a maximum, in unsigned 64-bit milliseconds. */
module Backoff {
  import opened Prelude

  newtype uint32 = n: int | 0 <= n < 0x1_0000_0000
  newtype uint64 = n: int | 0 <= n < 0x1_0000_0000_0000_0000

  const MAX_NODE_ATTEMPTS: uint32 := 100
  const MAX_RETRY_BACKOFF_MILLIS: uint64 := 86_400_000
  const NANOSECONDS_PER_MILLISECOND := 1_000_000

  datatype Policy = Policy(maxAttempts: uint32, initialBackoffMillis: uint64, maxBackoffMillis: uint64)

  /** validateRetryPolicy accepts it. */
  predicate Accepted(p: Policy) {
    && 0 < p.maxAttempts <= MAX_NODE_ATTEMPTS
    && (p.maxAttempts == 1 ==> p.initialBackoffMillis == 0 && p.maxBackoffMillis == 0)
    && (p.maxAttempts > 1 ==>
          0 < p.initialBackoffMillis <= p.maxBackoffMillis <= MAX_RETRY_BACKOFF_MILLIS)
  }

  function Pow2(n: nat): (p: nat)
    ensures p > 0
  {
    if n == 0 then 1 else 2 * Pow2(n - 1)
  }

  function Min(a: int, b: int): int {
    if a < b then a else b
  }

  /** initial * 2^(k-1), but at most the maximum. */
  function Delay(p: Policy, failedAttempt: nat): nat
    requires failedAttempt > 0
  {
    Min(p.initialBackoffMillis as int * Pow2(failedAttempt - 1), p.maxBackoffMillis as int)
  }

  lemma DoublingMore(initial: nat, m: nat, n: nat)
    requires m <= n
    ensures initial * Pow2(m) <= initial * Pow2(n)
    decreases n
  {
    if m < n {
      DoublingMore(initial, m, n - 1);
      DoublingOnce(initial, n - 1);
      hide Pow2;
    }
  }

  lemma DoublingOnce(initial: nat, n: nat)
    ensures initial * Pow2(n + 1) == 2 * (initial * Pow2(n))
  {
    var p := Pow2(n);
    assert Pow2(n + 1) == 2 * p;
    Twice(initial, p);
  }

  lemma Twice(x: nat, y: nat)
    ensures x * (2 * y) == 2 * (x * y)
  {
  }

  /** No multiplication overflows 64 bits, whatever the policy. */
  method RetryDelay(p: Policy, failedAttempt: uint32) returns (r: Option<uint64>)
    ensures r.Some? <==> 0 < failedAttempt < p.maxAttempts && p.initialBackoffMillis != 0
    ensures r.Some? ==> r.value as nat == Delay(p, failedAttempt as nat)
    ensures r.Some? && Accepted(p) ==> 0 < r.value as int * NANOSECONDS_PER_MILLISECOND < 0x8000_0000_0000_0000
  {
    if failedAttempt == 0 || failedAttempt >= p.maxAttempts || p.initialBackoffMillis == 0 { return None; }
    var delay := p.initialBackoffMillis;
    var ordinal: uint32 := 1;
    ghost var initial: nat := p.initialBackoffMillis as nat;
    while ordinal < failedAttempt && delay < p.maxBackoffMillis
      invariant 1 <= ordinal <= failedAttempt
      invariant delay as nat == initial * Pow2(ordinal as nat - 1)
      invariant delay > 0
    {
      if delay > p.maxBackoffMillis / 2 {
        DoublingOnce(initial, ordinal as nat - 1);
        DoublingMore(initial, ordinal as nat, failedAttempt as nat - 1);
        delay := p.maxBackoffMillis;
        return Some(delay);
      }
      DoublingOnce(initial, ordinal as nat - 1);
      delay := delay * 2;
      ordinal := ordinal + 1;
    }
    DoublingMore(initial, ordinal as nat - 1, failedAttempt as nat - 1);
    if delay > p.maxBackoffMillis { delay := p.maxBackoffMillis; }
    return Some(delay);
  }

  /** Successive delays never shrink and stay within the policy. */
  lemma DelaysGrow(p: Policy, k: nat, n: nat)
    requires 0 < k <= n
    ensures Delay(p, k) <= Delay(p, n) <= p.maxBackoffMillis as nat
  {
    DoublingMore(p.initialBackoffMillis as nat, k - 1, n - 1);
  }
}
