/** How long a failed delivery waits before its next attempt, in clock ticks. */
module Backoff {
  import opened Contracts

  function Two(n: nat): (r: nat)
    ensures r >= 1
  {
    if n == 0 then 1 else 2 * Two(n - 1)
  }

  /** The wait after attempt `attempt` failed: doubling, up to a maximum. */
  function Delay(initial: int, max: int, attempt: int): int
    requires attempt >= 1
  {
    Min(initial * Two(attempt - 1), max)
  }

  /** All waits of a chain of `k` attempts: one after each but the last. */
  function Total(initial: int, max: int, k: nat): int {
    if k <= 1 then 0 else Total(initial, max, k - 1) + Delay(initial, max, k - 1)
  }

  lemma TotalGrows(initial: int, max: int, k: nat)
    requires k >= 1
    ensures Total(initial, max, 1) == 0
    ensures Total(initial, max, k + 1) == Total(initial, max, k) + Delay(initial, max, k)
  {
  }

  /** A chain of `k` attempts waits at most as long as doubling alone, and as the maximum alone, would. */
  lemma {:induction false} TotalBound(initial: int, max: int, k: nat)
    requires k >= 1
    ensures Total(initial, max, k) <= initial * (Two(k - 1) - 1)
    ensures Total(initial, max, k) <= (k - 1) * max
  {
    if k > 1 {
      TotalBound(initial, max, k - 1);
      Doubled(initial, Two(k - 2));
      assert Two(k - 1) == 2 * Two(k - 2);
      assert (k - 1) * max == (k - 2) * max + max;
    }
  }

  lemma Doubled(a: int, t: int)
    ensures a * (t - 1) + a * t == a * (2 * t - 1)
  {
  }

  /** The first bound is met exactly as long as the maximum was not reached. */
  lemma {:induction false} TotalExact(initial: int, max: int, k: nat)
    requires k >= 1 && initial >= 0 && (k >= 2 ==> initial * Two(k - 2) <= max)
    ensures Total(initial, max, k) == initial * (Two(k - 1) - 1)
  {
    if k > 1 {
      if k > 2 { assert initial * Two(k - 3) <= initial * Two(k - 2); }
      TotalExact(initial, max, k - 1);
      Doubled(initial, Two(k - 2));
    }
  }

  /** The first wait is the initial one, and each wait is twice the one before; none is longer than the maximum. */
  lemma DelayDoubles(initial: int, max: int, attempt: int)
    requires attempt >= 1 && initial >= 0 && max >= 0
    ensures Delay(initial, max, 1) == if initial <= max then initial else max
    ensures var wait := Delay(initial, max, attempt);
      Delay(initial, max, attempt + 1) == if 2 * wait <= max then 2 * wait else max
  {
    var t := Two(attempt - 1);
    assert Two(attempt) == 2 * t;
    assert initial * (2 * t) == 2 * (initial * t);
    assert Two(0) == 1;
  }

  /** Once the maximum is reached it is waited every time. */
  lemma {:induction false} TotalCapped(initial: int, max: int, m: nat, k: nat)
    requires 1 <= m <= k && initial >= 0 && max >= 0 && Delay(initial, max, m) == max
    ensures Delay(initial, max, k) == max
    ensures Total(initial, max, k) == Total(initial, max, m) + (k - m) * max
  {
    hide Delay;
    if m < k {
      TotalCapped(initial, max, m, k - 1);
      DelayDoubles(initial, max, k - 1);
      TotalGrows(initial, max, k - 1);
      assert (k - m) * max == (k - 1 - m) * max + max;
    }
  }
}
