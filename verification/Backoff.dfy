/** The two retry delays: the dispatcher's loop and the consumer's doubling in place. */
module Backoff {
  function Min(a: int, b: int): int {
    if a < b then a else b
  }

  function Doubled(base: int, n: nat): int {
    if n == 0 then base else 2 * Doubled(base, n - 1)
  }

  /** base, 2*base, 4*base, .. capped at `cap`; `n` counts the doublings. */
  function Delay(base: int, cap: int, n: nat): int {
    Min(Doubled(base, n), cap)
  }

  function Pow2(n: nat): (p: nat)
    ensures 1 <= p
  {
    if n == 0 then 1 else 2 * Pow2(n - 1)
  }

  /** Powers of two. */
  lemma {:induction false} PowersMultiply(m: nat, n: nat)
    ensures Pow2(0) == 1 && Pow2(1) == 2 && Pow2(m + n) == Pow2(m) * Pow2(n)
  {
    if m > 0 {
      PowersMultiply(m - 1, n);
    }
  }

  lemma {:induction false} DoubledIsPower(base: int, n: nat)
    ensures Doubled(base, n) == base * Pow2(n)
  {
    if n > 0 {
      DoubledIsPower(base, n - 1);
    }
  }

  /** The closed form: min(base * 2^n, cap). */
  lemma {:induction false} ClosedForm(base: int, cap: int, n: nat)
    ensures Delay(base, cap, n) == Min(base * Pow2(n), cap)
  {
    DoubledIsPower(base, n);
  }

  lemma {:induction false} DoubledGrows(base: int, m: nat, n: nat)
    requires 0 <= base && m <= n
    ensures 0 <= Doubled(base, m) <= Doubled(base, n)
    decreases n
  {
    if m < n {
      DoubledGrows(base, m, n - 1);
    } else if 0 < n {
      DoubledGrows(base, n - 1, n - 1);
    }
  }

  /** Doubling a capped delay and capping again is the next capped delay. */
  lemma NextDelay(base: int, cap: int, n: nat)
    requires 0 <= base && 0 <= cap
    ensures Min(2 * Delay(base, cap, n), cap) == Delay(base, cap, n + 1)
  {
  }

  /**
   `backoff` of the dispatcher, after failed attempt `attempt`. `peak` is the largest
   value the loop variable took, which is what could overflow a 64-bit duration.
   */
  method Compute(attempt: int, base: int, maxDelay: int) returns (wait: int, ghost peak: int)
    requires 0 < base && 0 < maxDelay
    ensures wait == Delay(base, maxDelay, if attempt < 1 then 0 else attempt - 1)
    ensures wait <= maxDelay && (attempt <= 1 ==> wait == base || wait == maxDelay < base)
    ensures peak <= base || peak < 2 * maxDelay
  {
    var d, i := base, 1;
    peak := d;
    while i < attempt && d < maxDelay
      invariant 1 <= i && (i <= attempt || i == 1)
      invariant d == Doubled(base, i - 1)
      invariant peak == d && (peak <= base || peak < 2 * maxDelay)
    {
      d, i := d * 2, i + 1;
      peak := d;
    }
    if i < attempt {
      DoubledGrows(base, i - 1, attempt - 1);
    }
    wait := if d < maxDelay then d else maxDelay;
  }

  /** Later attempts never wait less. */
  lemma DelaysGrow(base: int, cap: int, m: nat, n: nat)
    requires 0 <= base && m <= n
    ensures Delay(base, cap, m) <= Delay(base, cap, n) <= cap
  {
    DoubledGrows(base, m, n);
  }
}
