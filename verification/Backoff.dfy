/** Exponential backoff. Durations are 64-bit nanosecond counts, so doubling wraps. */
module Backoff {
  const MAX_DELAY: int := 120_000_000_000
  const MIN_DURATION: int := -0x8000_0000_0000_0000
  const DURATIONS: int := 0x1_0000_0000_0000_0000

  predicate IsDuration(d: int) { MIN_DURATION <= d < MIN_DURATION + DURATIONS }

  function Wrapped(d: int): (r: int)
    ensures IsDuration(r) && (IsDuration(d) ==> r == d)
  {
    (d - MIN_DURATION) % DURATIONS + MIN_DURATION
  }

  function Power(n: nat): nat { if n == 0 then 1 else 2 * Power(n - 1) }

  /** The delay without a cap, in unbounded arithmetic. */
  function Ideal(base: int, attempt: int): int { if attempt <= 0 then base else base * Power(attempt) }

  function Capped(d: int): int { if d > MAX_DELAY then MAX_DELAY else d }

  lemma IdealDoubles(base: int, attempt: nat)
    ensures Ideal(base, attempt + 1) == 2 * Ideal(base, attempt)
  {
    if attempt == 0 {
      assert Power(1) == 2 * Power(0);
    } else {
      assert base * (2 * Power(attempt)) == 2 * (base * Power(attempt));
    }
  }

  /** Later attempts move further from zero, on the side of the base. */
  lemma {:induction false} IdealGrows(base: int, m: nat, n: nat)
    requires m <= n
    ensures base >= 0 ==> 0 <= Ideal(base, m) <= Ideal(base, n)
    ensures base < 0 ==> Ideal(base, n) <= Ideal(base, m) < 0
    decreases m + n
  {
    if m < n {
      IdealGrows(base, m, n - 1);
      IdealDoubles(base, n - 1);
    } else if m > 0 {
      IdealGrows(base, m - 1, m - 1);
      IdealDoubles(base, m - 1);
    }
  }

  /** The closed form min(base * 2^attempt, cap) holds exactly when the uncapped delay does
      not underflow, so for every base that is not negative. */
  method CalculateBackoff(base: int, attempt: int) returns (delay: int)
    requires IsDuration(base)
    ensures delay == Capped(Ideal(base, attempt)) <==> Ideal(base, attempt) >= MIN_DURATION
    ensures base >= 0 ==> delay == Capped(Ideal(base, attempt))
  {
    if base >= 0 && attempt > 0 { IdealGrows(base, 0, attempt); }
    if base >= MAX_DELAY { return MAX_DELAY; }
    delay := base;
    var i := 0;
    while i < attempt
      invariant 0 <= i && (i <= attempt || i == 0)
      invariant IsDuration(delay)
      invariant Ideal(base, i) >= MIN_DURATION ==> delay == Ideal(base, i)
      invariant base >= 0 ==> 0 <= delay == Ideal(base, i) <= MAX_DELAY
    {
      IdealDoubles(base, i);
      IdealGrows(base, i, attempt);
      IdealGrows(base, i + 1, attempt);
      if delay >= MAX_DELAY / 2 {
        return MAX_DELAY;
      }
      delay := Wrapped(delay * 2);
      i := i + 1;
    }
  }

  /** A longer run of failures never shortens the delay. */
  lemma BackoffIsMonotone(base: int, m: nat, n: nat)
    requires base >= 0 && m <= n
    ensures 0 <= Capped(Ideal(base, m)) <= Capped(Ideal(base, n)) <= MAX_DELAY
  {
    IdealGrows(base, m, n);
  }
}
