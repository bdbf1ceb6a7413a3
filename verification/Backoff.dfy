/** Retry delays: the closed form of the activation engine, the iterated form of the relay client,
    and the jitter drawn from a delay.  Durations are counted in nanoseconds.  */
module Backoff {
  import opened Wrappers

  const U32_MAX: nat := 0xFFFF_FFFF
  const U64_MAX: nat := 0xFFFF_FFFF_FFFF_FFFF
  const SECOND: nat := 1_000_000_000
  const MILLI: nat := 1_000_000
  const DURATION_MAX: nat := U64_MAX * SECOND + (SECOND - 1)

  function Min(a: nat, b: nat): nat { if a <= b then a else b }

  ghost function Pow2(n: nat): nat { if n == 0 then 1 else 2 * Pow2(n - 1) }

  // --- policy ------------------------------------------------------------------------------

  datatype Policy = Policy(reconcile: nat, initial: nat, maximum: nat, attempts: nat)

  const MAX_BACKOFF_ATTEMPTS: nat := 8

  predicate ValidPolicy(p: Policy) {
    && 5 * SECOND <= p.reconcile <= 60 * SECOND
    && 0 < p.initial <= p.maximum <= 300 * SECOND
    && 1 <= p.attempts <= MAX_BACKOFF_ATTEMPTS
  }

  // --- the closed form ---------------------------------------------------------------------

  // `2_u32.checked_pow(exponent)`, with `u32::MAX` on overflow.
  function Multiplier(exponent: nat): nat
  {
    if exponent == 0 then 1
    else
      var half := Multiplier(exponent - 1);
      if half == U32_MAX || 2 * half > U32_MAX then U32_MAX else 2 * half
  }

  function CheckedMul(d: nat, factor: nat): Option<nat> {
    if d * factor <= DURATION_MAX then Some(d * factor) else None
  }

  // `retry_delay`, for an attempt number as the engine counts it.
  function RetryDelay(p: Policy, attempt: nat): nat {
    var exponent := if attempt == 0 then 0 else attempt - 1;
    match CheckedMul(p.initial, Multiplier(exponent))
    case Some(d) => Min(d, p.maximum)
    case None => p.maximum
  }

  // --- the iterated form -------------------------------------------------------------------

  function Doubled(backoff: nat, maximum: nat): nat {
    Min(if 2 * backoff <= DURATION_MAX then 2 * backoff else DURATION_MAX, maximum)
  }

  // The client's backoff before its `n`-th sleep, counted from zero.
  function Iterated(initial: nat, maximum: nat, n: nat): nat {
    if n == 0 then initial else Doubled(Iterated(initial, maximum, n - 1), maximum)
  }

  lemma {:induction false} Pow2Grows(m: nat, n: nat)
    requires m <= n
    ensures 1 <= Pow2(m) <= Pow2(n)
    decreases n
  {
    if m < n { Pow2Grows(m, n - 1); } else if n > 0 { Pow2Grows(m - 1, n - 1); }
  }

  lemma {:induction false} Pow2At32()
    ensures Pow2(31) == 0x8000_0000 && Pow2(32) == 0x1_0000_0000
  {
    assert Pow2(8) == 256;
    assert Pow2(16) == 65536;
    assert Pow2(24) == 0x100_0000;
    assert Pow2(31) == 0x8000_0000;
  }

  lemma {:induction false} MultiplierIs(exponent: nat)
    ensures Multiplier(exponent) == if exponent <= 31 then Pow2(exponent) else U32_MAX
  {
    if exponent > 0 {
      MultiplierIs(exponent - 1);
      Pow2At32();
      if exponent <= 31 {
        Pow2Grows(exponent, 31);
        Pow2Grows(exponent - 1, 31);
      }
    }
  }

  lemma {:induction false} IteratedIs(initial: nat, maximum: nat, n: nat)
    requires initial <= maximum <= DURATION_MAX
    ensures Iterated(initial, maximum, n) == Min(initial * Pow2(n), maximum)
  {
    if n > 0 {
      IteratedIs(initial, maximum, n - 1);
      MulTwice(initial, Pow2(n - 1));
      DoubledMin(initial * Pow2(n - 1), maximum);
    }
  }

  lemma MulTwice(a: nat, b: nat)
    ensures a * (2 * b) == 2 * (a * b)
  {
  }

  lemma DoubledMin(x: nat, maximum: nat)
    requires maximum <= DURATION_MAX
    ensures Doubled(Min(x, maximum), maximum) == Min(2 * x, maximum)
  {
  }

  lemma MulMonotone(a: nat, b: nat, c: nat)
    requires b <= c
    ensures a * b <= a * c
  {
  }

  lemma {:induction false} ClosedIs(p: Policy, attempt: nat)
    requires ValidPolicy(p) && attempt >= 1
    ensures RetryDelay(p, attempt) == Min(p.initial * Multiplier(attempt - 1), p.maximum)
  {
    assert p.maximum <= DURATION_MAX;
  }

  // For every policy and every attempt number, the two forms agree exactly when the multiplier has
  // not overflowed or its capped value already reaches the maximum.
  lemma {:induction false} FormsAgree(p: Policy, attempt: nat)
    requires ValidPolicy(p) && attempt >= 1
    ensures RetryDelay(p, attempt) == Iterated(p.initial, p.maximum, attempt - 1) <==>
              attempt <= 32 || p.initial * U32_MAX >= p.maximum
  {
    ClosedIs(p, attempt);
    MultiplierIs(attempt - 1);
    IteratedIs(p.initial, p.maximum, attempt - 1);
    if attempt > 32 {
      Pow2At32();
      Pow2Grows(32, attempt - 1);
      MulMonotone(p.initial, U32_MAX + 1, Pow2(attempt - 1));
      assert p.initial * (U32_MAX + 1) == p.initial * U32_MAX + p.initial;
    }
  }

  // So for every attempt a valid policy admits they agree; the delay lies between the bounds and
  // does not shrink from one attempt to the next.
  lemma {:induction false} AdmittedDelays(p: Policy, attempt: nat)
    requires ValidPolicy(p) && 1 <= attempt <= p.attempts
    ensures RetryDelay(p, attempt) == Iterated(p.initial, p.maximum, attempt - 1)
    ensures p.initial <= RetryDelay(p, attempt) <= RetryDelay(p, attempt + 1) <= p.maximum
  {
    FormsAgree(p, attempt);
    FormsAgree(p, attempt + 1);
    IteratedIs(p.initial, p.maximum, attempt - 1);
    IteratedIs(p.initial, p.maximum, attempt);
    Pow2Grows(0, attempt - 1);
    Pow2Grows(attempt - 1, attempt);
    MulMonotone(p.initial, 1, Pow2(attempt - 1));
    MulMonotone(p.initial, Pow2(attempt - 1), Pow2(attempt));
  }

  // --- jitter ------------------------------------------------------------------------------

  function Millis(delay: nat): nat { if delay / MILLI <= U64_MAX then delay / MILLI else U64_MAX }

  function Jitter(delay: nat, sample: nat): nat {
    var ceiling := Millis(delay);
    if ceiling < 2 then delay
    else
      var floor := ceiling / 2;
      var width := ceiling - floor;
      (floor + sample % (width + 1)) * MILLI
  }

  // Over all 64-bit samples the jittered delay takes exactly the whole milliseconds from half the
  // delay to the delay, and none of the sums leaves 64 bits.
  lemma JitterRange(delay: nat, m: nat)
    requires delay <= DURATION_MAX && Millis(delay) >= 2
    ensures (exists sample: nat :: sample <= U64_MAX && Jitter(delay, sample) == m * MILLI) <==>
              Millis(delay) / 2 <= m <= Millis(delay)
    ensures Millis(delay) / 2 + (Millis(delay) - Millis(delay) / 2) <= U64_MAX
  {
    var ceiling := Millis(delay);
    var floor := ceiling / 2;
    var width := ceiling - floor;
    if floor <= m <= ceiling {
      SmallMod(m - floor, width + 1);
      assert Jitter(delay, m - floor) == m * MILLI;
    }
    forall sample: nat | sample <= U64_MAX && Jitter(delay, sample) == m * MILLI ensures floor <= m <= ceiling {
      var k := sample % (width + 1);
      assert k <= width;
      assert (floor + k) * MILLI == m * MILLI;
      assert floor + k == m;
    }
  }

  lemma SmallMod(a: nat, b: nat)
    requires a < b
    ensures a % b == a
  {
  }
}
