/** Loop rates, frame deadlines and command ages. */
module Timing {
  import opened Clock

  const SECOND: nat := 1_000_000_000
  const COMMAND_MAX_AGE_MS: nat := 100

  // ---- rates ----

  /** A rate in whole hertz; zero never admits anything. */
  function FromPeriod(period: nat): nat {
    if period == 0 then 0 else SECOND / period
  }

  function PeriodOf(hz: nat): nat {
    if hz == 0 then U64_MAX else SECOND / hz
  }

  predicate Admits(hz: nat, compute: nat) { hz != 0 && compute <= PeriodOf(hz) }

  lemma DivisionBound(n: nat, d: nat, q: nat)
    requires d > 0
    ensures q * d <= n <==> q <= n / d
  {
    var r := n / d;
    assert r * d <= n < r * d + d;
    if q <= r {
      Multiply(q, r, d);
    } else {
      Multiply(r + 1, q, d);
    }
  }

  lemma Multiply(a: nat, b: nat, d: nat)
    requires a <= b
    ensures a * d <= b * d
  {
  }

  lemma QuotientSwap(n: nat, h: nat)
    requires 0 < h && 0 < n / h
    ensures h <= n / (n / h)
  {
    var q := n / h;
    DivisionBound(n, h, q);
    assert h * q == q * h;
    DivisionBound(n, q, h);
  }

  lemma QuotientFalls(n: nat, h: nat, k: nat)
    requires 0 < h <= k
    ensures n / k <= n / h
  {
    var z := n / k;
    DivisionBound(n, k, z);
    Multiply(h, k, z);
    assert z * h == h * z && z * k == k * z;
    DivisionBound(n, h, z);
  }

  /** Dividing by a quotient twice over comes back: n / (n / (n / h)) = n / h. */
  lemma TripleQuotient(n: nat, h: nat)
    requires 0 < h && 0 < n / h
    ensures 0 < n / (n / h) && n / (n / (n / h)) == n / h
  {
    QuotientSwap(n, h);
    QuotientSwap(n, n / h);
    QuotientFalls(n, h, n / (n / h));
  }

  /** The rate read off a period, its own period, and the rate read off that, agree. */
  lemma RateIsStable(period: nat)
    requires period <= U64_MAX
    ensures FromPeriod(PeriodOf(FromPeriod(period))) == FromPeriod(period)
  {
    if period != 0 && SECOND / period != 0 {
      TripleQuotient(SECOND, period);
    } else {
      assert SECOND / U64_MAX == 0;
    }
  }

  // ---- frame deadlines ----

  datatype DeadlineSpec = DeadlineSpec(period: nat, budget: nat) {
    predicate Valid() { 0 < budget <= period <= U64_MAX }
  }

  const HZ_50: DeadlineSpec := DeadlineSpec(20_000_000, 16_000_000)

  datatype Outcome = Met(compute: nat) | Missed(compute: nat, budget: nat)

  function DeadlineOutcome(compute: nat, spec: DeadlineSpec): Outcome {
    if compute <= spec.budget then Met(compute) else Missed(compute, spec.budget)
  }

  /** The three checks of a rack frame: the outcome, the typed deadline and the loop rate. */
  predicate FrameMissed(compute: nat, spec: DeadlineSpec, hz: nat) {
    DeadlineOutcome(compute, spec).Missed? || !(compute <= spec.budget)
    || !(PeriodOf(hz) == spec.period && Admits(hz, compute))
  }

  /** Some whole rate has this period, rounded down to a nanosecond. */
  ghost predicate RatePeriod(period: nat) { exists h: nat :: h >= 1 && period == SECOND / h }

  /** A frame under a valid spec is counted missed exactly when it overran its budget or no whole
      rate has the spec's period - then every frame is missed, however fast. */
  lemma FrameMissedIff(compute: nat, spec: DeadlineSpec)
    requires spec.Valid()
    ensures FrameMissed(compute, spec, FromPeriod(spec.period)) <==> compute > spec.budget || !RatePeriod(spec.period)
  {
    var hz := FromPeriod(spec.period);
    if RatePeriod(spec.period) {
      var h: nat :| h >= 1 && spec.period == SECOND / h;
      TripleQuotient(SECOND, h);
    } else if hz != 0 {
      assert spec.period != SECOND / hz;
    }
  }

  /** A caller can tell such periods before the call: the rate read off one has it back. */
  lemma RatePeriodIff(period: nat)
    requires period > 0
    ensures RatePeriod(period) <==> SECOND / period != 0 && SECOND / (SECOND / period) == period
  {
    if RatePeriod(period) {
      var h: nat :| h >= 1 && period == SECOND / h;
      TripleQuotient(SECOND, h);
    } else if SECOND / period != 0 {
      var h: nat := SECOND / period;
      assert h >= 1 && period != SECOND / h;
    }
  }

  /** Three tenths of a second are the period of no whole rate: every frame of it is missed. */
  lemma OddPeriodAlwaysMisses(compute: nat, budget: nat)
    requires 0 < budget <= 300_000_000
    ensures FrameMissed(compute, DeadlineSpec(300_000_000, budget), FromPeriod(300_000_000))
  {
    RatePeriodIff(300_000_000);
    FrameMissedIff(compute, DeadlineSpec(300_000_000, budget));
  }

  type Triple = (real, real, real)

  const ZERO: Triple := (0.0, 0.0, 0.0)

  /** What reaches the plant; a frame after a miss gets nothing. */
  function CommandAfterDeadline(missed: bool, next: Triple): Triple { if missed then ZERO else next }

  // ---- command age ----

  function AgeMs(now: Instant, issued: Instant): nat {
    Capped(Since(now, issued) / 1_000_000)
  }

  predicate CommandAgeOk(ageMs: nat) { ageMs < COMMAND_MAX_AGE_MS }

  /** Last instant at which a command may still actuate. */
  function CommandDeadline(issued: Instant): Instant { Later(issued, Millis(COMMAND_MAX_AGE_MS - 1)) }

  predicate WithinDeadline(now: Instant, issued: Instant) {
    now <= CommandDeadline(issued) && CommandAgeOk(AgeMs(now, issued))
  }

  /** The deadline is the binding half: a command is admitted up to 99 ms old. */
  lemma WithinDeadlineIff(now: Instant, issued: Instant)
    ensures WithinDeadline(now, issued) <==> Since(now, issued) <= 99_000_000
  {
  }

  /** The deadline and the age bound, documented to match, disagree exactly on commands strictly
      between 99 ms and 100 ms old. */
  lemma DeadlineDisagreesIff(now: Instant, issued: Instant)
    ensures CommandAgeOk(AgeMs(now, issued)) != (now <= CommandDeadline(issued))
       <==> 99_000_000 < Since(now, issued) < 100_000_000
  {
  }
}
