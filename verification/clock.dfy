/** Saturating unsigned arithmetic of instants, durations and counters. */
module Clock {
  const U32_MAX: nat := 0xffff_ffff
  const U64_MAX: nat := 0xffff_ffff_ffff_ffff

  /** Nanoseconds since an arbitrary origin. */
  type Instant = n: nat | n <= U64_MAX
  type Duration = n: nat | n <= U64_MAX

  function SaturatingNext(n: nat): nat {
    if n < U32_MAX then n + 1 else n
  }

  /** A count in 32 bits, saturated. */
  function Capped(n: nat): (r: nat)
    ensures r <= U32_MAX && r <= n && (n <= U32_MAX ==> r == n)
  {
    if n <= U32_MAX then n else U32_MAX
  }

  function Later(now: Instant, dt: Duration): Instant {
    if now + dt <= U64_MAX then now + dt else U64_MAX
  }

  /** Zero when `earlier` is in the future. */
  function Since(now: Instant, earlier: Instant): Duration {
    if earlier <= now then now - earlier else 0
  }

  function Millis(ms: nat): Duration {
    if ms * 1_000_000 <= U64_MAX then ms * 1_000_000 else U64_MAX
  }
}
