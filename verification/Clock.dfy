/** Durations shared by the strategy, in milliseconds. */
module Clock {
  const DAY_MS := 86_400_000
  const HOUR_MS := 3_600_000

  /** How far a settlement may stray from its nominal time. */
  const JITTER_MS := 5000

  /** How close to a settlement a perp fill's eligibility is ambiguous. */
  const SETTLEMENT_GUARD_MS := 15_000
}
