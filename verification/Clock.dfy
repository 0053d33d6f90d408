/** Instants and durations, in nanoseconds. */
module Clock {
  const MILLISECOND: nat := 1_000_000
  const SECOND: nat := 1_000_000_000

  /** The time elapsed since an earlier instant; a clock that went back counts as no time. */
  function Since(start: nat, now: nat): nat {
    if now < start then 0 else now - start
  }
}
