/** Arithmetic and units the other modules share. */
module Basics {
  /** Durations and times are in nanoseconds. */
  const SECOND: int := 1_000_000_000

  function Min(a: int, b: int): int { if a < b then a else b }
  function Max(a: int, b: int): int { if a < b then b else a }

  function Pow2(k: nat): nat {
    if k == 0 then 1 else 2 * Pow2(k - 1)
  }
}
