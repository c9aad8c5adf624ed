/** Conversion of a caller's duration (nanoseconds) to the store's clock unit (milliseconds). */
module Duration {
  import opened VTime

  const NANOS_PER_MS := 1_000_000

  /** Go's quotient and remainder truncate toward zero; the remainder bumps the quotient. */
  function DurationMillis(d: int64): (ms: int64)
    ensures d >= 0 ==> (ms - 1) * NANOS_PER_MS < d <= ms * NANOS_PER_MS
    ensures d > 0 ==> ms > 0
  {
    var ms := TruncDiv(d, NANOS_PER_MS);
    if TruncMod(d, NANOS_PER_MS) != 0 then ms + 1 else ms
  }

  /**
   The result is the ceiling exactly on non-negative durations and whole
   milliseconds: a negative fractional duration is rounded past its ceiling,
   which is why every caller checks the sign first.
   */
  lemma CeilingIff(d: int64)
    ensures (DurationMillis(d) - 1) * NANOS_PER_MS < d <= DurationMillis(d) * NANOS_PER_MS
       <==> d >= 0 || d % NANOS_PER_MS == 0
  {
    if d < 0 {
      var n := 0 - d as int;
      assert n == n / NANOS_PER_MS * NANOS_PER_MS + n % NANOS_PER_MS;
    }
  }
}
