/**
 * The integer helpers of the program's utility module: string-length validation,
 * the performance multiplier, the APY conversion, the reputation update and the
 * sensor-range check. All of them are pure.
 */
module Utils {
  import opened Types

  /** Seconds in a 365-day year times 100: the divisor that turns APY basis points into a per-second rate. */
  const SECONDS_PER_YEAR_TIMES_100: int := 365 * 24 * 3600 * 100

  /** `validate_string_length`: a string is accepted iff its byte length is within `maxLen`. */
  function ValidateStringLength(s: Bytes, maxLen: nat): (r: Outcome)
    ensures r == Pass <==> |s| <= maxLen
    ensures r != Pass ==> r == Fail(ConstraintRaw)
  {
    if |s| <= maxLen then Pass else Fail(ConstraintRaw)
  }

  /**
   * `calculate_performance_multiplier`: a 20% bonus at or above the excellent threshold,
   * the standard 100 at or above the poor threshold, a 20% penalty below both.
   */
  function PerformanceMultiplier(score: U8, excellent: U8, poor: U8): (r: U64)
    ensures r == 80 || r == 100 || r == 120
    ensures r == 120 <==> score >= excellent
    ensures r == 100 <==> poor <= score < excellent
    ensures r == 80 <==> score < excellent && score < poor
  {
    if score >= excellent then 120
    else if score >= poor then 100
    else 80
  }

  /**
   * `apy_to_per_second_rate`: truncating division by 365*24*3600*100. The result is the
   * largest rate whose yearly total does not exceed the input.
   */
  function ApyToPerSecondRate(apyBasisPoints: U64): (r: U64)
    ensures r * SECONDS_PER_YEAR_TIMES_100 <= apyBasisPoints < (r + 1) * SECONDS_PER_YEAR_TIMES_100
  {
    apyBasisPoints / SECONDS_PER_YEAR_TIMES_100
  }

  /** Every APY below one "year of seconds" truncates to a per-second rate of zero. */
  lemma PerSecondRateZeroBelowYear(apyBasisPoints: U64)
    requires apyBasisPoints < SECONDS_PER_YEAR_TIMES_100
    ensures ApyToPerSecondRate(apyBasisPoints) == 0
  {
  }

  /**
   * `update_reputation_score`: +1 capped at 100 for excellent performance, a saturating -2
   * for poor performance, unchanged in between. `current_score + 1` is a checked u8 addition,
   * so a score of 255 with excellent performance panics (`None`).
   */
  function UpdateReputationScore(currentScore: U8, performanceScore: U8, excellent: U8, poor: U8): (r: Option<U8>)
    ensures r.None? <==> performanceScore >= excellent && currentScore == U8_MAX
    ensures r.Some? && performanceScore >= excellent ==>
              (currentScore < 100 ==> r.value == currentScore + 1) && (currentScore >= 100 ==> r.value == 100)
    ensures r.Some? && performanceScore < excellent && performanceScore < poor ==>
              (currentScore >= 2 ==> r.value == currentScore - 2) && (currentScore < 2 ==> r.value == 0)
    ensures r.Some? && poor <= performanceScore < excellent ==> r.value == currentScore
  {
    if performanceScore >= excellent then
      if currentScore + 1 > U8_MAX then None else Some(Min(100, currentScore + 1))
    else if performanceScore < poor then
      Some(Max(0, if currentScore >= 2 then currentScore - 2 else 0))
    else
      Some(currentScore)
  }

  /** A reputation score within 0..100 stays within 0..100 and never panics. */
  lemma ReputationStaysInRange(currentScore: U8, performanceScore: U8, excellent: U8, poor: U8)
    requires currentScore <= 100
    ensures var r := UpdateReputationScore(currentScore, performanceScore, excellent, poor);
            r.Some? && 0 <= r.value <= 100
  {
  }

  /** `validate_sensor_data`: moisture and humidity are percentages, pH is 0..14, temperature -50..70. */
  predicate ValidateSensorData(soilMoisture: U8, temperature: I16, humidity: U8, phLevel: U8)
  {
    soilMoisture <= 100 && -50 <= temperature <= 70 && humidity <= 100 && phLevel <= 14
  }
}
