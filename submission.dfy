/**
 * The arithmetic shared by the five data-submission instructions: the one-hour rate limit,
 * the reward `units * rate * score / 100` in checked u64 arithmetic, and the +1/-1 update
 * of an infrastructure's quality score.
 */
module Submission {
  import opened Types

  /** Minimum spacing between two submissions for the same infrastructure, in seconds. */
  const MIN_SUBMISSION_INTERVAL: int := 3600

  /**
   * `(units * rate * score) / 100` with both products checked: `None` when either product
   * leaves u64 (a panic). The result is the truncated share `score` percent of `units * rate`.
   */
  function ScaledReward(units: U64, rate: U64, score: U8): (r: Option<U64>)
    ensures r.Some? <==> units * rate <= U64_MAX && units * rate * score <= U64_MAX
    ensures r.Some? ==> r.value * 100 <= units * rate * score < (r.value + 1) * 100
  {
    var base := units * rate;
    if base > U64_MAX then None
    else
      var scaled := base * score;
      if scaled > U64_MAX then None else Some(scaled / 100)
  }

  /** A score of at most 100 never pays more than the base `units * rate`. */
  lemma ScaledRewardAtMostBase(units: U64, rate: U64, score: U8)
    requires score <= 100
    requires ScaledReward(units, rate, score).Some?
    ensures ScaledReward(units, rate, score).value <= units * rate
  {
    var base := units * rate;
    assert base * score <= base * 100 by {
      MulMonotone(base, score, 100);
    }
  }

  lemma MulMonotone(a: nat, b: nat, c: nat)
    requires b <= c
    ensures a * b <= a * c
  {
  }

  /**
   * A perfect score pays exactly the base when `base * 100` still fits in u64, and a zero
   * score pays nothing whenever the base fits.
   */
  lemma ScaledRewardEndpoints(units: U64, rate: U64)
    requires units * rate <= U64_MAX
    ensures units * rate * 100 <= U64_MAX ==> ScaledReward(units, rate, 100) == Some(units * rate)
    ensures units * rate * 100 > U64_MAX ==> ScaledReward(units, rate, 100) == None
    ensures ScaledReward(units, rate, 0) == Some(0)
  {
    var base := units * rate;
    assert base * 0 == 0;
    if base * 100 <= U64_MAX {
      assert base * 100 / 100 == base;
    }
  }

  /**
   * The score update as written: `min(100, score + 1)` at or above `high`,
   * `max(0, score - 1)` below `low`. Both operations are checked u8 arithmetic, so
   * `score - 1` at a score of 0 panics (`None`) before `max` can clamp it, and so does
   * `score + 1` at 255.
   */
  function ScoreAfterAsWritten(score: U8, metric: U8, high: U8, low: U8): (r: Option<U8>)
    ensures r.None? <==> (metric >= high && score == U8_MAX) || (metric < high && metric < low && score == 0)
  {
    if metric >= high then
      if score + 1 > U8_MAX then None else Some(Min(100, score + 1))
    else if metric < low then
      if score - 1 < 0 then None else Some(Max(0, score - 1))
    else
      Some(score)
  }

  /** A score that has sunk to 0 makes the next poor submission abort. */
  lemma ScoreAtZeroPanics(high: U8, low: U8)
    requires 0 < low <= high
    ensures ScoreAfterAsWritten(0, 0, high, low).None?
  {
  }

  /**
   * The evidently intended update: +1 capped at 100 for a good metric, -1 floored at 0 for a
   * poor one, unchanged in between.
   */
  function ScoreAfter(score: U8, metric: U8, high: U8, low: U8): (r: U8)
    ensures metric >= high ==> r == Min(100, score + 1) || (score == U8_MAX && r == 100)
    ensures metric < high && metric < low ==> r == Max(0, score - 1)
    ensures metric < high && metric >= low ==> r == score
    ensures score <= 100 ==> r <= 100
  {
    if metric >= high then Min(100, Min(U8_MAX, score + 1))
    else if metric < low then Max(0, score - 1)
    else score
  }

  /** Wherever the code as written does not abort, it agrees with the corrected update. */
  lemma ScoreAfterAgrees(score: U8, metric: U8, high: U8, low: U8)
    requires ScoreAfterAsWritten(score, metric, high, low).Some?
    ensures ScoreAfterAsWritten(score, metric, high, low).value == ScoreAfter(score, metric, high, low)
  {
  }

  /**
   * The guards every submission runs before computing its reward, in the order the
   * instructions run them: the account-ownership constraints, `score <= 100`, a positive
   * unit count, and the one-hour rate limit (whose `i64` subtraction can overflow).
   */
  function SubmissionGate(ownerOk: bool, score: U8, scoreError: Error, units: int, unitsError: Error,
                          last: I64, now: I64): (r: Outcome)
    ensures r == Pass <==> ownerOk && score <= 100 && units > 0 && IntervalElapsed(last, now, MIN_SUBMISSION_INTERVAL) == Some(true)
    ensures !ownerOk ==> r == Fail(ConstraintHasOne)
    ensures ownerOk && score > 100 ==> r == Fail(scoreError)
    ensures ownerOk && score <= 100 && units <= 0 ==> r == Fail(unitsError)
    ensures ownerOk && score <= 100 && units > 0 && IntervalElapsed(last, now, MIN_SUBMISSION_INTERVAL) == Some(false) ==>
              r == Fail(SubmissionTooFrequent)
    ensures ownerOk && score <= 100 && units > 0 && IntervalElapsed(last, now, MIN_SUBMISSION_INTERVAL).None? ==>
              r == Fail(Overflow)
  {
    if !ownerOk then Fail(ConstraintHasOne)
    else if score > 100 then Fail(scoreError)
    else if units <= 0 then Fail(unitsError)
    else match IntervalElapsed(last, now, MIN_SUBMISSION_INTERVAL)
      case None => Fail(Overflow)
      case Some(due) => if due then Pass else Fail(SubmissionTooFrequent)
  }

  /** A submission less than an hour after the previous one is refused, whatever else it carries. */
  lemma SecondSubmissionWithinHourRefused(score: U8, scoreError: Error, units: int, unitsError: Error, last: I64, now: I64)
    requires score <= 100 && units > 0
    requires last <= now < last + MIN_SUBMISSION_INTERVAL
    ensures SubmissionGate(true, score, scoreError, units, unitsError, last, now) == Fail(SubmissionTooFrequent)
  {
  }
}
