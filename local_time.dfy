/**
 * Times of day as java.time.LocalTime stores them (nanoseconds since midnight),
 * and ChronoUnit.MINUTES.between on them: the difference in whole minutes,
 * truncated toward zero as Java's long division does.
 */
module LocalTime {

  const NanosPerMinute: int := 60_000_000_000
  const MinutesPerDay: int := 1440
  const NanosPerDay: int := 86_400_000_000_000

  /** A time of day: nano-of-day, from 00:00 up to but excluding 24:00. */
  type Time = t: int | 0 <= t < NanosPerDay

  /** The time hh:mm:00, as LocalTime.parse("hh:mm:00") gives it. */
  function At(hour: int, minute: int): Time
    requires 0 <= hour < 24 && 0 <= minute < 60
  {
    (hour * 60 + minute) * NanosPerMinute
  }

  /** Minutes between two whole-minute clock readings. */
  lemma ElapsedBetweenClockTimes(h1: int, m1: int, h2: int, m2: int)
    requires 0 <= h1 < 24 && 0 <= m1 < 60 && 0 <= h2 < 24 && 0 <= m2 < 60
    ensures ElapsedMinutes(At(h1, m1), At(h2, m2)) == (h2 * 60 + m2) - (h1 * 60 + m1)
  {
    ElapsedOnMinutes(At(h1, m1), At(h2, m2));
  }

  /** The time falls on a whole minute (no seconds, no nanoseconds). */
  predicate OnMinute(t: Time) {
    t % NanosPerMinute == 0
  }

  /**
   * ChronoUnit.MINUTES.between(from, to): the nanosecond difference divided
   * by a minute, truncated toward zero. It is negative when `to` is earlier
   * than `from` by a minute or more, and it always fits in 32 bits.
   */
  function ElapsedMinutes(from: Time, to: Time): (m: int)
    ensures -MinutesPerDay < m < MinutesPerDay
    ensures from <= to ==> 0 <= m && m * NanosPerMinute <= to - from < (m + 1) * NanosPerMinute
    ensures to < from ==> m <= 0 && (m - 1) * NanosPerMinute < to - from <= m * NanosPerMinute
  {
    var d := to - from;
    if d >= 0 then d / NanosPerMinute else -((-d) / NanosPerMinute)
  }

  /** Truncation toward zero makes the count antisymmetric (flooring would not). */
  lemma ElapsedAntisymmetric(a: Time, b: Time)
    ensures ElapsedMinutes(a, b) == -ElapsedMinutes(b, a)
  {
  }

  /** A longer (signed) stretch of time never counts fewer minutes. */
  lemma ElapsedMonotone(a: Time, b: Time, c: Time, d: Time)
    requires b - a <= d - c
    ensures ElapsedMinutes(a, b) <= ElapsedMinutes(c, d)
  {
  }

  /** Between whole-minute times the count is exact. */
  lemma ElapsedOnMinutes(a: Time, b: Time)
    requires OnMinute(a) && OnMinute(b)
    ensures ElapsedMinutes(a, b) == b / NanosPerMinute - a / NanosPerMinute
  {
    var qa, qb := a / NanosPerMinute, b / NanosPerMinute;
    assert a == qa * NanosPerMinute && b == qb * NanosPerMinute;
    var m := ElapsedMinutes(a, b);
    if a <= b {
      assert m * NanosPerMinute <= (qb - qa) * NanosPerMinute < (m + 1) * NanosPerMinute;
    } else {
      assert (m - 1) * NanosPerMinute < (qb - qa) * NanosPerMinute <= m * NanosPerMinute;
    }
  }

  /** Whole-minute stretches add up exactly, in any order of the three times. */
  lemma ElapsedAdditive(a: Time, b: Time, c: Time)
    requires OnMinute(a) && OnMinute(b) && OnMinute(c)
    ensures ElapsedMinutes(a, b) + ElapsedMinutes(b, c) == ElapsedMinutes(a, c)
  {
    ElapsedOnMinutes(a, b);
    ElapsedOnMinutes(b, c);
    ElapsedOnMinutes(a, c);
  }

  /** Forward stretches lose at most a truncated minute when split in two. */
  lemma ElapsedSuperadditive(a: Time, b: Time, c: Time)
    requires a <= b <= c
    ensures ElapsedMinutes(a, b) + ElapsedMinutes(b, c) <= ElapsedMinutes(a, c)
  {
    var m, n, k := ElapsedMinutes(a, b), ElapsedMinutes(b, c), ElapsedMinutes(a, c);
    assert (m + n) * NanosPerMinute <= c - a < (k + 1) * NanosPerMinute;
  }
}
