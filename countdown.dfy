/**
 * The countdown of hooks/useCountdown.ts. Times are integer milliseconds and
 * "now" is a parameter; `Math.floor` of a quotient of non-negative numbers is
 * integer division.
 */
module Countdown {

  const MsPerSecond := 1000
  const MsPerMinute := 60 * MsPerSecond
  const MsPerHour := 60 * MsPerMinute
  const MsPerDay := 24 * MsPerHour

  datatype TimeLeft = TimeLeft(days: int, hours: int, minutes: int, seconds: int, isOver: bool)

  /** The value `calculateTimeLeft` starts from and keeps once the target is reached. */
  const Expired := TimeLeft(0, 0, 0, 0, true)

  /** Fields within the ranges of a clock: hours below 24, minutes and seconds below 60, nothing negative. */
  predicate InRange(t: TimeLeft) {
    0 <= t.days && 0 <= t.hours < 24 && 0 <= t.minutes < 60 && 0 <= t.seconds < 60
  }

  /** The whole seconds a time left stands for. */
  function WholeSeconds(t: TimeLeft): int {
    t.days * 86400 + t.hours * 3600 + t.minutes * 60 + t.seconds
  }

  /** `calculateTimeLeft(target)` evaluated at instant `now`. */
  function CalculateTimeLeft(target: int, now: int): (t: TimeLeft)
    ensures t.isOver <==> target - now <= 0
    ensures t.isOver ==> t == Expired
    ensures InRange(t)
  {
    var difference := target - now;
    if difference > 0 then
      TimeLeft(difference / MsPerDay,
               (difference / MsPerHour) % 24,
               (difference / MsPerMinute) % 60,
               (difference / MsPerSecond) % 60,
               false)
    else
      Expired
  }

  /** The fields add back up to the remaining time in whole seconds; the sub-second rest is dropped. */
  lemma Reconstruct(target: int, now: int)
    ensures target - now > 0 ==> WholeSeconds(CalculateTimeLeft(target, now)) == (target - now) / 1000
    ensures target - now <= 0 ==> WholeSeconds(CalculateTimeLeft(target, now)) == 0
  {
    var d := target - now;
    if d > 0 {
      var s := d / 1000;
      var m := s / 60;
      var h := m / 60;
      var days := h / 24;
      QuotientOf(d, 60000, m, s % 60 * 1000 + d % 1000);
      QuotientOf(d, 3600000, h, m % 60 * 60000 + s % 60 * 1000 + d % 1000);
      QuotientOf(d, 86400000, days, h % 24 * 3600000 + m % 60 * 60000 + s % 60 * 1000 + d % 1000);
    }
  }

  /** Less than a second before the target every field is zero, and yet the countdown is not over. */
  lemma LastSecond(target: int, now: int)
    requires 0 < target - now < 1000
    ensures CalculateTimeLeft(target, now) == TimeLeft(0, 0, 0, 0, false)
  {
  }

  /** Only the difference between target and now matters. */
  lemma OnlyDifferenceMatters(target: int, now: int, target': int, now': int)
    requires target - now == target' - now'
    ensures CalculateTimeLeft(target, now) == CalculateTimeLeft(target', now')
  {
  }

  /**
   * Decomposition is one-to-one: any in-range fields, read back at their
   * whole seconds plus a sub-second rest, come out unchanged.
   */
  lemma RoundTrip(t: TimeLeft, now: int, ms: int)
    requires InRange(t) && !t.isOver
    requires 0 <= ms < 1000 && WholeSeconds(t) * 1000 + ms > 0
    ensures CalculateTimeLeft(now + WholeSeconds(t) * 1000 + ms, now) == t
  {
    var h := t.days * 24 + t.hours;
    var m := h * 60 + t.minutes;
    var s := m * 60 + t.seconds;
    var d := s * 1000 + ms;
    assert s == WholeSeconds(t);
    QuotientOf(d, 1000, s, ms);
    QuotientOf(s, 60, m, t.seconds);
    QuotientOf(d, 60000, m, t.seconds * 1000 + ms);
    QuotientOf(m, 60, h, t.minutes);
    QuotientOf(d, 3600000, h, t.minutes * 60000 + t.seconds * 1000 + ms);
    QuotientOf(h, 24, t.days, t.hours);
    QuotientOf(d, 86400000, t.days, t.hours * 3600000 + t.minutes * 60000 + t.seconds * 1000 + ms);
  }

  /** Euclidean division is unique: x = q * n + r with 0 <= r < n fixes the quotient and the remainder. */
  lemma QuotientOf(x: int, n: int, q: int, r: int)
    requires 0 < n && 0 <= r < n && x == q * n + r
    ensures x / n == q && x % n == r
  {
    var k := x / n - q;
    assert k * n == x / n * n - q * n;
    MulSign(k, n);
  }

  /** A non-zero multiple of a positive n is at least n away from zero. */
  lemma {:induction false} MulSign(k: int, n: int)
    requires 0 < n
    ensures k >= 1 ==> k * n >= n
    ensures k <= -1 ==> k * n <= -n
    decreases if k < 0 then -k else k
  {
    if k > 1 {
      MulSign(k - 1, n);
      assert k * n == (k - 1) * n + n;
    } else if k < -1 {
      MulSign(k + 1, n);
      assert k * n == (k + 1) * n - n;
    }
  }

  /** The state cell of `useCountdown`: its first value is `calculateTimeLeft(target)` at mount time. */
  class CountdownHook {
    const targetDate: int
    var timeLeft: TimeLeft

    constructor(targetDate: int, mountTime: int)
      ensures this.targetDate == targetDate
      ensures timeLeft == CalculateTimeLeft(targetDate, mountTime)
    {
      this.targetDate := targetDate;
      timeLeft := CalculateTimeLeft(targetDate, mountTime);
    }
  }
}
