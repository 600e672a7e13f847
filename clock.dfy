/** Time as the core uses it: "now" as integer milliseconds, the local wall-clock reading
    `getHours`/`getMinutes`/`getDay` give, and the schedule-matching rule built on it. */
module Clock {
  import opened Text

  const MS_PER_HOUR: int := 1000 * 60 * 60
  const MS_PER_DAY: int := 1000 * 60 * 60 * 24
  /** "Seven days from now", taken as seven days of 24 hours. */
  const WEEK_MS: int := 7 * MS_PER_DAY

  const DAY_NAMES: seq<string> := ["Sun", "Mon", "Tue", "Wed", "Thu", "Fri", "Sat"]

  /** The local reading of a `Date`: hour, minute and weekday (0 = Sunday). */
  datatype Reading = Reading(hour: int, minute: int, weekday: int)

  type WallClock = c: Reading | 0 <= c.hour < 24 && 0 <= c.minute < 60 && 0 <= c.weekday < 7
    witness Reading(0, 0, 0)

  /** `HH:MM` with both parts zero-padded to two digits. */
  function CurrentTime(c: WallClock): (t: string)
    ensures |t| == 5 && t[2] == ':'
  {
    Pad2(c.hour) + ":" + Pad2(c.minute)
  }

  /** Reads the hour and minute back out of an `HH:MM` string. */
  function ParseTime(t: string): (int, int)
    requires |t| == 5 && IsDigit(t[0]) && IsDigit(t[1]) && IsDigit(t[3]) && IsDigit(t[4])
  {
    (DigitValue(t[0]) * 10 + DigitValue(t[1]), DigitValue(t[3]) * 10 + DigitValue(t[4]))
  }

  /** The time string determines the hour and the minute: reading it back gives both. */
  lemma CurrentTimeParses(c: WallClock)
    ensures var t := CurrentTime(c);
      IsDigit(t[0]) && IsDigit(t[1]) && IsDigit(t[3]) && IsDigit(t[4]) &&
      ParseTime(t) == (c.hour, c.minute)
  {
    var t := CurrentTime(c);
    assert t[..2] == Pad2(c.hour) && t[3..] == Pad2(c.minute);
  }

  /** Two readings give the same time string exactly when hour and minute agree. */
  lemma CurrentTimeInjective(c1: WallClock, c2: WallClock)
    ensures CurrentTime(c1) == CurrentTime(c2) <==> c1.hour == c2.hour && c1.minute == c2.minute
  {
    CurrentTimeParses(c1);
    CurrentTimeParses(c2);
  }

  /** The weekday name of `['Sun', ..., 'Sat'][getDay()]`. */
  function CurrentDay(c: WallClock): (d: string)
    ensures d in DAY_NAMES
  {
    DAY_NAMES[c.weekday]
  }

  /** The rule every reminder check applies to a schedule: it is active, and the current
      `HH:MM` and the current day name are among its times and its days. */
  predicate Due(isActive: bool, timesOfDay: seq<string>, repeatDays: seq<string>, c: WallClock) {
    isActive && CurrentTime(c) in timesOfDay && CurrentDay(c) in repeatDays
  }

  /** `Math.ceil(a / b)` for a positive divisor. */
  function CeilDiv(a: int, b: int): (q: int)
    requires b > 0
    ensures (q - 1) * b < a <= q * b
  {
    -((-a) / b)
  }

  /** Multiplying by a positive number keeps the order. */
  lemma MulMonotone(x: int, y: int, b: int)
    requires b > 0 && x <= y
    ensures x * b <= y * b
  {
    var d := y - x;
    assert d * b >= 0;
    assert y * b == x * b + d * b;
  }

  /** `Math.ceil(a / b) <= k` says exactly `a <= k * b`. */
  lemma CeilDivAtMost(a: int, b: int, k: int)
    requires b > 0
    ensures CeilDiv(a, b) <= k <==> a <= k * b
  {
    var q := CeilDiv(a, b);
    if q <= k {
      MulMonotone(q, k, b);
    } else {
      MulMonotone(k, q - 1, b);
    }
  }

  /** `now <= expiry <= now + 7 days`. */
  predicate WithinWeek(expiry: int, now: int) {
    now <= expiry <= now + WEEK_MS
  }
}
