/** The display rules of a medication card: stock and expiry flags, the schedule line and
    the unit label. */
module MedicationCard {
  import opened Wrappers
  import opened Text
  import opened Clock
  import opened ClientData
  import Records

  function Abs(x: int): nat {
    if x < 0 then -x else x
  }

  /** `Math.ceil(Math.abs(expiry - now) / 86400000)`: whole days either side of today. */
  function DaysUntilExpiry(expiry: int, now: int): (d: nat)
    ensures (d - 1) * MS_PER_DAY < Abs(expiry - now) <= d * MS_PER_DAY
  {
    var q := CeilDiv(Abs(expiry - now), MS_PER_DAY);
    CeilDivAtMost(Abs(expiry - now), MS_PER_DAY, -1);
    q
  }

  /** `quantity <= 5`. */
  predicate IsLowStock(quantity: real) {
    quantity <= Records.LOW_STOCK_THRESHOLD
  }

  /** A card shows the low-stock badge exactly for the medicines the server's low-stock
      query returns. */
  lemma LowStockBadgeMatchesQuery(ms: seq<Records.Medicine>, m: Records.Medicine)
    requires m in ms
    ensures IsLowStock(m.quantity) <==> m in Records.LowStockRows(ms)
  {
  }

  /** `daysUntilExpiry() <= 7`. */
  predicate IsExpiringSoon(expiry: int, now: int) {
    DaysUntilExpiry(expiry, now) <= 7
  }

  /** The flag is raised exactly when the expiry lies within a week of now, on either side:
      a medication that expired less than a week ago is flagged too. */
  lemma ExpiringSoonExactly(expiry: int, now: int)
    ensures IsExpiringSoon(expiry, now) <==> now - WEEK_MS <= expiry <= now + WEEK_MS
  {
    CeilDivAtMost(Abs(expiry - now), MS_PER_DAY, 7);
  }

  /** The count is never negative: an expiry in the past reports at least one day. */
  lemma PastExpiryCountsForward(expiry: int, now: int)
    requires expiry < now
    ensures DaysUntilExpiry(expiry, now) >= 1
  {
    CeilDivAtMost(Abs(expiry - now), MS_PER_DAY, 0);
  }

  const NO_SCHEDULE: string := "No schedule set"

  /** `const [hour, minute] = time.split(':'); return `${hour}:${minute}``. A time without a
      colon gives the string "undefined" for the minute. */
  function ReformatTime(t: string): string {
    var parts := Split(t, ':');
    parts[0] + ":" + (if |parts| >= 2 then parts[1] else "undefined")
  }

  /** A time is shown unchanged exactly when it has a single colon. */
  lemma ReformatTimeUnchanged(t: string)
    ensures ReformatTime(t) == t <==> |Split(t, ':')| == 2
  {
    var parts := Split(t, ':');
    JoinSplit(t, ':');
    if |parts| == 1 {
      assert |ReformatTime(t)| == |t| + 10;
    } else if |parts| == 2 {
      assert parts[1..] == [parts[1]];
    } else {
      var rest := Join(parts[1..], [':']);
      assert parts[1..][1..] == parts[2..];
      assert rest == parts[1] + [':'] + Join(parts[2..], [':']);
      assert |ReformatTime(t)| < |t|;
    }
  }

  /** An `HH:MM` time of the clock is shown as it is. */
  lemma ClockTimeShownAsIs(c: WallClock)
    ensures ReformatTime(CurrentTime(c)) == CurrentTime(c)
  {
    var t := CurrentTime(c);
    assert t[..2] == Pad2(c.hour) && t[3..] == Pad2(c.minute);
    assert ':' !in t[..2];
    assert IndexOf(t, ':') == Some(2);
    assert ':' !in t[3..];
    assert Split(t, ':') == [t[..2]] + Split(t[3..], ':');
    assert |Split(t, ':')| == 2;
    ReformatTimeUnchanged(t);
  }

  /** `schedules[i].timesOfDay.map(reformat)`. */
  function ReformatTimes(ts: seq<string>): (r: seq<string>)
    ensures |r| == |ts| && forall i :: 0 <= i < |ts| ==> r[i] == ReformatTime(ts[i])
  {
    seq(|ts|, i requires 0 <= i < |ts| => ReformatTime(ts[i]))
  }

  /** `getScheduleDisplay`: only the first schedule is shown, as its days, " at ", and its
      times. */
  function ScheduleDisplay(schedules: Option<seq<ClientSchedule>>): (r: string)
    ensures schedules.None? || schedules.value == [] ==> r == NO_SCHEDULE
    ensures schedules.Some? && schedules.value != [] ==>
      r == Join(schedules.value[0].repeatDays, ", ") + " at " + Join(ReformatTimes(schedules.value[0].timesOfDay), ", ")
  {
    if schedules.None? || |schedules.value| == 0 then NO_SCHEDULE
    else
      var s := schedules.value[0];
      Join(s.repeatDays, ", ") + " at " + Join(ReformatTimes(s.timesOfDay), ", ")
  }

  /** Schedules after the first never change the line. */
  lemma OnlyFirstScheduleShown(first: ClientSchedule, rest1: seq<ClientSchedule>, rest2: seq<ClientSchedule>)
    ensures ScheduleDisplay(Some([first] + rest1)) == ScheduleDisplay(Some([first] + rest2))
  {
    assert ([first] + rest1)[0] == first && ([first] + rest2)[0] == first;
  }

  /** `getUnitDisplay`. */
  function UnitDisplay(unit: string): string {
    match unit
    case "PILLS" => "pills"
    case "ML" => "ml"
    case "MG" => "mg"
    case "G" => "g"
    case _ => LowerStr(unit)
  }

  /** Every branch of the switch is the lowercased unit. */
  lemma UnitDisplayIsLowercase(unit: string)
    ensures UnitDisplay(unit) == LowerStr(unit)
  {
    if unit == "PILLS" {
      assert LowerStr(unit) == "pills";
    } else if unit == "ML" {
      assert LowerStr(unit) == "ml";
    } else if unit == "MG" {
      assert LowerStr(unit) == "mg";
    } else if unit == "G" {
      assert LowerStr(unit) == "g";
    }
  }
}
