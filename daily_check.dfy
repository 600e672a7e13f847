/** The daily checks: low-stock, expiry and schedule notifications with a typed `data`
    payload. Each check runs over every user's rows and catches its own query errors. */
module DailyCheckService {
  import opened Wrappers
  import opened JsValues
  import opened Clock
  import opened Records
  import ScheduleChecker

  const LOW_STOCK_TITLE: string := "Low Medicine Stock Alert"
  const EXPIRY_TITLE: string := "Medicine Expiring Soon"
  const REMINDER_TITLE: string := "Medicine Reminder"

  /** The `type: 'low_stock'` notification. */
  function LowStockPush(m: Medicine, ops: NumberOps): Push {
    Push(m.userId, LOW_STOCK_TITLE,
         "Your " + m.name + " is running low (" + ops.show(m.quantity) + " " + m.unit + " remaining)",
         LowStockAlert(m.id))
  }

  /** `Math.ceil((expiryDate - now) / 86400000)`. */
  function DaysUntilExpiry(m: Medicine, now: int): int {
    CeilDiv(m.expiryDate - now, MS_PER_DAY)
  }

  /** The `type: 'expiring'` notification, with the day count in its text. */
  function ExpiryPush(m: Medicine, now: int, ops: NumberOps): Push {
    Push(m.userId, EXPIRY_TITLE,
         "Your " + m.name + " will expire in " + ops.show(DaysUntilExpiry(m, now) as real) + " days",
         ExpiringAlert(m.id))
  }

  /** The included `userMedicine` of a schedule. */
  function MedicineOf(ms: seq<Medicine>, s: Schedule): (m: Medicine)
    requires exists m :: m in ms && m.id == s.userMedicineId
    ensures m in ms && m.id == s.userMedicineId
  {
    if ms[0].id == s.userMedicineId then ms[0] else MedicineOf(ms[1..], s)
  }

  /** The `type: 'schedule'` notification: the medicine's name and unit with the
      schedule's dose. */
  function ReminderPush(ms: seq<Medicine>, s: Schedule, ops: NumberOps): Push
    requires exists m :: m in ms && m.id == s.userMedicineId
  {
    var m := MedicineOf(ms, s);
    Push(s.userId, REMINDER_TITLE,
         "Time to take " + m.name + " (" + ops.show(s.dosageAmount) + " " + m.unit + ")",
         ScheduleAlert(s.userMedicineId, s.id))
  }

  /** `checkLowStock`: one push per medicine at or below the threshold, in query order. */
  method CheckLowStock(table: Result<seq<Medicine>>, ops: NumberOps) returns (sent: seq<Push>)
    ensures table.Err? ==> sent == []
    ensures table.Ok? ==>
      var low := LowStockRows(table.value);
      |sent| == |low| && forall i :: 0 <= i < |low| ==> sent[i] == LowStockPush(low[i], ops)
  {
    sent := [];
    if table.Err? {
      return;
    }
    var low := LowStockRows(table.value);
    for i := 0 to |low|
      invariant |sent| == i
      invariant forall j :: 0 <= j < i ==> sent[j] == LowStockPush(low[j], ops)
    {
      sent := sent + [LowStockPush(low[i], ops)];
    }
  }

  /** `checkExpiringMedicines`: one push per medicine expiring within the week. */
  method CheckExpiringMedicines(table: Result<seq<Medicine>>, now: int, ops: NumberOps) returns (sent: seq<Push>)
    ensures table.Err? ==> sent == []
    ensures table.Ok? ==>
      var expiring := ExpiringRows(table.value, now);
      |sent| == |expiring| && forall i :: 0 <= i < |expiring| ==> sent[i] == ExpiryPush(expiring[i], now, ops)
  {
    sent := [];
    if table.Err? {
      return;
    }
    var expiring := ExpiringRows(table.value, now);
    for i := 0 to |expiring|
      invariant |sent| == i
      invariant forall j :: 0 <= j < i ==> sent[j] == ExpiryPush(expiring[j], now, ops)
    {
      sent := sent + [ExpiryPush(expiring[i], now, ops)];
    }
  }

  /** `checkDailySchedule`: one reminder per due schedule. The medicine table is the one the
      `include: {userMedicine: true}` reads from. */
  method CheckDailySchedule(table: Result<(seq<Medicine>, seq<Schedule>)>, c: WallClock, ops: NumberOps)
    returns (sent: seq<Push>)
    requires table.Ok? ==> SchedulesReferenceMedicines(table.value.0, table.value.1)
    ensures table.Err? ==> sent == []
    ensures table.Ok? ==>
      var (ms, ss) := table.value;
      var due := ScheduleChecker.DueSchedules(ss, c);
      && |sent| == |due|
      && forall i :: 0 <= i < |due| ==> sent[i] == ReminderPush(ms, due[i], ops)
  {
    sent := [];
    if table.Err? {
      return;
    }
    var (ms, ss) := table.value;
    var due := ScheduleChecker.DueSchedules(ss, c);
    for i := 0 to |due|
      invariant |sent| == i
      invariant forall j :: 0 <= j < i ==> sent[j] == ReminderPush(ms, due[j], ops)
    {
      sent := sent + [ReminderPush(ms, due[i], ops)];
    }
  }

  /** A medicine the expiry check selects is reported as expiring in 0 to 7 days. */
  lemma DaysUntilExpiryInWeek(m: Medicine, now: int)
    requires ExpiresWithinWeek(m, now)
    ensures 0 <= DaysUntilExpiry(m, now) <= 7
  {
    var a, q := m.expiryDate - now, DaysUntilExpiry(m, now);
    assert (q - 1) * MS_PER_DAY < a <= q * MS_PER_DAY;
    assert 0 <= a <= 7 * MS_PER_DAY;
  }

  /** The `data` payloads of a run of pushes. */
  function Payloads(sent: seq<Push>): (r: seq<PushData>)
    ensures |r| == |sent| && forall i :: 0 <= i < |sent| ==> r[i] == sent[i].data
  {
    seq(|sent|, i requires 0 <= i < |sent| => sent[i].data)
  }

  /** A schedule of the table gets a `schedule` payload naming it (and its medicine)
      exactly when it is due. */
  lemma ScheduleNotifiedExactlyWhenDue(ms: seq<Medicine>, ss: seq<Schedule>, c: WallClock, ops: NumberOps,
                                       sent: seq<Push>, s: Schedule)
    requires SchedulesReferenceMedicines(ms, ss) && DistinctScheduleIds(ss) && s in ss
    requires var due := ScheduleChecker.DueSchedules(ss, c);
      |sent| == |due| && forall i :: 0 <= i < |due| ==> sent[i] == ReminderPush(ms, due[i], ops)
    ensures ScheduleAlert(s.userMedicineId, s.id) in Payloads(sent) <==> Due(s.isActive, s.timesOfDay, s.repeatDays, c)
  {
    var due := ScheduleChecker.DueSchedules(ss, c);
    var payloads := Payloads(sent);
    if ScheduleAlert(s.userMedicineId, s.id) in payloads {
      var i :| 0 <= i < |payloads| && payloads[i] == ScheduleAlert(s.userMedicineId, s.id);
      assert due[i] in due;
      assert sent[i].data == ScheduleAlert(due[i].userMedicineId, due[i].id);
      var a :| 0 <= a < |ss| && ss[a] == s;
      var b :| 0 <= b < |ss| && ss[b] == due[i];
      assert ss[a].id == ss[b].id;
    }
    if Due(s.isActive, s.timesOfDay, s.repeatDays, c) {
      var i :| 0 <= i < |due| && due[i] == s;
      assert payloads[i] == ScheduleAlert(s.userMedicineId, s.id);
    }
  }
}
