/** The scheduler module's periodic checks: which schedules get a reminder and which
    medicines get a low-stock or an expiry notification. The queries run over every user's
    rows; a failed query is caught and logged, so a check never throws. */
module ScheduleChecker {
  import opened Wrappers
  import opened JsValues
  import opened Clock
  import opened Sorting
  import opened Records

  const LOW_STOCK_TITLE: string := "Low Medicine Stock"
  const EXPIRY_TITLE: string := "Medicine Expiring Soon"

  /** The schedules `findMany` selects at the reading `c`. */
  function DueSchedules(ss: seq<Schedule>, c: WallClock): (r: seq<Schedule>)
    ensures forall s :: s in r <==> s in ss && Due(s.isActive, s.timesOfDay, s.repeatDays, c)
  {
    Filter(ss, (s: Schedule) => Due(s.isActive, s.timesOfDay, s.repeatDays, c))
  }

  /** `checkMedicineSchedules`: the ids handed to `sendMedicineReminder`, one per selected
      schedule, in query order. `table` is the schedule table, or the error the query
      throws; the error is logged and nothing is sent. */
  method CheckMedicineSchedules(table: Result<seq<Schedule>>, c: WallClock) returns (reminded: seq<string>)
    ensures table.Err? ==> reminded == []
    ensures table.Ok? ==>
      var due := DueSchedules(table.value, c);
      |reminded| == |due| && forall i :: 0 <= i < |due| ==> reminded[i] == due[i].id
  {
    reminded := [];
    if table.Err? {
      return;
    }
    var schedules := DueSchedules(table.value, c);
    for i := 0 to |schedules|
      invariant |reminded| == i
      invariant forall j :: 0 <= j < i ==> reminded[j] == schedules[j].id
    {
      reminded := reminded + [schedules[i].id];
    }
  }

  /** A schedule of the table gets a reminder exactly when it is due. */
  lemma RemindedExactlyWhenDue(ss: seq<Schedule>, c: WallClock, reminded: seq<string>, s: Schedule)
    requires DistinctScheduleIds(ss)
    requires s in ss
    requires var due := DueSchedules(ss, c);
      |reminded| == |due| && forall i :: 0 <= i < |due| ==> reminded[i] == due[i].id
    ensures s.id in reminded <==> Due(s.isActive, s.timesOfDay, s.repeatDays, c)
  {
    var due := DueSchedules(ss, c);
    if s.id in reminded {
      var i :| 0 <= i < |reminded| && reminded[i] == s.id;
      assert due[i] in ss;
      var a :| 0 <= a < |ss| && ss[a] == s;
      var b :| 0 <= b < |ss| && ss[b] == due[i];
      assert ss[a].id == ss[b].id;
      assert due[i] == s;
    }
    if Due(s.isActive, s.timesOfDay, s.repeatDays, c) {
      var i :| 0 <= i < |due| && due[i] == s;
      assert reminded[i] == s.id;
    }
  }

  /** The low-stock text: `Your <name> is running low (<quantity> <unit> remaining)`. */
  function LowStockPush(m: Medicine, ops: NumberOps): Push {
    Push(m.userId, LOW_STOCK_TITLE,
         "Your " + m.name + " is running low (" + ops.show(m.quantity) + " " + m.unit + " remaining)",
         NoData)
  }

  /** The expiry text, which always says seven days whatever the date. */
  function ExpiryPush(m: Medicine): Push {
    Push(m.userId, EXPIRY_TITLE, "Your " + m.name + " will expire in 7 days", NoData)
  }

  /** `checkLowStockAndExpiry`: one low-stock push per medicine at or below the threshold,
      then one expiry push per medicine expiring within the week, both over every user's
      medicines. `lowQuery` and `expiryQuery` are the table as each of the two queries
      reads it, or the error it throws. A failed query ends the check quietly: a failed
      low-stock query sends nothing, and a failed expiry query keeps the low-stock pushes
      already sent. */
  method CheckLowStockAndExpiry(lowQuery: Result<seq<Medicine>>, expiryQuery: Result<seq<Medicine>>,
                                now: int, ops: NumberOps) returns (sent: seq<Push>)
    ensures lowQuery.Err? ==> sent == []
    ensures lowQuery.Ok? ==>
      var low := LowStockRows(lowQuery.value);
      && |sent| >= |low|
      && (forall i :: 0 <= i < |low| ==> sent[i] == LowStockPush(low[i], ops))
    ensures lowQuery.Ok? && expiryQuery.Err? ==> |sent| == |LowStockRows(lowQuery.value)|
    ensures lowQuery.Ok? && expiryQuery.Ok? ==>
      var low := LowStockRows(lowQuery.value);
      var expiring := ExpiringRows(expiryQuery.value, now);
      && |sent| == |low| + |expiring|
      && (forall i :: 0 <= i < |expiring| ==> sent[|low| + i] == ExpiryPush(expiring[i]))
  {
    sent := [];
    if lowQuery.Err? {
      return;
    }
    var low := LowStockRows(lowQuery.value);
    for i := 0 to |low|
      invariant |sent| == i
      invariant forall j :: 0 <= j < i ==> sent[j] == LowStockPush(low[j], ops)
    {
      sent := sent + [LowStockPush(low[i], ops)];
    }
    if expiryQuery.Err? {
      return;
    }
    var expiring := ExpiringRows(expiryQuery.value, now);
    for i := 0 to |expiring|
      invariant |sent| == |low| + i
      invariant forall j :: 0 <= j < |low| ==> sent[j] == LowStockPush(low[j], ops)
      invariant forall j :: 0 <= j < i ==> sent[|low| + j] == ExpiryPush(expiring[j])
    {
      sent := sent + [ExpiryPush(expiring[i])];
    }
  }

  /** Every low-stock medicine of the table is among the pushes, under its owner. */
  lemma EveryLowStockMedicineNotified(ms: seq<Medicine>, now: int, ops: NumberOps, sent: seq<Push>, m: Medicine)
    requires var low := LowStockRows(ms);
      |sent| >= |low| && forall i :: 0 <= i < |low| ==> sent[i] == LowStockPush(low[i], ops)
    requires m in ms && IsLowStock(m)
    ensures LowStockPush(m, ops) in sent
    ensures LowStockPush(m, ops).userId == m.userId
  {
    var low := LowStockRows(ms);
    var i :| 0 <= i < |low| && low[i] == m;
    assert sent[i] == LowStockPush(m, ops);
  }

  /** Every expiry push names a medicine that expires within the week. */
  lemma ExpiryPushesAreDue(ms: seq<Medicine>, now: int, sent: seq<Push>, lowCount: nat)
    requires var expiring := ExpiringRows(ms, now);
      |sent| == lowCount + |expiring| &&
      forall i :: 0 <= i < |expiring| ==> sent[lowCount + i] == ExpiryPush(expiring[i])
    ensures forall p :: p in sent[lowCount..] ==>
      exists m :: m in ms && ExpiresWithinWeek(m, now) && p == ExpiryPush(m)
  {
    var expiring := ExpiringRows(ms, now);
    forall p | p in sent[lowCount..]
      ensures exists m :: m in ms && ExpiresWithinWeek(m, now) && p == ExpiryPush(m)
    {
      var i :| 0 <= i < |sent[lowCount..]| && sent[lowCount..][i] == p;
      var m := expiring[i];
      assert m in expiring;
      assert sent[lowCount + i] == ExpiryPush(m);
    }
  }
}
