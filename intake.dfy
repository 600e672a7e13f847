/** `recordMedicineIntake`: one intake row, then the medicine's quantity decremented by
    the schedule's dosage. */
module MedicineIntake {
  import opened Wrappers
  import opened Records

  const NOT_FOUND: string := "Schedule not found"
  const FAILED: string := "Unable to record medicine intake"
  const RECORDED: string := "Medicine intake recorded successfully"

  /** `findUnique({where: {id, userId}})`: the schedule `id` if `userId` owns it. */
  function FindSchedule(ss: seq<Schedule>, id: string, userId: string): (r: Option<Schedule>)
    ensures r.Some? ==> r.value in ss && r.value.id == id && r.value.userId == userId
    ensures r.None? <==> forall s :: s in ss ==> !(s.id == id && s.userId == userId)
  {
    if |ss| == 0 then None
    else if ss[0].id == id && ss[0].userId == userId then Some(ss[0])
    else FindSchedule(ss[1..], id, userId)
  }

  /** `update({where: {id}, data: {quantity: {decrement: amount}}})`. */
  function Decrement(ms: seq<Medicine>, id: string, amount: real): (r: seq<Medicine>)
    ensures |r| == |ms|
    ensures forall i :: 0 <= i < |ms| && ms[i].id != id ==> r[i] == ms[i]
    ensures forall i :: 0 <= i < |ms| && ms[i].id == id ==> r[i] == ms[i].(quantity := ms[i].quantity - amount)
  {
    seq(|ms|, i requires 0 <= i < |ms| => if ms[i].id == id then ms[i].(quantity := ms[i].quantity - amount) else ms[i])
  }

  /** The stock held across a list of medicines. */
  function TotalQuantity(ms: seq<Medicine>): real {
    if |ms| == 0 then 0.0 else ms[0].quantity + TotalQuantity(ms[1..])
  }

  /** When exactly one medicine carries the id, the stock across the table falls by exactly
      the amount: one medicine is decremented, once. */
  lemma {:induction false} DecrementLowersTotal(ms: seq<Medicine>, id: string, amount: real)
    requires DistinctMedicineIds(ms)
    requires exists i :: 0 <= i < |ms| && ms[i].id == id
    ensures TotalQuantity(Decrement(ms, id, amount)) == TotalQuantity(ms) - amount
  {
    var r := Decrement(ms, id, amount);
    assert r[1..] == Decrement(ms[1..], id, amount);
    if ms[0].id == id {
      forall j | 0 <= j < |ms[1..]| ensures ms[1..][j].id != id {
        assert ms[j + 1].id != ms[0].id;
      }
      NoMatchUnchanged(ms[1..], id, amount);
    } else {
      var i :| 0 <= i < |ms| && ms[i].id == id;
      assert ms[1..][i - 1].id == id;
      DecrementLowersTotal(ms[1..], id, amount);
    }
  }

  /** Without the id, the decrement changes nothing. */
  lemma NoMatchUnchanged(ms: seq<Medicine>, id: string, amount: real)
    requires forall j :: 0 <= j < |ms| ==> ms[j].id != id
    ensures Decrement(ms, id, amount) == ms
  {
  }

  /** There is no lower bound: a dose larger than the stock leaves a negative quantity. */
  lemma NoLowerBound(m: Medicine, amount: real)
    requires amount > m.quantity
    ensures Decrement([m], m.id, amount)[0].quantity < 0.0
  {
  }

  /** `recordMedicineIntake`. `userId` is `req.user!.id`, whose absence throws; `takenAt`
      is the body's `takenAt`, defaulting to `now`. */
  method RecordMedicineIntake(store: Store, scheduleId: string, userId: Option<string>, takenAt: Option<int>, now: int)
    returns (status: int, message: string)
    requires store.Valid()
    modifies store
    ensures store.Valid()
    ensures unchanged(store`schedules)
    ensures userId.None? ==> status == 500 && message == FAILED && unchanged(store)
    ensures userId.Some? && FindSchedule(old(store.schedules), scheduleId, userId.value).None? ==>
      status == 404 && message == NOT_FOUND && unchanged(store)
    ensures userId.Some? && FindSchedule(old(store.schedules), scheduleId, userId.value).Some? ==>
      var s := FindSchedule(old(store.schedules), scheduleId, userId.value).value;
      && store.intakes == old(store.intakes) + [Intake(scheduleId, userId.value, if takenAt.Some? then takenAt.value else now, s.dosageAmount)]
      && store.medicines == Decrement(old(store.medicines), s.userMedicineId, s.dosageAmount)
      && (status == 200 <==> exists m :: m in old(store.medicines) && m.id == s.userMedicineId)
      && (status == 200 ==> message == RECORDED)
      && (status != 200 ==> status == 500 && message == FAILED)
  {
    if userId.None? {
      return 500, FAILED;
    }
    var found := FindSchedule(store.schedules, scheduleId, userId.value);
    if found.None? {
      return 404, NOT_FOUND;
    }
    var schedule := found.value;
    var when := if takenAt.Some? then takenAt.value else now;
    store.intakes := store.intakes + [Intake(scheduleId, userId.value, when, schedule.dosageAmount)];
    // The update finds no row when the medicine is gone; the intake row stays written.
    var medicineExists := exists i | 0 <= i < |store.medicines| :: store.medicines[i].id == schedule.userMedicineId;
    store.medicines := Decrement(store.medicines, schedule.userMedicineId, schedule.dosageAmount);
    if !medicineExists {
      return 500, FAILED;
    }
    return 200, RECORDED;
  }
}
