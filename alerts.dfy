/** `getExpiringMedicines` and `getLowStockMedicines` of the scheduler module: a filter on
    the caller's medicines, sorted ascending. */
module ScheduleController {
  import opened Wrappers
  import opened Sorting
  import opened Records

  /** Expiring within the next seven days, counted from now. */
  predicate Expiring(m: Medicine, userId: string, now: int) {
    m.userId == userId && ExpiresWithinWeek(m, now)
  }

  predicate LowStock(m: Medicine, userId: string) {
    m.userId == userId && IsLowStock(m)
  }

  function ExpiryKey(m: Medicine): real { m.expiryDate as real }

  function QuantityKey(m: Medicine): real { m.quantity }

  /** The expiring medicines of `userId`, soonest first. */
  function ExpiringFor(ms: seq<Medicine>, userId: string, now: int): (r: seq<Medicine>)
    ensures SortedBy(r, ExpiryKey)
    ensures multiset(r) == multiset(Filter(ms, m => Expiring(m, userId, now)))
  {
    SortByCorrect(Filter(ms, m => Expiring(m, userId, now)), ExpiryKey);
    SortBy(Filter(ms, m => Expiring(m, userId, now)), ExpiryKey)
  }

  /** The low-stock medicines of `userId`, fewest first. */
  function LowStockFor(ms: seq<Medicine>, userId: string): (r: seq<Medicine>)
    ensures SortedBy(r, QuantityKey)
    ensures multiset(r) == multiset(Filter(ms, m => LowStock(m, userId)))
  {
    SortByCorrect(Filter(ms, m => LowStock(m, userId)), QuantityKey);
    SortBy(Filter(ms, m => LowStock(m, userId)), QuantityKey)
  }

  /** A medicine is listed as expiring exactly when it is the user's and expires within
      the week. */
  lemma ExpiringExactly(ms: seq<Medicine>, userId: string, now: int, m: Medicine)
    ensures m in ExpiringFor(ms, userId, now) <==> m in ms && Expiring(m, userId, now)
  {
    var r := ExpiringFor(ms, userId, now);
    assert m in r <==> m in multiset(r);
    FilterMembership(ms, m => Expiring(m, userId, now), m);
  }

  /** A medicine is listed as low stock exactly when it is the user's and its quantity is
      at most 5. */
  lemma LowStockExactly(ms: seq<Medicine>, userId: string, m: Medicine)
    ensures m in LowStockFor(ms, userId) <==> m in ms && LowStock(m, userId)
  {
    var r := LowStockFor(ms, userId);
    assert m in r <==> m in multiset(r);
    FilterMembership(ms, m => LowStock(m, userId), m);
  }

  /** A user none of whose medicines qualifies gets an empty list. */
  lemma NothingExpiringIsEmpty(ms: seq<Medicine>, userId: string, now: int)
    requires forall m :: m in ms ==> !Expiring(m, userId, now)
    ensures ExpiringFor(ms, userId, now) == []
  {
    FilterNone(ms, m => Expiring(m, userId, now));
    assert |multiset(ExpiringFor(ms, userId, now))| == 0;
  }

  /** `getExpiringMedicines`: `req.user!.id` throws without a user, which answers 400. */
  function GetExpiringMedicines(ms: seq<Medicine>, userId: Option<string>, now: int): (r: Reply<seq<Medicine>>)
    ensures userId.None? ==> r == Failure(400, "Unable to fetch expiring medicines")
    ensures userId.Some? ==> r.Success? && r.status == 200 && r.value == ExpiringFor(ms, userId.value, now)
  {
    if userId.None? then Failure(400, "Unable to fetch expiring medicines")
    else Success(200, ExpiringFor(ms, userId.value, now))
  }

  /** `getLowStockMedicines`. */
  function GetLowStockMedicines(ms: seq<Medicine>, userId: Option<string>): (r: Reply<seq<Medicine>>)
    ensures userId.None? ==> r == Failure(400, "Unable to fetch low stock medicines")
    ensures userId.Some? ==> r.Success? && r.status == 200 && r.value == LowStockFor(ms, userId.value)
  {
    if userId.None? then Failure(400, "Unable to fetch low stock medicines")
    else Success(200, LowStockFor(ms, userId.value))
  }
}

/** The older `routes/medicineChecks.ts`: the same two queries, for one fixed user. */
module MedicineChecks {
  import opened Wrappers
  import opened Sorting
  import opened Records
  import opened ScheduleController

  const LEGACY_USER_ID: string := "f6960d1a-db9a-46c5-b76d-147fd7743e76"

  /** Whoever asks, the answer lists the fixed user's expiring medicines, soonest first. */
  function GetExpiringMedicines(ms: seq<Medicine>, now: int): (r: Reply<seq<Medicine>>)
    ensures r == Success(200, ExpiringFor(ms, LEGACY_USER_ID, now))
    ensures forall i :: 0 <= i < |r.value| ==> r.value[i].userId == LEGACY_USER_ID
    ensures SortedBy(r.value, ExpiryKey)
  {
    var rows := ExpiringFor(ms, LEGACY_USER_ID, now);
    forall i | 0 <= i < |rows| ensures rows[i].userId == LEGACY_USER_ID {
      ExpiringExactly(ms, LEGACY_USER_ID, now, rows[i]);
    }
    Success(200, rows)
  }

  /** The fixed user's low-stock medicines, fewest first. */
  function GetLowStockMedicines(ms: seq<Medicine>): (r: Reply<seq<Medicine>>)
    ensures r == Success(200, LowStockFor(ms, LEGACY_USER_ID))
    ensures forall i :: 0 <= i < |r.value| ==> r.value[i].userId == LEGACY_USER_ID
    ensures SortedBy(r.value, QuantityKey)
  {
    var rows := LowStockFor(ms, LEGACY_USER_ID);
    forall i | 0 <= i < |rows| ensures rows[i].userId == LEGACY_USER_ID {
      LowStockExactly(ms, LEGACY_USER_ID, rows[i]);
    }
    Success(200, rows)
  }
}
