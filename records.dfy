/** The database rows the backend handlers read and write, and the tables holding them. */
module Records {
  import opened Wrappers
  import opened Clock
  import opened Sorting

  /** A row of the preset catalogue. */
  datatype Preset = Preset(id: string, name: string, category: string)

  /** A medicine in a user's collection; dates are milliseconds since the epoch. */
  datatype Medicine = Medicine(
    id: string,
    userId: string,
    name: string,
    category: string,
    unit: string,
    quantity: real,
    expiryDate: int,
    dosagePerDay: Option<real>,
    prescription: Option<string>,
    isPreset: bool,
    presetMedicine: Option<Preset>,
    createdAt: int)

  /** When and how much of a medicine is taken. */
  datatype Schedule = Schedule(
    id: string,
    userId: string,
    userMedicineId: string,
    timesOfDay: seq<string>,
    repeatDays: seq<string>,
    dosageAmount: real,
    isActive: bool)

  /** A `medicineTaken` row. */
  datatype Intake = Intake(scheduleId: string, userId: string, takenAt: int, dosageAmount: real)

  /** The part of a user row the middlewares and handlers look up. */
  datatype UserRow = UserRow(id: string, encryptionKey: Option<string>)

  /** `prisma.user.findUnique({where: {id}})`: the row, no row, or a thrown error. */
  type UserLookup = string -> Result<Option<UserRow>>

  /** A quantity at or below this is low stock. */
  const LOW_STOCK_THRESHOLD: real := 5.0

  /** `quantity: {lte: 5}`. */
  predicate IsLowStock(m: Medicine) {
    m.quantity <= LOW_STOCK_THRESHOLD
  }

  /** `expiryDate: {gte: now, lte: now + 7 days}`. */
  predicate ExpiresWithinWeek(m: Medicine, now: int) {
    WithinWeek(m.expiryDate, now)
  }

  /** `findMany({where: {quantity: {lte: 5}}})` over every user's medicines. */
  function LowStockRows(ms: seq<Medicine>): (r: seq<Medicine>)
    ensures forall m :: m in r <==> m in ms && IsLowStock(m)
  {
    Filter(ms, IsLowStock)
  }

  /** `findMany({where: {expiryDate: {lte: sevenDaysFromNow, gte: now}}})` over every user's
      medicines. */
  function ExpiringRows(ms: seq<Medicine>, now: int): (r: seq<Medicine>)
    ensures forall m :: m in r <==> m in ms && ExpiresWithinWeek(m, now)
  {
    Filter(ms, m => ExpiresWithinWeek(m, now))
  }

  /** What a check hands to the notification service's `sendPushNotification`. */
  datatype Push = Push(userId: string, title: string, body: string, data: PushData)

  /** The `data` payload of a push. */
  datatype PushData =
    | NoData
    | LowStockAlert(medicineId: string)
    | ExpiringAlert(medicineId: string)
    | ScheduleAlert(medicineId: string, scheduleId: string)

  /** Every schedule belongs to a medicine of the table (the relation's foreign key). */
  ghost predicate SchedulesReferenceMedicines(ms: seq<Medicine>, ss: seq<Schedule>) {
    forall s :: s in ss ==> exists m :: m in ms && m.id == s.userMedicineId
  }

  ghost predicate DistinctMedicineIds(ms: seq<Medicine>) {
    forall i, j :: 0 <= i < j < |ms| ==> ms[i].id != ms[j].id
  }

  ghost predicate DistinctScheduleIds(ss: seq<Schedule>) {
    forall i, j :: 0 <= i < j < |ss| ==> ss[i].id != ss[j].id
  }

  /** The medicine, schedule and intake tables. */
  class Store {
    var medicines: seq<Medicine>
    var schedules: seq<Schedule>
    var intakes: seq<Intake>

    /** Primary keys are unique. */
    ghost predicate Valid()
      reads this
    {
      DistinctMedicineIds(medicines) && DistinctScheduleIds(schedules)
    }
  }
}
