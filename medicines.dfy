/** The medicine-collection handlers: normalising what `addToCollection` and
    `updateUserMedicine` hand to the database, the remove cascade, preset paging, and the
    decrypting read of a user's collection. */
module MedicineController {
  import opened Wrappers
  import opened JsValues
  import opened Text
  import opened Clock
  import opened Sorting
  import opened Encryption
  import opened Records

  /** A submitted schedule after normalisation. */
  datatype ScheduleData = ScheduleData(timesOfDay: seq<Json>, repeatDays: seq<Json>, dosageAmount: real)

  /** `Array.isArray(v) ? v : []`. */
  function ArrayOrEmpty(v: Option<Json>): (r: seq<Json>)
    ensures v.Some? && v.value.Arr? ==> r == v.value.items
    ensures !(v.Some? && v.value.Arr?) ==> r == []
  {
    if v.Some? && v.value.Arr? then v.value.items else []
  }

  /** One element of `schedules.map(...)`. Reading a property of `null` throws, so a null
      element is `None`; any other non-object simply has no such properties. */
  function NormalizeSchedule(s: Json, ops: NumberOps): (r: Option<ScheduleData>)
    ensures r.Some? <==> !s.Null?
    ensures r.Some? ==> r.value.timesOfDay == ArrayOrEmpty(Prop(s, "timesOfDay"))
    ensures r.Some? ==> r.value.repeatDays == ArrayOrEmpty(Prop(s, "repeatDays"))
    ensures r.Some? && (ToNumber(Prop(s, "dosageAmount"), ops).None? || ToNumber(Prop(s, "dosageAmount"), ops).value == 0.0)
      ==> r.value.dosageAmount == 1.0
    ensures r.Some? && ToNumber(Prop(s, "dosageAmount"), ops).Some? && ToNumber(Prop(s, "dosageAmount"), ops).value != 0.0
      ==> r.value.dosageAmount == ToNumber(Prop(s, "dosageAmount"), ops).value
  {
    if s.Null? then None
    else
      Some(ScheduleData(
        ArrayOrEmpty(Prop(s, "timesOfDay")),
        ArrayOrEmpty(Prop(s, "repeatDays")),
        NumberOr(Prop(s, "dosageAmount"), 1.0, ops)))
  }

  /** The JSON form in which a normalised schedule travels back to the client. */
  function ScheduleJson(d: ScheduleData): Json {
    Obj(map["timesOfDay" := Arr(d.timesOfDay), "repeatDays" := Arr(d.repeatDays), "dosageAmount" := Num(d.dosageAmount)])
  }

  /** Normalisation is a fixpoint: a normalised schedule submitted again is kept as it is. */
  lemma NormalizeScheduleFixpoint(s: Json, ops: NumberOps)
    requires NormalizeSchedule(s, ops).Some?
    ensures NormalizeSchedule(ScheduleJson(NormalizeSchedule(s, ops).value), ops) == NormalizeSchedule(s, ops)
  {
    var d := NormalizeSchedule(s, ops).value;
    assert Prop(ScheduleJson(d), "dosageAmount") == Some(Num(d.dosageAmount));
    assert Prop(ScheduleJson(d), "timesOfDay") == Some(Arr(d.timesOfDay));
    assert Prop(ScheduleJson(d), "repeatDays") == Some(Arr(d.repeatDays));
  }

  /** `items.map(normalise)`, which throws at the first null element. */
  function NormalizeAll(items: seq<Json>, ops: NumberOps): (r: Option<seq<ScheduleData>>)
    ensures r.None? <==> exists i :: 0 <= i < |items| && items[i].Null?
    ensures r.Some? ==> |r.value| == |items|
    ensures r.Some? ==> forall i :: 0 <= i < |items| ==> NormalizeSchedule(items[i], ops) == Some(r.value[i])
  {
    if |items| == 0 then Some([])
    else
      match NormalizeSchedule(items[0], ops)
      case None => None
      case Some(d) =>
        match NormalizeAll(items[1..], ops)
        case None => None
        case Some(rest) => Some([d] + rest)
  }

  /** `...(schedules && {schedules: {create: schedules.map(...)}})`: `Ok(None)` when the
      value is falsy and no schedules are written; an error when `schedules.map` throws
      (a truthy non-array, or a null element). */
  function SchedulesFrom(v: Option<Json>, ops: NumberOps): (r: Result<Option<seq<ScheduleData>>>)
    ensures !Truthy(v) ==> r == Ok(None)
    ensures r.Err? <==> Truthy(v) && (!v.value.Arr? || exists i :: 0 <= i < |v.value.items| && v.value.items[i].Null?)
    ensures r.Ok? && r.value.Some? ==> v.value.Arr? && Some(r.value.value) == NormalizeAll(v.value.items, ops)
  {
    if !Truthy(v) then Ok(None)
    else if !v.value.Arr? then Err("schedules.map is not a function")
    else
      match NormalizeAll(v.value.items, ops)
      case None => Err("Cannot read properties of null")
      case Some(ds) => Ok(Some(ds))
  }

  /** What `addToCollection` passes to `prisma.userMedicine.create`. Values the handler
      passes through unchanged are kept as they arrived; `Option` fields are `null` when
      `None`. */
  datatype CreateData = CreateData(
    name: Option<Json>,
    category: Option<Json>,
    unit: Option<Json>,
    quantity: real,
    expiryDate: Option<Json>,
    startDate: Option<Json>,
    endDate: Option<Json>,
    dosagePerDay: Option<Option<real>>,  // the inner None is NaN
    prescription: Option<Json>,
    isPreset: bool,
    presetMedicineId: Option<Json>,      // the preset connected, if any
    userId: string,
    schedules: seq<ScheduleData>)

  /** `!userId` for an optional id. */
  predicate Authenticated(userId: Option<string>) {
    userId.Some? && userId.value != ""
  }

  /** `v ? v : null`. */
  function IfTruthy(v: Option<Json>): (r: Option<Json>)
    ensures r.Some? <==> Truthy(v)
    ensures r.Some? ==> r == v
  {
    if Truthy(v) then v else None
  }

  /** The `data` that `addToCollection` hands to `prisma.userMedicine.create` for the user
      `userId`, once the schedules have been mapped (`None` when none are written). */
  function NewMedicine(body: map<string, Json>, userId: string, schedules: Option<seq<ScheduleData>>, ops: NumberOps): (d: CreateData)
    ensures d.userId == userId
    ensures ToNumber(Lookup(body, "quantity"), ops).Some? ==> d.quantity == ToNumber(Lookup(body, "quantity"), ops).value
    ensures ToNumber(Lookup(body, "quantity"), ops).None? ==> d.quantity == 20.0
    ensures d.isPreset <==> Truthy(Lookup(body, "presetMedicineId"))
    ensures d.presetMedicineId.Some? <==> d.isPreset
    ensures d.presetMedicineId.Some? ==> d.presetMedicineId == Lookup(body, "presetMedicineId")
    ensures d.startDate.Some? <==> Truthy(Lookup(body, "startDate"))
    ensures d.endDate.Some? <==> Truthy(Lookup(body, "endDate"))
    ensures d.dosagePerDay.Some? <==> Truthy(Lookup(body, "dosagePerDay"))
    ensures schedules.Some? ==> d.schedules == schedules.value
    ensures schedules.None? ==> d.schedules == []
  {
    var quantity := ToNumber(Lookup(body, "quantity"), ops);
    var dosage := Lookup(body, "dosagePerDay");
    var presetId := Lookup(body, "presetMedicineId");
    CreateData(
      Lookup(body, "name"),
      Lookup(body, "category"),
      Lookup(body, "unit"),
      if quantity.Some? then quantity.value else 20.0,
      Lookup(body, "expiryDate"),
      IfTruthy(Lookup(body, "startDate")),
      IfTruthy(Lookup(body, "endDate")),
      if Truthy(dosage) then Some(ToNumber(dosage, ops)) else None,
      Lookup(body, "prescription"),
      Truthy(presetId),
      IfTruthy(presetId),
      userId,
      if schedules.Some? then schedules.value else [])
  }

  /** `addToCollection`: 401 without a user; 500 when the schedules cannot be mapped or the
      database rejects the create; otherwise 201 with the data created. `dbAccepts` says
      whether `prisma.userMedicine.create` settles for the data: it rejects, among others,
      an invalid `new Date(expiryDate)`, a unit outside `MedicineUnit`, a missing name and
      a preset id that names no preset. */
  function AddToCollection(body: map<string, Json>, userId: Option<string>, ops: NumberOps,
                           dbAccepts: CreateData -> bool): (r: Reply<CreateData>)
    ensures r.Failure? && r.status == 401 <==> !Authenticated(userId)
    ensures r.Success? <==>
      Authenticated(userId) && SchedulesFrom(Lookup(body, "schedules"), ops).Ok? &&
      dbAccepts(NewMedicine(body, userId.value, SchedulesFrom(Lookup(body, "schedules"), ops).value, ops))
    ensures r.Failure? && r.status != 401 ==> r == Failure(500, "Failed to add medicine to collection")
    ensures r.Success? ==>
      r.status == 201 && r.value == NewMedicine(body, userId.value, SchedulesFrom(Lookup(body, "schedules"), ops).value, ops)
  {
    if !Authenticated(userId) then Failure(401, "Unauthorized")
    else
      match SchedulesFrom(Lookup(body, "schedules"), ops)
      case Err(_) => Failure(500, "Failed to add medicine to collection")
      case Ok(schedules) =>
        var data := NewMedicine(body, userId.value, schedules, ops);
        if dbAccepts(data) then Success(201, data)
        else Failure(500, "Failed to add medicine to collection")
  }

  /** The medicine `id` owned by `userId`. */
  predicate Owned(m: Medicine, id: string, userId: string) {
    m.id == id && m.userId == userId
  }

  /** A schedule of the medicine `id`, owned by `userId`. */
  predicate ScheduleOf(s: Schedule, id: string, userId: string) {
    s.userMedicineId == id && s.userId == userId
  }

  /** Filtering keeps primary keys distinct. */
  lemma {:induction false} FilterKeepsDistinct<T>(s: seq<T>, f: T -> bool, key: T -> string)
    requires forall i, j :: 0 <= i < j < |s| ==> key(s[i]) != key(s[j])
    ensures forall i, j :: 0 <= i < j < |Filter(s, f)| ==> key(Filter(s, f)[i]) != key(Filter(s, f)[j])
  {
    if |s| > 0 {
      FilterKeepsDistinct(s[1..], f, key);
      var rest := Filter(s[1..], f);
      forall x | x in rest ensures key(x) != key(s[0]) {
        var k :| 0 <= k < |s[1..]| && s[1..][k] == x;
        assert s[k + 1] == x;
      }
    }
  }

  /** `removeFromCollection`: 401 without a user; 404, with nothing deleted, when the user
      owns no medicine `id`; otherwise the medicine and all its schedules are deleted in one
      transaction. `txAccepts` says whether the database commits that transaction; when it
      throws, nothing is deleted and the catch answers 400. */
  method RemoveFromCollection(store: Store, id: string, userId: Option<string>, txAccepts: bool) returns (status: int, message: string)
    requires store.Valid()
    modifies store
    ensures store.Valid()
    ensures unchanged(store`intakes)
    ensures !Authenticated(userId) ==> status == 401 && message == "User not authenticated"
    ensures Authenticated(userId) && (forall m :: m in old(store.medicines) ==> !Owned(m, id, userId.value)) ==>
      status == 404 && message == "Medicine not found"
    ensures status != 200 ==> unchanged(store)
    ensures Authenticated(userId) && (exists m :: m in old(store.medicines) && Owned(m, id, userId.value)) && !txAccepts ==>
      status == 400 && message == "Unable to remove medicine from collection"
    ensures status == 200 <==>
      Authenticated(userId) && txAccepts && exists m :: m in old(store.medicines) && Owned(m, id, userId.value)
    ensures status == 200 ==>
      store.medicines == Filter(old(store.medicines), m => !Owned(m, id, userId.value)) &&
      store.schedules == Filter(old(store.schedules), s => !ScheduleOf(s, id, userId.value)) &&
      message == "Medicine removed from collection"
  {
    if !Authenticated(userId) {
      return 401, "User not authenticated";
    }
    var uid := userId.value;
    if !exists i | 0 <= i < |store.medicines| :: Owned(store.medicines[i], id, uid) {
      return 404, "Medicine not found";
    }
    if !txAccepts {
      return 400, "Unable to remove medicine from collection";
    }
    FilterKeepsDistinct(store.medicines, m => !Owned(m, id, uid), (m: Medicine) => m.id);
    FilterKeepsDistinct(store.schedules, s => !ScheduleOf(s, id, uid), (s: Schedule) => s.id);
    store.schedules := Filter(store.schedules, s => !ScheduleOf(s, id, uid));
    store.medicines := Filter(store.medicines, m => !Owned(m, id, uid));
    return 200, "Medicine removed from collection";
  }

  /** After a removal the user owns no medicine `id`, no schedule of it is left, and every
      other medicine and schedule is kept. */
  lemma RemovalCascades(ms: seq<Medicine>, ss: seq<Schedule>, id: string, userId: string)
    ensures forall m :: m in Filter(ms, m => !Owned(m, id, userId)) ==> !Owned(m, id, userId)
    ensures forall s :: s in Filter(ss, s => !ScheduleOf(s, id, userId)) ==> !ScheduleOf(s, id, userId)
    ensures forall m :: m in ms && !Owned(m, id, userId) ==> m in Filter(ms, m => !Owned(m, id, userId))
    ensures forall s :: s in ss && !ScheduleOf(s, id, userId) ==> s in Filter(ss, s => !ScheduleOf(s, id, userId))
  {
    var fm := Filter(ms, m => !Owned(m, id, userId));
    var fs := Filter(ss, s => !ScheduleOf(s, id, userId));
    forall m | m in fm ensures !Owned(m, id, userId) {
      var k :| 0 <= k < |fm| && fm[k] == m;
    }
    forall s | s in fs ensures !ScheduleOf(s, id, userId) {
      var k :| 0 <= k < |fs| && fs[k] == s;
    }
    forall m | m in ms && !Owned(m, id, userId) ensures m in fm {
      var k :| 0 <= k < |ms| && ms[k] == m;
    }
    forall s | s in ss && !ScheduleOf(s, id, userId) ensures s in fs {
      var k :| 0 <= k < |ss| && ss[k] == s;
    }
  }

  /** The `pagination` object of the preset listing. `pages` is `None` where
      `Math.ceil(total / 0)` is not a finite number. */
  datatype Pagination = Pagination(total: nat, pages: Option<int>, currentPage: real)

  /** The rows of the page: `skip` rows are passed over and at most `take` are returned. */
  function Page<T>(rows: seq<T>, skip: nat, take: nat): (r: seq<T>)
    ensures |r| == if skip >= |rows| then 0 else if |rows| - skip < take then |rows| - skip else take
    ensures forall i :: 0 <= i < |r| ==> skip + i < |rows| && r[i] == rows[skip + i]
  {
    if skip >= |rows| then []
    else if |rows| - skip < take then rows[skip..]
    else rows[skip..skip + take]
  }

  /** A number with no fractional part, as Prisma's `Int` arguments demand. */
  predicate IsWhole(x: real) {
    x.Floor as real == x
  }

  /** `(Number(page) - 1) * Number(limit)`, the `skip` of the query. */
  function Skip(page: real, limit: real): real {
    (page - 1.0) * limit
  }

  /** `getAllPresetMedicines`. `presets` is the catalogue in ascending name order;
      `page` and `limit` are `Number(page)` and `Number(limit)` of the query (1 and 10 when
      absent), `None` when that is NaN. The database rejects a `take` or a `skip` that is
      not a whole number and a negative `skip`; a fractional page whose `skip` is whole
      is served and echoed as `currentPage`. The search and category filter the handler
      builds is never passed to the query. */
  function GetAllPresetMedicines(presets: seq<Preset>, page: Option<real>, limit: Option<real>): (r: Reply<(seq<Preset>, Pagination)>)
    requires limit.Some? ==> limit.value >= 0.0
    ensures r.Failure? <==>
      || page.None? || limit.None? || !IsWhole(limit.value)
      || !IsWhole(Skip(page.value, limit.value)) || Skip(page.value, limit.value) < 0.0
    ensures r.Failure? ==> r.status == 400 && r.error == "Unable to fetch preset medicines"
    ensures r.Success? ==> r.status == 200
    ensures r.Success? ==> r.value.0 == Page(presets, Skip(page.value, limit.value).Floor, limit.value.Floor)
    ensures r.Success? ==> r.value.1.total == |presets| && r.value.1.currentPage == page.value
    ensures r.Success? && limit.value > 0.0 ==> r.value.1.pages.Some?
    ensures r.Success? && limit.value > 0.0 ==>
      (r.value.1.pages.value - 1) * limit.value.Floor < |presets| <= r.value.1.pages.value * limit.value.Floor
    ensures r.Success? && limit.value == 0.0 ==> r.value.1.pages.None?
  {
    if page.None? || limit.None? || !IsWhole(limit.value) ||
       !IsWhole(Skip(page.value, limit.value)) || Skip(page.value, limit.value) < 0.0 then
      Failure(400, "Unable to fetch preset medicines")
    else
      var take := limit.value.Floor;
      var pages := if take > 0 then Some(CeilDiv(|presets|, take)) else None;
      Success(200, (Page(presets, Skip(page.value, limit.value).Floor, take), Pagination(|presets|, pages, page.value)))
  }

  /** `?page=1.5&limit=10` skips 5 rows, takes 10 and answers 200 with `currentPage` 1.5;
      `?page=1.25&limit=10` would skip 2.5 rows, which the database rejects. */
  lemma FractionalPages(presets: seq<Preset>)
    ensures var r := GetAllPresetMedicines(presets, Some(1.5), Some(10.0));
      r.Success? && r.value.0 == Page(presets, 5, 10) && r.value.1.currentPage == 1.5
    ensures GetAllPresetMedicines(presets, Some(1.25), Some(10.0)).Failure?
  {
    assert Skip(1.5, 10.0) == 5.0 && IsWhole(5.0) && IsWhole(10.0);
    assert Skip(1.25, 10.0) == 2.5 && !IsWhole(2.5);
  }

  /** Every preset is on exactly one page: the one numbered `i / limit + 1`, at position
      `i % limit`, and that page number is within `pages`. */
  lemma PresetOnItsPage(presets: seq<Preset>, limit: int, i: int)
    requires limit > 0 && 0 <= i < |presets|
    ensures var r := GetAllPresetMedicines(presets, Some((i / limit + 1) as real), Some(limit as real));
      r.Success? && i % limit < |r.value.0| && r.value.0[i % limit] == presets[i] &&
      1 <= i / limit + 1 <= r.value.1.pages.value
  {
    var q, rest := i / limit, i % limit;
    DivSplit(i, limit);
    var skip := q * limit;
    PageCount(|presets|, limit, q);
    WholeSkip(q, limit);
    var r := GetAllPresetMedicines(presets, Some((q + 1) as real), Some(limit as real));
    assert r.value.0 == Page(presets, skip, limit);
    assert skip + rest == i;
  }

  /** Page `q + 1` of whole pages of `limit` skips the whole number `q * limit`. */
  lemma WholeSkip(q: nat, limit: nat)
    ensures Skip((q + 1) as real, limit as real) == (q * limit) as real
    ensures IsWhole((q * limit) as real) && ((q * limit) as real).Floor == q * limit
    ensures IsWhole(limit as real) && (limit as real).Floor == limit
  {
    assert (q + 1) as real - 1.0 == q as real;
    assert (q as real) * (limit as real) == (q * limit) as real;
  }

  lemma DivSplit(i: int, d: int)
    requires i >= 0 && d > 0
    ensures i / d >= 0 && 0 <= i % d < d && (i / d) * d + i % d == i
  {
  }

  /** A page that starts before the end lies within the page count. */
  lemma PageCount(total: int, limit: int, q: int)
    requires limit > 0 && 0 <= q && q * limit < total
    ensures q + 1 <= CeilDiv(total, limit)
  {
    var pages := CeilDiv(total, limit);
    assert (pages - q) * limit == pages * limit - q * limit;
    PositiveFactor(pages - q, limit);
  }

  lemma PositiveFactor(x: int, c: int)
    requires c > 0 && x * c > 0
    ensures x > 0
  {
  }

  /** The `where` of `getUserMedicines`: the user's medicines; when `search` is non-empty,
      those whose name or category contains it, ignoring case; when `category` is
      non-empty, those in exactly that category. */
  predicate Matches(m: Medicine, userId: string, search: Option<string>, category: Option<string>) {
    && m.userId == userId
    && (search.Some? && search.value != "" ==>
         Contains(LowerStr(m.name), LowerStr(search.value)) || Contains(LowerStr(m.category), LowerStr(search.value)))
    && (category.Some? && category.value != "" ==> m.category == category.value)
  }

  /** `orderBy: {createdAt: 'desc'}` as an ascending sort on the negated timestamp. */
  function NewestFirst(m: Medicine): real { -(m.createdAt as real) }

  /** A schedule as `getUserMedicines` answers it: the stored row, with the decrypted
      forms of its times, days and amount. `dosageAmount` is `None` for NaN. */
  datatype ScheduleView = ScheduleView(row: Schedule, timesOfDay: seq<Json>, repeatDays: seq<Json>, dosageAmount: Option<real>)

  /** A medicine as `getUserMedicines` answers it: the stored row and its schedules, with
      the decrypted forms of the encrypted fields. `prescription` and `dosagePerDay` are
      `None` where they are `null`; the inner `None` of `dosagePerDay` is NaN. */
  datatype MedicineView = MedicineView(
    row: Medicine,
    name: Json,
    category: Json,
    prescription: Option<Json>,
    dosagePerDay: Option<Option<real>>,
    schedules: seq<ScheduleView>)

  /** One field's `try { decrypt } catch { keep }`. */
  function DecryptOrKeep(p: Primitives, stored: string, key: string): (r: Json)
    ensures Decrypt(p, stored, key).Ok? ==> r == Decrypt(p, stored, key).value
    ensures Decrypt(p, stored, key).Err? ==> r == Str(stored)
  {
    match Decrypt(p, stored, key)
    case Ok(v) => v
    case Err(_) => Str(stored)
  }

  /** `if (field) { try { decrypt } catch { keep } }` for a string field: the empty string
      is falsy and kept. */
  function DecryptIfTruthy(p: Primitives, stored: string, key: string): (r: Json)
    ensures stored == "" ==> r == Str(stored)
    ensures stored != "" ==> r == DecryptOrKeep(p, stored, key)
  {
    if stored == "" then Str(stored) else DecryptOrKeep(p, stored, key)
  }

  /** `list.map(x => decrypt(x, key))` inside one `try`: all decrypted, or `None` as soon as
      one throws. */
  function DecryptList(p: Primitives, xs: seq<string>, key: string): (r: Option<seq<Json>>)
    ensures r.Some? <==> forall i :: 0 <= i < |xs| ==> Decrypt(p, xs[i], key).Ok?
    ensures r.Some? ==> |r.value| == |xs| && forall i :: 0 <= i < |xs| ==> r.value[i] == Decrypt(p, xs[i], key).value
  {
    if |xs| == 0 then Some([])
    else
      match Decrypt(p, xs[0], key)
      case Err(_) => None
      case Ok(v) =>
        match DecryptList(p, xs[1..], key)
        case None =>
          assert forall i :: 1 <= i < |xs| ==> xs[1..][i - 1] == xs[i];
          None
        case Some(vs) => Some([v] + vs)
  }

  function AsJson(xs: seq<string>): (r: seq<Json>)
    ensures |r| == |xs| && forall i :: 0 <= i < |xs| ==> r[i] == Str(xs[i])
  {
    seq(|xs|, i requires 0 <= i < |xs| => Str(xs[i]))
  }

  /** The whole list decrypted, or the stored list when any element fails. */
  function DecryptListOrKeep(p: Primitives, xs: seq<string>, key: string): (r: seq<Json>)
    ensures DecryptList(p, xs, key).Some? ==> r == DecryptList(p, xs, key).value
    ensures DecryptList(p, xs, key).None? ==> r == AsJson(xs)
  {
    match DecryptList(p, xs, key)
    case Some(vs) => vs
    case None => AsJson(xs)
  }

  /** `parseFloat(decrypt(n.toString(), key))`, keeping `n` when the decryption throws. */
  function DecryptNumber(p: Primitives, n: real, key: string, ops: NumberOps): (r: Option<real>)
    ensures Decrypt(p, ops.show(n), key).Err? ==> r == Some(n)
    ensures Decrypt(p, ops.show(n), key).Ok? ==> r == ops.parseFloat(ops.text(Decrypt(p, ops.show(n), key).value))
  {
    match Decrypt(p, ops.show(n), key)
    case Ok(v) => ops.parseFloat(ops.text(v))
    case Err(_) => Some(n)
  }

  function DecryptSchedule(p: Primitives, s: Schedule, key: string, ops: NumberOps): ScheduleView {
    ScheduleView(s, DecryptListOrKeep(p, s.timesOfDay, key), DecryptListOrKeep(p, s.repeatDays, key),
                 DecryptNumber(p, s.dosageAmount, key, ops))
  }

  /** One medicine of the response: every encrypted field falls back on its own, and each
      schedule's lists fall back as a whole. */
  function DecryptMedicine(p: Primitives, m: Medicine, schedules: seq<Schedule>, key: string, ops: NumberOps): (v: MedicineView)
    ensures v.row == m && |v.schedules| == |schedules|
    ensures v.name == DecryptIfTruthy(p, m.name, key) && v.category == DecryptIfTruthy(p, m.category, key)
    ensures v.prescription.Some? <==> m.prescription.Some?
    ensures m.prescription.Some? ==> v.prescription.value == DecryptIfTruthy(p, m.prescription.value, key)
    ensures v.dosagePerDay.Some? <==> m.dosagePerDay.Some?
    ensures m.dosagePerDay.Some? ==> v.dosagePerDay.value == DecryptNumber(p, m.dosagePerDay.value, key, ops)
    ensures forall i :: 0 <= i < |schedules| ==>
      && v.schedules[i].row == schedules[i]
      && v.schedules[i].timesOfDay == DecryptListOrKeep(p, schedules[i].timesOfDay, key)
      && v.schedules[i].repeatDays == DecryptListOrKeep(p, schedules[i].repeatDays, key)
      && v.schedules[i].dosageAmount == DecryptNumber(p, schedules[i].dosageAmount, key, ops)
  {
    MedicineView(
      m,
      DecryptIfTruthy(p, m.name, key),
      DecryptIfTruthy(p, m.category, key),
      if m.prescription.Some? then Some(DecryptIfTruthy(p, m.prescription.value, key)) else None,
      if m.dosagePerDay.Some? then Some(DecryptNumber(p, m.dosagePerDay.value, key, ops)) else None,
      seq(|schedules|, i requires 0 <= i < |schedules| => DecryptSchedule(p, schedules[i], key, ops)))
  }

  /** A field holding the envelope of a value reads back as that value; one whose decrypt
      throws reads back as stored. Each field falls back on its own. */
  lemma DecryptedFieldReadsBack(p: Primitives, v: Json, key: string, iv: bytes, salt: bytes)
    requires Sound(p) && JsonCarries(p, v) && |iv| == IV_LENGTH && |salt| == SALT_LENGTH
    requires Encrypt(p, v, key, iv, salt) != ""
    ensures DecryptIfTruthy(p, Encrypt(p, v, key, iv, salt), key) == v
  {
    DecryptEncrypt(p, v, key, iv, salt);
  }

  /** A list of envelopes of strings, each sealed under the key with its own draws, reads
      back as those strings. */
  lemma DecryptedListReadsBack(p: Primitives, plain: seq<string>, key: string, ivs: seq<bytes>, salts: seq<bytes>)
    requires Sound(p) && forall i :: 0 <= i < |plain| ==> JsonCarries(p, Str(plain[i]))
    requires |ivs| == |salts| == |plain|
    requires forall i :: 0 <= i < |plain| ==> |ivs[i]| == IV_LENGTH && |salts[i]| == SALT_LENGTH
    ensures DecryptListOrKeep(p, seq(|plain|, i requires 0 <= i < |plain| => Encrypt(p, Str(plain[i]), key, ivs[i], salts[i])), key)
      == AsJson(plain)
  {
    var stored := seq(|plain|, i requires 0 <= i < |plain| => Encrypt(p, Str(plain[i]), key, ivs[i], salts[i]));
    forall i | 0 <= i < |plain| ensures Decrypt(p, stored[i], key) == Ok(Str(plain[i])) {
      DecryptEncrypt(p, Str(plain[i]), key, ivs[i], salts[i]);
    }
  }

  /** The user's medicines as the query returns them: matching rows, newest first. */
  function UserMedicineRows(ms: seq<Medicine>, userId: string, search: Option<string>, category: Option<string>): (r: seq<Medicine>)
    ensures SortedBy(r, NewestFirst)
    ensures multiset(r) == multiset(Filter(ms, m => Matches(m, userId, search, category)))
  {
    SortByCorrect(Filter(ms, m => Matches(m, userId, search, category)), NewestFirst);
    SortBy(Filter(ms, m => Matches(m, userId, search, category)), NewestFirst)
  }

  /** The schedules `include: {schedules: true}` attaches to the medicine `id`, in table
      order. */
  function SchedulesOf(schedules: seq<Schedule>, id: string): (r: seq<Schedule>)
    ensures forall s :: s in r <==> s in schedules && s.userMedicineId == id
  {
    var r := Filter(schedules, (s: Schedule) => s.userMedicineId == id);
    forall s ensures s in r <==> s in schedules && s.userMedicineId == id {
      FilterMembership(schedules, (s: Schedule) => s.userMedicineId == id, s);
    }
    r
  }

  /** The medicines of the response, in row order, each with exactly its own schedules,
      decrypted field by field. */
  function DecryptedMedicines(p: Primitives, rows: seq<Medicine>, schedules: seq<Schedule>, key: string, ops: NumberOps): (r: seq<MedicineView>)
    ensures |r| == |rows|
    ensures forall i :: 0 <= i < |rows| ==> r[i] == DecryptMedicine(p, rows[i], SchedulesOf(schedules, rows[i].id), key, ops)
    ensures forall i :: 0 <= i < |rows| ==>
      && r[i].row == rows[i]
      && r[i].name == DecryptIfTruthy(p, rows[i].name, key)
      && r[i].category == DecryptIfTruthy(p, rows[i].category, key)
  {
    seq(|rows|, i requires 0 <= i < |rows| => DecryptMedicine(p, rows[i], SchedulesOf(schedules, rows[i].id), key, ops))
  }

  /** A name and a category, each sealed under the key with its own iv and salt draws, as
      `encrypt` draws them afresh on every call. */
  datatype SealedPair = SealedPair(name: Json, nameIv: bytes, nameSalt: bytes,
                                   category: Json, categoryIv: bytes, categorySalt: bytes)

  ghost predicate WellDrawn(p: Primitives, s: SealedPair) {
    && |s.nameIv| == IV_LENGTH && |s.nameSalt| == SALT_LENGTH
    && |s.categoryIv| == IV_LENGTH && |s.categorySalt| == SALT_LENGTH
    && JsonCarries(p, s.name) && JsonCarries(p, s.category)
  }

  /** The row stores the envelopes of the pair, which are not empty. */
  ghost predicate StoresSealed(p: Primitives, m: Medicine, key: string, s: SealedPair)
    requires WellDrawn(p, s)
  {
    && m.name == Encrypt(p, s.name, key, s.nameIv, s.nameSalt) != ""
    && m.category == Encrypt(p, s.category, key, s.categoryIv, s.categorySalt) != ""
  }

  /** A collection stored with its names and categories as envelopes under the user's key
      reads back in the response as the plain names and categories. */
  lemma {:induction false} EnvelopesReadBack(p: Primitives, rows: seq<Medicine>, schedules: seq<Schedule>, key: string,
                                             ops: NumberOps, sealed: seq<SealedPair>)
    requires Sound(p)
    requires |sealed| == |rows|
    requires forall i :: 0 <= i < |rows| ==> WellDrawn(p, sealed[i]) && StoresSealed(p, rows[i], key, sealed[i])
    ensures var r := DecryptedMedicines(p, rows, schedules, key, ops);
      forall i :: 0 <= i < |rows| ==> r[i].name == sealed[i].name && r[i].category == sealed[i].category
  {
    var r := DecryptedMedicines(p, rows, schedules, key, ops);
    forall i | 0 <= i < |rows| ensures r[i].name == sealed[i].name && r[i].category == sealed[i].category {
      var s := sealed[i];
      DecryptedFieldReadsBack(p, s.name, key, s.nameIv, s.nameSalt);
      DecryptedFieldReadsBack(p, s.category, key, s.categoryIv, s.categorySalt);
    }
  }

  /** A preset attached under a truthy id. */
  predicate HasPreset(v: MedicineView) {
    v.row.presetMedicine.Some? && v.row.presetMedicine.value.id != ""
  }

  /** The ids of a list of presets, in order. */
  function Ids(ps: seq<Preset>): (r: seq<string>)
    ensures |r| == |ps| && forall i :: 0 <= i < |ps| ==> r[i] == ps[i].id
  {
    seq(|ps|, i requires 0 <= i < |ps| => ps[i].id)
  }

  /** The position of the preset with this id. */
  function FindPreset(ps: seq<Preset>, id: string): (r: Option<nat>)
    ensures r.None? <==> id !in Ids(ps)
    ensures r.Some? ==> r.value < |ps| && ps[r.value].id == id
  {
    if |ps| == 0 then None
    else if ps[|ps| - 1].id == id then Some(|ps| - 1)
    else
      var r := FindPreset(ps[..|ps| - 1], id);
      assert Ids(ps) == Ids(ps[..|ps| - 1]) + [ps[|ps| - 1].id];
      r
  }

  /** Presets with pairwise different ids, as the values of a `Map` keyed by id are. */
  predicate DistinctIds(ps: seq<Preset>) {
    forall i, j :: 0 <= i < j < |ps| ==> ps[i].id != ps[j].id
  }

  /** `map.set(preset.id, preset)` on the map's values in insertion order: an entry under
      the same id is replaced in its place, otherwise the preset is appended. `j` is its
      position. */
  method SetPreset(presets: seq<Preset>, preset: Preset) returns (r: seq<Preset>, j: nat)
    requires DistinctIds(presets)
    ensures DistinctIds(r)
    ensures j <= |presets| && j < |r| && r[j] == preset
    ensures j < |presets| ==> |r| == |presets| && Ids(r) == Ids(presets)
    ensures j == |presets| ==> r == presets + [preset] && preset.id !in Ids(presets)
    ensures j == |presets| ==> Ids(r) == Ids(presets) + [preset.id]
    ensures forall i :: 0 <= i < |presets| && i != j ==> r[i] == presets[i]
  {
    match FindPreset(presets, preset.id)
    case Some(k) =>
      r, j := presets[k := preset], k;
      assert Ids(r) == Ids(presets);
    case None =>
      r, j := presets + [preset], |presets|;
      assert Ids(r) == Ids(presets) + [preset.id];
  }

  /** The `presetMedicinesMap` loop and `Array.from(map.values())`: one preset per distinct
      id, in the order the ids first appear; a later preset under the same id replaces the
      earlier one in its place, as `Map.set` does. */
  method DistinctPresets(views: seq<MedicineView>) returns (presets: seq<Preset>)
    ensures DistinctIds(presets)
    ensures forall p :: p in presets ==>
      exists k :: 0 <= k < |views| && HasPreset(views[k]) && views[k].row.presetMedicine.value == p
    ensures forall k :: 0 <= k < |views| && HasPreset(views[k]) ==> views[k].row.presetMedicine.value.id in Ids(presets)
  {
    presets := [];
    ghost var origin: seq<nat> := [];  // the medicine each entry was last set from
    var n := 0;
    while n < |views|
      invariant 0 <= n <= |views| && |origin| == |presets|
      invariant DistinctIds(presets)
      invariant forall i :: 0 <= i < |presets| ==>
        origin[i] < n && HasPreset(views[origin[i]]) && views[origin[i]].row.presetMedicine.value == presets[i]
      invariant forall k :: 0 <= k < n && HasPreset(views[k]) ==> views[k].row.presetMedicine.value.id in Ids(presets)
    {
      if HasPreset(views[n]) {
        ghost var before := presets;
        var j;
        presets, j := SetPreset(presets, views[n].row.presetMedicine.value);
        if j < |before| {
          origin := origin[j := n];
        } else {
          origin := origin + [n];
        }
      }
      n := n + 1;
    }
    forall p | p in presets
      ensures exists k :: 0 <= k < |views| && HasPreset(views[k]) && views[k].row.presetMedicine.value == p
    {
      var i :| 0 <= i < |presets| && presets[i] == p;
      assert HasPreset(views[origin[i]]) && views[origin[i]].row.presetMedicine.value == p;
    }
  }

  /** The body of a successful `getUserMedicines`. */
  datatype UserMedicines = UserMedicines(data: seq<MedicineView>, presets: seq<Preset>)

  /** `getUserMedicines`: 401 without a user; 500 when the user or their key is missing;
      400 when the lookup throws; otherwise 200 with the decrypted collection and the
      distinct presets it uses. A field that fails to decrypt never fails the request. */
  method GetUserMedicines(p: Primitives, ops: NumberOps, medicines: seq<Medicine>, schedules: seq<Schedule>,
                          findUser: UserLookup, userId: Option<string>,
                          search: Option<string>, category: Option<string>) returns (r: Reply<UserMedicines>)
    ensures !Authenticated(userId) <==> r.Failure? && r.status == 401
    ensures Authenticated(userId) && findUser(userId.value).Err? ==>
      r == Failure(400, "Unable to fetch user medicines")
    ensures (Authenticated(userId) && findUser(userId.value).Ok? &&
             (findUser(userId.value).value.None? || findUser(userId.value).value.value.encryptionKey.None? ||
              findUser(userId.value).value.value.encryptionKey.value == "")) ==>
      r == Failure(500, "User encryption key not found")
    ensures r.Success? <==>
      Authenticated(userId) && findUser(userId.value).Ok? && findUser(userId.value).value.Some? &&
      findUser(userId.value).value.value.encryptionKey.Some? && findUser(userId.value).value.value.encryptionKey.value != ""
    ensures r.Success? ==> r.status == 200
    ensures r.Success? ==>
      r.value.data == DecryptedMedicines(p, UserMedicineRows(medicines, userId.value, search, category), schedules,
                                         findUser(userId.value).value.value.encryptionKey.value, ops)
    ensures r.Success? ==> forall i, j :: 0 <= i < j < |r.value.presets| ==> r.value.presets[i].id != r.value.presets[j].id
    ensures r.Success? ==> forall k :: 0 <= k < |r.value.data| && HasPreset(r.value.data[k]) ==>
      r.value.data[k].row.presetMedicine.value.id in Ids(r.value.presets)
    ensures r.Success? ==> forall q :: q in r.value.presets ==>
      exists k :: 0 <= k < |r.value.data| && HasPreset(r.value.data[k]) && r.value.data[k].row.presetMedicine.value == q
  {
    if !Authenticated(userId) {
      return Failure(401, "User not authenticated");
    }
    var found := findUser(userId.value);
    if found.Err? {
      return Failure(400, "Unable to fetch user medicines");
    }
    if found.value.None? || found.value.value.encryptionKey.None? || found.value.value.encryptionKey.value == "" {
      return Failure(500, "User encryption key not found");
    }
    var key := found.value.value.encryptionKey.value;
    var data := DecryptedMedicines(p, UserMedicineRows(medicines, userId.value, search, category), schedules, key, ops);
    var presets := DistinctPresets(data);
    return Success(200, UserMedicines(data, presets));
  }

  /** One entry of the data `updateUserMedicine` passes to `prisma.userMedicine.update`. */
  datatype FieldUpdate =
    | Raw(v: Json)                              // the submitted value as it is
    | Number(n: Option<real>)                   // Number(value); None is NaN
    | Date(v: Json)                             // new Date(value)
    | ReplaceSchedules(items: seq<ScheduleData>) // deleteMany {} then create the list

  /** The keys the handler destructures; every other key is copied through `...updateData`. */
  const NAMED_KEYS: seq<string> := ["name", "category", "unit", "quantity", "startDate", "endDate", "dosagePerDay", "schedules"]

  /** Whether `key` makes it into the update data. */
  predicate Kept(key: string, v: Json) {
    if key in ["name", "category", "unit", "startDate", "endDate", "schedules"] then Truthy(Some(v))
    else true
  }

  function Translate(key: string, v: Json, schedules: seq<ScheduleData>, ops: NumberOps): FieldUpdate {
    if key == "quantity" || key == "dosagePerDay" then Number(ToNumber(Some(v), ops))
    else if key == "startDate" || key == "endDate" then Date(v)
    else if key == "schedules" then ReplaceSchedules(schedules)
    else Raw(v)
  }

  /** The `data` of `prisma.userMedicine.update`: truthy `name`, `category`, `unit`,
      `startDate` and `endDate`, every present `quantity` and `dosagePerDay`, every other key
      of the body as it is, and the schedule replacement when `schedules` is truthy. */
  function UpdateData(body: map<string, Json>, schedules: Option<seq<ScheduleData>>, ops: NumberOps): (r: map<string, FieldUpdate>)
    ensures r.Keys <= body.Keys
    ensures forall k :: k in body && k !in NAMED_KEYS ==> k in r && r[k] == Raw(body[k])
    ensures forall k :: k in ["name", "category", "unit"] && k in body ==>
      (k in r <==> Truthy(Some(body[k]))) && (k in r ==> r[k] == Raw(body[k]))
    ensures forall k :: k in ["startDate", "endDate"] && k in body ==>
      (k in r <==> Truthy(Some(body[k]))) && (k in r ==> r[k] == Date(body[k]))
    ensures forall k :: k in ["quantity", "dosagePerDay"] && k in body ==>
      k in r && r[k] == Number(ToNumber(Some(body[k]), ops))
    ensures "schedules" in r <==> Truthy(Lookup(body, "schedules"))
    ensures "schedules" in r ==> r["schedules"] == ReplaceSchedules(if schedules.Some? then schedules.value else [])
  {
    var items := if schedules.Some? then schedules.value else [];
    map k | k in body && Kept(k, body[k]) :: Translate(k, body[k], items, ops)
  }

  /** `updateUserMedicine`: 401 without a user; 500 when the schedules cannot be mapped,
      when the user owns no medicine `id` (the update finds no row), or when the database
      rejects the update data (`dbAccepts`: an unknown key or a wrongly typed value);
      otherwise 200 with the update data. */
  function UpdateUserMedicine(medicines: seq<Medicine>, id: string, body: map<string, Json>,
                              userId: Option<string>, ops: NumberOps,
                              dbAccepts: map<string, FieldUpdate> -> bool): (r: Reply<map<string, FieldUpdate>>)
    ensures r.Failure? && r.status == 401 <==> !Authenticated(userId)
    ensures r.Success? <==>
      && Authenticated(userId)
      && SchedulesFrom(Lookup(body, "schedules"), ops).Ok?
      && (exists m :: m in medicines && Owned(m, id, userId.value))
      && dbAccepts(UpdateData(body, SchedulesFrom(Lookup(body, "schedules"), ops).value, ops))
    ensures r.Failure? && r.status != 401 ==> r == Failure(500, "Failed to update medicine")
    ensures r.Success? ==>
      r.status == 200 && r.value == UpdateData(body, SchedulesFrom(Lookup(body, "schedules"), ops).value, ops)
    ensures r.Success? && "schedules" in r.value ==>
      SchedulesFrom(Lookup(body, "schedules"), ops).value.Some? &&
      r.value["schedules"] == ReplaceSchedules(SchedulesFrom(Lookup(body, "schedules"), ops).value.value)
  {
    if !Authenticated(userId) then Failure(401, "Unauthorized")
    else
      match SchedulesFrom(Lookup(body, "schedules"), ops)
      case Err(_) => Failure(500, "Failed to update medicine")
      case Ok(schedules) =>
        if !exists i | 0 <= i < |medicines| :: Owned(medicines[i], id, userId.value) then
          Failure(500, "Failed to update medicine")
        else
          var data := UpdateData(body, schedules, ops);
          if dbAccepts(data) then Success(200, data)
          else Failure(500, "Failed to update medicine")
  }
}
