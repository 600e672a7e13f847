/** The client's medication context: the field defaulting of the add and update requests,
    and the boolean outcome of each mutation. */
module MedicationContext {
  import opened Wrappers
  import opened JsValues

  const DEFAULT_CATEGORY: Json := Str("Other")
  const DEFAULT_UNIT: Json := Str("PILLS")
  const DEFAULT_QUANTITY: Json := Num(0.0)
  const DEFAULT_DOSAGE_PER_DAY: Json := Num(1.0)
  const DEFAULT_SCHEDULES: Json := Arr([])

  /** `v || d`. */
  function Or(v: Option<Json>, d: Json): Json {
    if Truthy(v) then v.value else d
  }

  /** The properties of an argument that is neither `null` nor `undefined`; a number, string
      or boolean has none of the medication's properties. */
  function FieldsOf(o: Json): map<string, Json> {
    if o.Obj? then o.fields else map[]
  }

  /** The `mappedData` object. `name` is `None` where the property is `undefined` (and
      `JSON.stringify` drops it); `presetMedicineId` is `None` in the update request, which
      has no such key. */
  datatype MedicineRequest = MedicineRequest(
    name: Option<Json>,
    category: Json,
    unit: Json,
    quantity: Json,
    expiryDate: Json,
    startDate: Json,
    endDate: Json,
    dosagePerDay: Json,
    prescription: Json,
    presetMedicineId: Option<Json>,
    schedules: Json)

  /** The `mappedData` of `updateMedication`. `now` is `new Date()`. */
  function UpdateFields(data: map<string, Json>, now: Json): (r: MedicineRequest)
    ensures r.name == Lookup(data, "name") && r.presetMedicineId.None?
    ensures Truthy(Lookup(data, "category")) ==> r.category == data["category"]
    ensures !Truthy(Lookup(data, "category")) ==> r.category == DEFAULT_CATEGORY
    ensures Truthy(Lookup(data, "unit")) ==> r.unit == data["unit"]
    ensures !Truthy(Lookup(data, "unit")) ==> r.unit == DEFAULT_UNIT
    ensures Truthy(Lookup(data, "quantity")) ==> r.quantity == data["quantity"]
    ensures !Truthy(Lookup(data, "quantity")) ==> r.quantity == DEFAULT_QUANTITY
    ensures Truthy(Lookup(data, "expiryDate")) ==> r.expiryDate == data["expiryDate"]
    ensures !Truthy(Lookup(data, "expiryDate")) ==> r.expiryDate == now
    ensures Truthy(Lookup(data, "dosagePerDay")) ==> r.dosagePerDay == data["dosagePerDay"]
    ensures !Truthy(Lookup(data, "dosagePerDay")) ==> r.dosagePerDay == DEFAULT_DOSAGE_PER_DAY
    ensures Truthy(Lookup(data, "schedules")) ==> r.schedules == data["schedules"]
    ensures !Truthy(Lookup(data, "schedules")) ==> r.schedules == DEFAULT_SCHEDULES
    ensures r.startDate == (if Truthy(Lookup(data, "startDate")) then data["startDate"] else Null)
    ensures r.endDate == (if Truthy(Lookup(data, "endDate")) then data["endDate"] else Null)
    ensures r.prescription == (if Truthy(Lookup(data, "prescription")) then data["prescription"] else Null)
  {
    MedicineRequest(
      Lookup(data, "name"),
      Or(Lookup(data, "category"), DEFAULT_CATEGORY),
      Or(Lookup(data, "unit"), DEFAULT_UNIT),
      Or(Lookup(data, "quantity"), DEFAULT_QUANTITY),
      Or(Lookup(data, "expiryDate"), now),
      Or(Lookup(data, "startDate"), Null),
      Or(Lookup(data, "endDate"), Null),
      Or(Lookup(data, "dosagePerDay"), DEFAULT_DOSAGE_PER_DAY),
      Or(Lookup(data, "prescription"), Null),
      None,
      Or(Lookup(data, "schedules"), DEFAULT_SCHEDULES))
  }

  /** The `mappedData` of `addMedication`: the update mapping plus `presetMedicineId`. */
  function AddFields(data: map<string, Json>, now: Json): (r: MedicineRequest)
    ensures r.presetMedicineId == Some(if Truthy(Lookup(data, "presetMedicineId")) then data["presetMedicineId"] else Null)
  {
    UpdateFields(data, now).(presetMedicineId := Some(Or(Lookup(data, "presetMedicineId"), Null)))
  }

  /** The update request is the add request without `presetMedicineId`. */
  lemma UpdateIsAddWithoutPreset(data: map<string, Json>, now: Json)
    ensures UpdateFields(data, now) == AddFields(data, now).(presetMedicineId := None)
  {
  }

  /** Defaults are falsy-based: a dosage of 0 becomes 1 and an empty category becomes
      'Other'. */
  lemma FalsyValuesDefault(data: map<string, Json>, now: Json)
    requires Lookup(data, "dosagePerDay") == Some(Num(0.0)) && Lookup(data, "category") == Some(Str(""))
    ensures AddFields(data, now).dosagePerDay == Num(1.0)
    ensures AddFields(data, now).category == Str("Other")
  {
  }

  /** The property `key` of the request object; `None` where the object has no such key. */
  function Field(r: MedicineRequest, key: string): Option<Json> {
    if key == "name" then r.name
    else if key == "category" then Some(r.category)
    else if key == "unit" then Some(r.unit)
    else if key == "quantity" then Some(r.quantity)
    else if key == "expiryDate" then Some(r.expiryDate)
    else if key == "startDate" then Some(r.startDate)
    else if key == "endDate" then Some(r.endDate)
    else if key == "dosagePerDay" then Some(r.dosagePerDay)
    else if key == "prescription" then Some(r.prescription)
    else if key == "presetMedicineId" then r.presetMedicineId
    else if key == "schedules" then Some(r.schedules)
    else None
  }

  const REQUEST_KEYS: set<string> := {"name", "category", "unit", "quantity", "expiryDate", "startDate", "endDate",
                                      "dosagePerDay", "prescription", "presetMedicineId", "schedules"}

  /** The request as the object it is sent as. */
  function AsObject(r: MedicineRequest): (o: map<string, Json>)
    ensures forall k :: Lookup(o, k) == Field(r, k)
  {
    map k | k in REQUEST_KEYS && Field(r, k).Some? :: Field(r, k).value
  }

  /** Mapping an already mapped request changes nothing: every default is either truthy or
      the falsy value it replaces. */
  lemma AddFieldsIdempotent(data: map<string, Json>, now: Json)
    ensures AddFields(AsObject(AddFields(data, now)), now) == AddFields(data, now)
  {
    var r := AddFields(data, now);
    var o := AsObject(r);
    assert Lookup(o, "name") == r.name;
    assert Lookup(o, "category") == Some(r.category) && Lookup(o, "unit") == Some(r.unit);
    assert Lookup(o, "quantity") == Some(r.quantity) && Lookup(o, "expiryDate") == Some(r.expiryDate);
    assert Lookup(o, "startDate") == Some(r.startDate) && Lookup(o, "endDate") == Some(r.endDate);
    assert Lookup(o, "dosagePerDay") == Some(r.dosagePerDay) && Lookup(o, "prescription") == Some(r.prescription);
    assert Lookup(o, "schedules") == Some(r.schedules) && Lookup(o, "presetMedicineId") == r.presetMedicineId;
  }

  /** The request each operation hands to its mutation. */
  datatype Mutation =
    | AddMedicine(body: MedicineRequest)
    | UpdateMedicine(id: Option<Json>, data: MedicineRequest)
    | RemoveMedicine(id: Option<Json>)
    | RecordIntake(scheduleId: Option<Json>, takenAt: Json)

  /** An operation's effect: the mutation it started, if any, and the boolean it resolves
      to. */
  datatype Attempt = Attempt(sent: Option<Mutation>, ok: bool)

  /** `true` when the awaited mutation resolves, `false` when it rejects; the error never
      escapes. */
  function Settle(m: Mutation, outcome: Result<Json>): (r: Attempt)
    ensures r.sent == Some(m)
    ensures r.ok <==> outcome.Ok?
  {
    Attempt(Some(m), outcome.Ok?)
  }

  /** Reading a property of `undefined` or `null` throws before anything is sent. */
  predicate Nullish(v: Option<Json>) {
    v.None? || v.value.Null?
  }

  /** `addMedication(medicationData)`; `outcome` is how the mutation settles. */
  function AddMedication(medicationData: Option<Json>, now: Json, outcome: Result<Json>): (r: Attempt)
    ensures Nullish(medicationData) ==> r == Attempt(None, false)
    ensures !Nullish(medicationData) ==>
      r.sent == Some(AddMedicine(AddFields(FieldsOf(medicationData.value), now))) && (r.ok <==> outcome.Ok?)
  {
    if Nullish(medicationData) then Attempt(None, false)
    else Settle(AddMedicine(AddFields(FieldsOf(medicationData.value), now)), outcome)
  }

  /** `updateMedication(id, medicationData)`. */
  function UpdateMedication(id: Option<Json>, medicationData: Option<Json>, now: Json, outcome: Result<Json>)
    : (r: Attempt)
    ensures Nullish(medicationData) ==> r == Attempt(None, false)
    ensures !Nullish(medicationData) ==>
      r.sent == Some(UpdateMedicine(id, UpdateFields(FieldsOf(medicationData.value), now))) &&
      (r.ok <==> outcome.Ok?)
  {
    if Nullish(medicationData) then Attempt(None, false)
    else Settle(UpdateMedicine(id, UpdateFields(FieldsOf(medicationData.value), now)), outcome)
  }

  /** `deleteMedication(id)`. */
  function DeleteMedication(id: Option<Json>, outcome: Result<Json>): (r: Attempt)
    ensures r.sent == Some(RemoveMedicine(id)) && (r.ok <==> outcome.Ok?)
  {
    Settle(RemoveMedicine(id), outcome)
  }

  /** `recordMedicineIntake(scheduleId, takenAt = new Date())`: the default applies only to
      an omitted argument, so an explicit `null` is sent as it is. */
  function RecordMedicineIntake(scheduleId: Option<Json>, takenAt: Option<Json>, now: Json, outcome: Result<Json>)
    : (r: Attempt)
    ensures r.ok <==> outcome.Ok?
    ensures r.sent.Some? && r.sent.value.RecordIntake? && r.sent.value.scheduleId == scheduleId
    ensures takenAt.None? ==> r.sent.value.takenAt == now
    ensures takenAt.Some? ==> r.sent.value.takenAt == takenAt.value
  {
    Settle(RecordIntake(scheduleId, if takenAt.None? then now else takenAt.value), outcome)
  }
}
