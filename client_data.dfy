/** The medication records the mobile client holds: the backend's rows as the client
    receives them, with dates as milliseconds. */
module ClientData {
  import opened Wrappers

  datatype ClientSchedule = ClientSchedule(
    timesOfDay: seq<string>,
    repeatDays: seq<string>,
    isActive: bool,
    dosageAmount: real)

  /** `schedules` is `None` where the record has none (`undefined`). */
  datatype ClientMedication = ClientMedication(
    id: string,
    name: string,
    unit: string,
    quantity: real,
    expiryDate: int,
    schedules: Option<seq<ClientSchedule>>)

  /** The device's `AsyncStorage`: string values under string keys. */
  class KeyValueStore {
    var items: map<string, string>

    constructor(items: map<string, string>)
      ensures this.items == items
    {
      this.items := items;
    }
  }

  /** A stored string is truthy when present and not empty. */
  predicate Present(v: Option<string>) {
    v.Some? && v.value != ""
  }

  /** `medications.find(med => med.id === id)`: the first with that id. */
  function FindMedication(ms: seq<ClientMedication>, id: string): (r: Option<nat>)
    ensures r.Some? ==> r.value < |ms| && ms[r.value].id == id
    ensures r.Some? ==> forall j :: 0 <= j < r.value ==> ms[j].id != id
    ensures r.None? <==> forall j :: 0 <= j < |ms| ==> ms[j].id != id
  {
    if |ms| == 0 then None
    else if ms[0].id == id then Some(0)
    else
      match FindMedication(ms[1..], id)
      case None => None
      case Some(k) => Some(k + 1)
  }
}
