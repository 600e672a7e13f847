/** The medication detail screen: which medication it shows, its 30-day expiry warning and
    the delete action. */
module MedicationDetailScreen {
  import opened Wrappers
  import opened Clock
  import opened ClientData

  /** The warning horizon in days. */
  const WARNING_DAYS: int := 30

  /** `isExpiringSoon(dateString)`: `0 < Math.ceil((expiry - now) / 86400000) <= 30`. */
  predicate IsExpiringSoon(expiry: int, now: int) {
    var days := CeilDiv(expiry - now, MS_PER_DAY);
    days <= WARNING_DAYS && days > 0
  }

  /** The warning shows exactly for an expiry after now and at most 30 days ahead; an expiry
      at or before now never shows it. */
  lemma ExpiringSoonExactly(expiry: int, now: int)
    ensures IsExpiringSoon(expiry, now) <==> now < expiry <= now + WARNING_DAYS * MS_PER_DAY
  {
    CeilDivAtMost(expiry - now, MS_PER_DAY, WARNING_DAYS);
    CeilDivAtMost(expiry - now, MS_PER_DAY, 0);
  }

  /** `isExpiringSoon(x)` for a date that may be invalid: `new Date(undefined)` is an
      Invalid Date (`None`), whose day count is NaN, and both comparisons with NaN are
      false. */
  predicate WarningShown(expiry: Option<int>, now: int) {
    expiry.Some? && IsExpiringSoon(expiry.value, now)
  }

  /** The properties a client medication record carries. */
  const RECORD_KEYS: set<string> := {"id", "name", "unit", "quantity", "expiryDate", "schedules"}

  /** The property the screen reads the expiry from, as written. */
  const EXPIRY_KEY_AS_WRITTEN: string := "expirationDate"

  /** The property the records carry the expiry under. */
  const EXPIRY_KEY: string := "expiryDate"

  /** `medication[key]` as a date: the record's expiry under `expiryDate`, and `undefined`
      (an Invalid Date) under a key the record does not carry. */
  function DateProperty(m: ClientMedication, key: string): (r: Option<int>)
    ensures key == EXPIRY_KEY ==> r == Some(m.expiryDate)
    ensures key !in RECORD_KEYS ==> r.None?
  {
    if key == EXPIRY_KEY then Some(m.expiryDate) else None
  }

  /** As written, the screen reads `expirationDate`, which no record carries, so the
      warning never shows, whatever the expiry. */
  lemma WarningNeverShown(m: ClientMedication, now: int)
    ensures EXPIRY_KEY_AS_WRITTEN !in RECORD_KEYS
    ensures !WarningShown(DateProperty(m, EXPIRY_KEY_AS_WRITTEN), now)
    ensures now < m.expiryDate <= now + WARNING_DAYS * MS_PER_DAY ==>
      WarningShown(DateProperty(m, EXPIRY_KEY), now) != WarningShown(DateProperty(m, EXPIRY_KEY_AS_WRITTEN), now)
  {
    ExpiringSoonExactly(m.expiryDate, now);
  }

  /** Reading `expiryDate` instead, the warning shows exactly for an expiry after now and at
      most 30 days ahead. */
  lemma CorrectedWarningShown(m: ClientMedication, now: int)
    ensures WarningShown(DateProperty(m, EXPIRY_KEY), now) <==> now < m.expiryDate <= now + WARNING_DAYS * MS_PER_DAY
  {
    ExpiringSoonExactly(m.expiryDate, now);
  }

  /** What the screen renders. */
  datatype View = NotFound | Details(medication: ClientMedication)

  /** The screen for `medicationId`: the first medication with that id, or the not-found
      view. */
  function Screen(ms: seq<ClientMedication>, medicationId: string): (v: View)
    ensures v.NotFound? <==> forall j :: 0 <= j < |ms| ==> ms[j].id != medicationId
    ensures v.Details? ==> v.medication in ms && v.medication.id == medicationId
  {
    match FindMedication(ms, medicationId)
    case None => NotFound
    case Some(k) => Details(ms[k])
  }

  /** What `handleDelete` does, in order. */
  datatype Effect = DeleteMedication(id: string) | GoBack

  /** `handleDelete`: delete this id, then navigate back. */
  function HandleDelete(medicationId: string): (effects: seq<Effect>)
    ensures |effects| == 2 && effects[0].DeleteMedication? && effects[0].id == medicationId && effects[1] == GoBack
  {
    [DeleteMedication(medicationId), GoBack]
  }
}
