/** The add-medication screen: the catalogue search, the save validation chain, the object
    handed to `addMedication`, and the form reset. */
module AddMedicationScreen {
  import opened Wrappers
  import opened Text
  import opened JsValues
  import MedicationContext

  /** An entry of the built-in catalogue. */
  datatype CatalogEntry = CatalogEntry(id: string, name: string, category: string)

  const EXISTING_MEDICATIONS: seq<CatalogEntry> := [
    CatalogEntry("med1", "Acetaminophen (Tylenol)", "Pain Reliever"),
    CatalogEntry("med2", "Ibuprofen (Advil)", "Anti-inflammatory"),
    CatalogEntry("med3", "Aspirin", "Pain Reliever"),
    CatalogEntry("med4", "Loratadine (Claritin)", "Antihistamine"),
    CatalogEntry("med5", "Diphenhydramine (Benadryl)", "Antihistamine"),
    CatalogEntry("med6", "Omeprazole (Prilosec)", "Acid Reducer"),
    CatalogEntry("med7", "Simvastatin", "Cholesterol"),
    CatalogEntry("med8", "Lisinopril", "Blood Pressure"),
    CatalogEntry("med9", "Amoxicillin", "Antibiotic"),
    CatalogEntry("med10", "Metformin", "Diabetes")]

  /** `filteredMedications`: the entries whose lowercased name contains the lowercased
      query, in catalogue order. */
  function FilteredMedications(entries: seq<CatalogEntry>, query: string): (r: seq<CatalogEntry>)
    ensures forall e :: e in r <==> e in entries && Contains(LowerStr(e.name), LowerStr(query))
    ensures |r| <= |entries|
  {
    if |entries| == 0 then []
    else
      var last := entries[|entries| - 1];
      FilteredMedications(entries[..|entries| - 1], query) +
        (if Contains(LowerStr(last.name), LowerStr(query)) then [last] else [])
  }

  /** With an empty search box every entry is listed, in order. */
  lemma {:induction false} EmptyQueryListsAll(entries: seq<CatalogEntry>)
    ensures FilteredMedications(entries, "") == entries
  {
    if |entries| > 0 {
      var last := entries[|entries| - 1];
      assert OccursAt(LowerStr(last.name), LowerStr(""), 0);
      EmptyQueryListsAll(entries[..|entries| - 1]);
    }
  }

  /** The list does not depend on the case of the query. */
  lemma QueryCaseIgnored(entries: seq<CatalogEntry>, query: string)
    ensures FilteredMedications(entries, LowerStr(query)) == FilteredMedications(entries, query)
  {
    LowerStrIdempotent(query);
  }

  const FILL_REQUIRED: string := "Please fill in all required fields"
  const INVALID_QUANTITY: string := "Please enter a valid quantity."
  const CUSTOM_CATEGORY_REQUIRED: string := "Please provide a custom category."
  const PAST_EXPIRY: string := "Expiration date cannot be in the past."
  const OTHER: string := "Other"
  const NOT_SPECIFIED: string := "Not specified"

  /** `isNaN(quantity) || parseInt(quantity) <= 0`; a NaN from `parseInt` compares false. */
  predicate QuantityRejected(quantity: string, ops: NumberOps) {
    ops.fromString(quantity).None? || (ops.parseInt(quantity).Some? && ops.parseInt(quantity).value <= 0)
  }

  /** What a save that passes every check goes on with: the name, `parseInt(quantity)`
      (`None` for NaN), the final category and the expiry in milliseconds. */
  datatype Entry = Entry(name: string, quantity: Option<int>, category: string, expiry: int)

  /** The chain of `handleSaveMedication`, in source order, given the quantity check's
      verdict; the first failure is the alert shown. */
  function ValidateBy(quantityRejected: bool, name: string, quantity: string, selectedCategory: string,
                      customCategory: string, expiry: int, now: int, ops: NumberOps): Result<Entry>
  {
    if name == "" || quantity == "" then Err(FILL_REQUIRED)
    else if quantityRejected then Err(INVALID_QUANTITY)
    else if selectedCategory == OTHER && Trim(customCategory) == "" then Err(CUSTOM_CATEGORY_REQUIRED)
    else
      var finalCategory := if selectedCategory == OTHER then customCategory else selectedCategory;
      if expiry < now then Err(PAST_EXPIRY)
      else Ok(Entry(name, ops.parseInt(quantity), finalCategory, expiry))
  }

  /** The checks of `handleSaveMedication`, in source order; the first failure is the alert
      shown. */
  function Validate(name: string, quantity: string, selectedCategory: string, customCategory: string,
                    expiry: int, now: int, ops: NumberOps): (r: Result<Entry>)
    ensures r == Err(FILL_REQUIRED) <==> name == "" || quantity == ""
    ensures r == Err(INVALID_QUANTITY) <==> name != "" && quantity != "" && QuantityRejected(quantity, ops)
    ensures r == Err(CUSTOM_CATEGORY_REQUIRED) <==>
      name != "" && quantity != "" && !QuantityRejected(quantity, ops) &&
      selectedCategory == OTHER && Trim(customCategory) == ""
    ensures r == Err(PAST_EXPIRY) <==>
      name != "" && quantity != "" && !QuantityRejected(quantity, ops) &&
      !(selectedCategory == OTHER && Trim(customCategory) == "") && expiry < now
    ensures r.Ok? ==>
      r.value == Entry(name, ops.parseInt(quantity), if selectedCategory == OTHER then customCategory else selectedCategory, expiry)
  {
    ValidateBy(QuantityRejected(quantity, ops), name, quantity, selectedCategory, customCategory, expiry, now, ops)
  }

  /** A save either fails with one of the four alerts or goes on with a named entry whose
      expiry is not in the past and whose category, when 'Other' is chosen, is not blank. */
  lemma ValidateOutcomes(name: string, quantity: string, selectedCategory: string, customCategory: string,
                         expiry: int, now: int, ops: NumberOps)
    ensures var r := Validate(name, quantity, selectedCategory, customCategory, expiry, now, ops);
      r.Err? ==> r.message in {FILL_REQUIRED, INVALID_QUANTITY, CUSTOM_CATEGORY_REQUIRED, PAST_EXPIRY}
    ensures var r := Validate(name, quantity, selectedCategory, customCategory, expiry, now, ops);
      r.Ok? ==> r.value.name != "" && now <= r.value.expiry &&
                (selectedCategory == OTHER ==> Trim(r.value.category) != "")
  {
  }

  /** `purpose: finalCategory || 'Not specified'`. */
  function Purpose(category: string): (p: string)
    ensures p != ""
    ensures category != "" ==> p == category
  {
    if category == "" then NOT_SPECIFIED else category
  }

  /** The quantity as handed on: `parseInt`'s NaN is falsy like `null`, which stands for
      it here. */
  function QuantityValue(q: Option<int>): Json {
    if q.None? then Null else Num(q.value as real)
  }

  /** `newMedication` as written: the category travels as `purpose` and the expiry as
      `expirationDate`. `iso` is `toISOString`, `newId` is `Date.now().toString()`. */
  function SavedObject(e: Entry, newId: string, now: int, iso: int -> string): map<string, Json> {
    map["id" := Str(newId), "name" := Str(e.name), "quantity" := QuantityValue(e.quantity),
        "expirationDate" := Str(iso(e.expiry)), "purpose" := Str(Purpose(e.category)),
        "addedDate" := Str(iso(now))]
  }

  /** The context reads `category` and `expiryDate`, which this object lacks: whatever the
      user chose, the request carries category 'Other' and an expiry of the moment of
      saving. */
  lemma SavedChoiceDropped(e: Entry, newId: string, now: int, iso: int -> string, nowDate: Json)
    ensures var req := MedicationContext.AddFields(SavedObject(e, newId, now, iso), nowDate);
      req.category == MedicationContext.DEFAULT_CATEGORY && req.expiryDate == nowDate
  {
    var o := SavedObject(e, newId, now, iso);
    assert "category" !in o && "expiryDate" !in o;
  }

  /** `newMedication` under the names the context reads. */
  function CorrectedObject(e: Entry, newId: string, now: int, iso: int -> string): map<string, Json> {
    map["id" := Str(newId), "name" := Str(e.name), "quantity" := QuantityValue(e.quantity),
        "expiryDate" := Str(iso(e.expiry)), "category" := Str(Purpose(e.category)),
        "addedDate" := Str(iso(now))]
  }

  /** With the context's names, the request keeps the chosen category (or 'Not specified')
      and the chosen expiry. */
  lemma CorrectedKeepsChoice(e: Entry, newId: string, now: int, iso: int -> string, nowDate: Json)
    requires iso(e.expiry) != ""
    ensures var req := MedicationContext.AddFields(CorrectedObject(e, newId, now, iso), nowDate);
      req.category == Str(Purpose(e.category)) && req.expiryDate == Str(iso(e.expiry)) &&
      req.name == Some(Str(e.name))
  {
    var o := CorrectedObject(e, newId, now, iso);
    assert Lookup(o, "category") == Some(Str(Purpose(e.category)));
    assert Lookup(o, "expiryDate") == Some(Str(iso(e.expiry)));
  }

  /** A blank quantity such as " " is not empty, `Number(" ")` is 0 rather than NaN, and
      `parseInt(" ")` is NaN, which is not `<= 0`: the save goes through, and the context
      turns the NaN into a quantity of 0. */
  lemma BlankQuantityAccepted(name: string, selectedCategory: string, customCategory: string,
                              expiry: int, now: int, ops: NumberOps, newId: string, iso: int -> string, nowDate: Json)
    requires ops.fromString(" ") == Some(0.0) && ops.parseInt(" ") == None
    requires name != "" && selectedCategory != OTHER && now <= expiry
    ensures var r := Validate(name, " ", selectedCategory, customCategory, expiry, now, ops);
      r.Ok? && r.value.quantity.None? &&
      MedicationContext.AddFields(SavedObject(r.value, newId, now, iso), nowDate).quantity == MedicationContext.DEFAULT_QUANTITY
  {
  }

  /** The quantity check as intended: the quantity must parse to a positive integer. */
  predicate QuantityRejectedCorrected(quantity: string, ops: NumberOps) {
    ops.fromString(quantity).None? || !(ops.parseInt(quantity).Some? && ops.parseInt(quantity).value > 0)
  }

  /** The save checks with the intended quantity check: every accepted entry has a positive
      whole quantity, and an entry this accepts the check as written accepts alike. */
  function ValidateCorrected(name: string, quantity: string, selectedCategory: string, customCategory: string,
                             expiry: int, now: int, ops: NumberOps): (r: Result<Entry>)
    ensures r == Err(INVALID_QUANTITY) <==> name != "" && quantity != "" && QuantityRejectedCorrected(quantity, ops)
    ensures r.Ok? ==> r.value.quantity.Some? && r.value.quantity.value > 0
    ensures r.Ok? ==> r == Validate(name, quantity, selectedCategory, customCategory, expiry, now, ops)
  {
    ValidateBy(QuantityRejectedCorrected(quantity, ops), name, quantity, selectedCategory, customCategory, expiry, now, ops)
  }

  /** Under the premises of `BlankQuantityAccepted`, the intended check turns the blank
      quantity away. */
  lemma CorrectedRejectsBlank(name: string, selectedCategory: string, customCategory: string,
                              expiry: int, now: int, ops: NumberOps)
    requires ops.fromString(" ") == Some(0.0) && ops.parseInt(" ") == None
    requires name != "" && selectedCategory != OTHER && now <= expiry
    ensures ValidateCorrected(name, " ", selectedCategory, customCategory, expiry, now, ops) == Err(INVALID_QUANTITY)
    ensures Validate(name, " ", selectedCategory, customCategory, expiry, now, ops).Ok?
  {
  }

  /** What a save attempt does: the alert shown, or the object handed to `addMedication`
      (after which the form is reset and the screen navigates to the list). */
  datatype SaveOutcome = Rejected(alert: string) | Saved(medication: map<string, Json>)

  /** The screen's form state. */
  class AddMedicationForm {
    var searchQuery: string
    var showCustomForm: bool
    var medicationName: string
    var quantity: string
    var expirationDate: int
    var selectedCategory: string
    var customCategory: string

    constructor(now: int)
      ensures searchQuery == "" && !showCustomForm && medicationName == "" && quantity == ""
      ensures expirationDate == now && selectedCategory == "" && customCategory == ""
    {
      searchQuery := "";
      showCustomForm := false;
      medicationName := "";
      quantity := "";
      expirationDate := now;
      selectedCategory := "";
      customCategory := "";
    }

    /** `handleSelectExisting`: the entry's name and category, and the form is shown. */
    method SelectExisting(e: CatalogEntry)
      modifies this
      ensures medicationName == e.name && selectedCategory == e.category && showCustomForm
      ensures searchQuery == old(searchQuery) && quantity == old(quantity)
      ensures expirationDate == old(expirationDate) && customCategory == old(customCategory)
    {
      medicationName := e.name;
      selectedCategory := e.category;
      showCustomForm := true;
    }

    /** `resetFormAndGoBack`: clears the form (the expiry back to now) and hides it; the
        search box keeps its text. */
    method ResetFormAndGoBack(now: int)
      modifies this
      ensures medicationName == "" && quantity == "" && expirationDate == now
      ensures selectedCategory == "" && customCategory == "" && !showCustomForm
      ensures searchQuery == old(searchQuery)
    {
      medicationName := "";
      quantity := "";
      expirationDate := now;
      selectedCategory := "";
      customCategory := "";
      showCustomForm := false;
    }

    /** `handleSaveMedication`: a failed check shows its alert and changes nothing; a save
        hands the object on once and resets the form. */
    method HandleSave(now: int, newId: string, iso: int -> string, ops: NumberOps) returns (outcome: SaveOutcome)
      modifies this
      ensures var v := Validate(old(medicationName), old(quantity), old(selectedCategory), old(customCategory),
                                old(expirationDate), now, ops);
        && (v.Err? ==> outcome == Rejected(v.message) && unchanged(this))
        && (v.Ok? ==>
              && outcome == Saved(SavedObject(v.value, newId, now, iso))
              && medicationName == "" && quantity == "" && expirationDate == now
              && selectedCategory == "" && customCategory == "" && !showCustomForm
              && searchQuery == old(searchQuery))
    {
      var v := Validate(medicationName, quantity, selectedCategory, customCategory, expirationDate, now, ops);
      if v.Err? {
        outcome := Rejected(v.message);
        return;
      }
      outcome := Saved(SavedObject(v.value, newId, now, iso));
      ResetFormAndGoBack(now);
    }
  }
}
