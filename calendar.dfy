/** The calendar screen: the list of reminders, the day markings built from it, and the
    add, delete and per-day filter operations. Dates are the `YYYY-MM-DD` strings the
    calendar hands out. */
module CalendarScreen {
  import opened Wrappers
  import opened ClientData

  datatype Reminder = Reminder(
    id: string,
    medicationId: string,
    medicationName: string,
    date: string,
    time: string,
    notes: string)

  /** A `markedDates` entry: whether it is `marked`, the length of its `dots` array (every
      dot has the same colour), and whether it carries today's `customStyles` and the
      `selected` flag. An entry created as `{}` has none of them. */
  datatype Marking = Marking(marked: bool, dots: nat, today: bool, selected: bool)

  const EMPTY_MARKING: Marking := Marking(false, 0, false, false)

  /** `reminders.filter(reminder => reminder.date === selectedDate)`. */
  function FilteredReminders(rs: seq<Reminder>, date: string): (r: seq<Reminder>)
    ensures forall x :: x in r <==> x in rs && x.date == date
    ensures |r| <= |rs|
  {
    if |rs| == 0 then []
    else
      var last := rs[|rs| - 1];
      FilteredReminders(rs[..|rs| - 1], date) + (if last.date == date then [last] else [])
  }

  /** The dot entries after the `forEach` over the reminders. */
  function DotEntries(rs: seq<Reminder>): map<string, Marking> {
    if |rs| == 0 then map[]
    else
      var dates := DotEntries(rs[..|rs| - 1]);
      var key := rs[|rs| - 1].date;
      if key in dates then dates[key := dates[key].(dots := dates[key].dots + 1)]
      else dates[key := Marking(true, 1, false, false)]
  }

  /** Every reminder date gets a marked entry whose dot count is the number of reminders on
      that date, and no other date gets an entry. */
  lemma {:induction false} DotEntriesCount(rs: seq<Reminder>)
    ensures forall d :: d in DotEntries(rs) <==> |FilteredReminders(rs, d)| > 0
    ensures forall d :: d in DotEntries(rs) ==>
      DotEntries(rs)[d] == Marking(true, |FilteredReminders(rs, d)|, false, false)
  {
    if |rs| > 0 {
      DotEntriesCount(rs[..|rs| - 1]);
    }
  }

  /** The entry `{...dates[key], <update>}`, starting from `{}` when there is none. */
  function Entry(dates: map<string, Marking>, key: string): Marking {
    if key in dates then dates[key] else EMPTY_MARKING
  }

  /** `updateMarkedDates`, as the state update it computes: the dot entries, then today's
      style, then the selected date's flag. The screen reruns it only when `reminders`
      changes, so after another day is chosen the flag stays on the date that was selected
      at the last rerun: `selectedDate` here is that date, not necessarily the current
      selection. */
  function MarkedDates(rs: seq<Reminder>, today: string, selectedDate: string): map<string, Marking> {
    var dates := DotEntries(rs);
    var withToday := dates[today := Entry(dates, today).(today := true)];
    withToday[selectedDate := Entry(withToday, selectedDate).(selected := true)]
  }

  /** `updateMarkedDates`: fills the `dates` dictionary in place, one reminder at a time,
      then marks today and the selected date. */
  method UpdateMarkedDates(rs: seq<Reminder>, today: string, selectedDate: string)
    returns (dates: map<string, Marking>)
    ensures dates == MarkedDates(rs, today, selectedDate)
  {
    dates := map[];
    for i := 0 to |rs|
      invariant dates == DotEntries(rs[..i])
    {
      assert rs[..i + 1][..i] == rs[..i];
      var key := rs[i].date;
      if key !in dates {
        dates := dates[key := Marking(true, 1, false, false)];
      } else {
        dates := dates[key := dates[key].(dots := dates[key].dots + 1)];
      }
    }
    assert rs[..|rs|] == rs;
    if today !in dates {
      dates := dates[today := EMPTY_MARKING];
    }
    dates := dates[today := dates[today].(today := true)];
    if selectedDate !in dates {
      dates := dates[selectedDate := EMPTY_MARKING];
    }
    dates := dates[selectedDate := dates[selectedDate].(selected := true)];
  }

  /** The markings: exactly the reminder dates, today and the selected date have entries;
      each is marked exactly when it has reminders and shows one dot per reminder; only
      today carries today's style and only the selected date the selected flag. */
  lemma MarkedDatesExactly(rs: seq<Reminder>, today: string, selectedDate: string)
    ensures var m := MarkedDates(rs, today, selectedDate);
      forall d :: d in m <==> d == today || d == selectedDate || |FilteredReminders(rs, d)| > 0
    ensures var m := MarkedDates(rs, today, selectedDate);
      forall d :: d in m ==>
        && m[d].dots == |FilteredReminders(rs, d)|
        && (m[d].marked <==> |FilteredReminders(rs, d)| > 0)
        && (m[d].today <==> d == today)
        && (m[d].selected <==> d == selectedDate)
  {
    DotEntriesCount(rs);
  }

  /** The parts of the screen's state the reminder operations read and write. */
  datatype Screen = Screen(
    reminders: seq<Reminder>,
    selectedDate: string,
    selectedMedicationId: Option<string>,
    notes: string,
    modalVisible: bool)

  const SELECT_MEDICATION: string := "Please select a medication"

  /** `addReminder`. `newId` is `Date.now().toString()`, `time` the picked time as an ISO
      string, and `saved` whether the storage write of the new list succeeds (the list is
      only replaced after it). Returns the new state and the alert shown, if any. */
  function AddReminder(s: Screen, medications: seq<ClientMedication>, newId: string, time: string, saved: bool)
    : (r: (Screen, Option<string>))
    ensures !Present(s.selectedMedicationId) ==> r == (s, Some(SELECT_MEDICATION))
    ensures Present(s.selectedMedicationId) && FindMedication(medications, s.selectedMedicationId.value).None? ==>
      r == (s, None)
    ensures Present(s.selectedMedicationId) && FindMedication(medications, s.selectedMedicationId.value).Some? ==>
      var m := medications[FindMedication(medications, s.selectedMedicationId.value).value];
      && r.1.None?
      && r.0.reminders == (if saved then s.reminders + [Reminder(newId, m.id, m.name, s.selectedDate, time, s.notes)]
                           else s.reminders)
      && r.0.selectedDate == s.selectedDate
      && r.0.selectedMedicationId.None? && r.0.notes == "" && !r.0.modalVisible
  {
    if !Present(s.selectedMedicationId) then (s, Some(SELECT_MEDICATION))
    else
      var id := s.selectedMedicationId.value;
      match FindMedication(medications, id)
      case None => (s, None)
      case Some(k) =>
        var reminder := Reminder(newId, id, medications[k].name, s.selectedDate, time, s.notes);
        var reminders := if saved then s.reminders + [reminder] else s.reminders;
        (Screen(reminders, s.selectedDate, None, "", false), None)
  }

  /** `reminders.filter(reminder => reminder.id !== id)`. */
  function WithoutId(rs: seq<Reminder>, id: string): (r: seq<Reminder>)
    ensures forall x :: x in r <==> x in rs && x.id != id
  {
    if |rs| == 0 then []
    else
      var last := rs[|rs| - 1];
      WithoutId(rs[..|rs| - 1], id) + (if last.id != id then [last] else [])
  }

  /** `deleteReminder`: the filtered list goes through `saveReminders`, which replaces the
      list only after the storage write succeeds (`saved`); a failed write keeps every
      reminder. */
  function DeleteReminder(rs: seq<Reminder>, id: string, saved: bool): (r: seq<Reminder>)
    ensures saved ==> forall x :: x in r <==> x in rs && x.id != id
    ensures !saved ==> r == rs
  {
    if saved then WithoutId(rs, id) else rs
  }

  /** Deleting keeps the order of what is left: it works piece by piece on a split list. */
  lemma {:induction false} DeleteReminderSplits(a: seq<Reminder>, b: seq<Reminder>, id: string)
    ensures WithoutId(a + b, id) == WithoutId(a, id) + WithoutId(b, id)
  {
    if |b| == 0 {
      assert a + b == a;
    } else {
      assert (a + b)[..|a + b| - 1] == a + b[..|b| - 1];
      DeleteReminderSplits(a, b[..|b| - 1], id);
    }
  }

  /** A list with no reminder under `id` is unchanged by deleting `id`, whether or not
      the write succeeds. */
  lemma {:induction false} DeleteAbsent(rs: seq<Reminder>, id: string, saved: bool)
    requires forall i :: 0 <= i < |rs| ==> rs[i].id != id
    ensures DeleteReminder(rs, id, saved) == rs
  {
    if saved && |rs| > 0 {
      var init := rs[..|rs| - 1];
      DeleteAbsent(init, id, saved);
      assert init + [rs[|rs| - 1]] == rs;
    }
  }

  /** A successful add followed by deleting the new reminder's id gives back the list, when
      that id was new; in between, the selected day's list has gained exactly that reminder
      at its end. */
  lemma AddThenDelete(s: Screen, medications: seq<ClientMedication>, newId: string, time: string)
    requires Present(s.selectedMedicationId)
    requires FindMedication(medications, s.selectedMedicationId.value).Some?
    requires forall x :: x in s.reminders ==> x.id != newId
    ensures var added := AddReminder(s, medications, newId, time, true).0.reminders;
      && |added| == |s.reminders| + 1
      && added[..|s.reminders|] == s.reminders
      && FilteredReminders(added, s.selectedDate) ==
         FilteredReminders(s.reminders, s.selectedDate) + [added[|s.reminders|]]
      && DeleteReminder(added, newId, true) == s.reminders
  {
    var added := AddReminder(s, medications, newId, time, true).0.reminders;
    var last := added[|s.reminders|];
    assert added == s.reminders + [last];
    assert added[..|added| - 1] == s.reminders;
    DeleteAbsent(s.reminders, newId, true);
  }
}
