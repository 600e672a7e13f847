/** The client's notification manager: the push-token resend rule, the foreground gate of
    the app-state listener, and the local check that schedules reminder, low-stock and
    expiry notifications from the stored medicine list. */
module NotificationManager {
  import opened Wrappers
  import opened Text
  import opened Clock
  import opened JsValues
  import opened ClientData
  import Records

  const USER_ID_KEY: string := "userId"
  const PUSH_TOKEN_KEY: string := "pushToken"
  const MEDICINES_KEY: string := "medicines"

  /** `token && userId && token !== existingToken`. */
  predicate ShouldSendToken(token: Option<string>, userId: Option<string>, existing: Option<string>) {
    Present(token) && Present(userId) && existing != Some(token.value)
  }

  /** `setupNotifications`: `token` is what `registerForPushNotificationsAsync` resolved to.
      Returns the `(token, userId)` pair sent to the backend, if any; the stored push token
      is replaced exactly when one is sent. */
  method SetupNotifications(storage: KeyValueStore, token: Option<string>) returns (sent: Option<(string, string)>)
    modifies storage
    ensures var userId := Lookup(old(storage.items), USER_ID_KEY);
      var existing := Lookup(old(storage.items), PUSH_TOKEN_KEY);
      if ShouldSendToken(token, userId, existing) then
        sent == Some((token.value, userId.value)) &&
        storage.items == old(storage.items)[PUSH_TOKEN_KEY := token.value]
      else
        sent == None && storage.items == old(storage.items)
  {
    var userId := Lookup(storage.items, USER_ID_KEY);
    var existing := Lookup(storage.items, PUSH_TOKEN_KEY);
    sent := None;
    if ShouldSendToken(token, userId, existing) {
      sent := Some((token.value, userId.value));
      storage.items := storage.items[PUSH_TOKEN_KEY := token.value];
    }
  }

  /** Mounting twice with the same token sends it at most once: the first run stores it,
      so the second finds it equal to the stored one. */
  method MountTwice(items: map<string, string>, token: Option<string>)
    returns (first: Option<(string, string)>, second: Option<(string, string)>)
    ensures second == None
    ensures first.Some? <==> ShouldSendToken(token, Lookup(items, USER_ID_KEY), Lookup(items, PUSH_TOKEN_KEY))
  {
    var storage := new KeyValueStore(items);
    first := SetupNotifications(storage, token);
    second := SetupNotifications(storage, token);
  }

  /** `appState.current.match(/inactive|background/)`: the pattern is unanchored. */
  predicate InBackground(state: string) {
    Contains(state, "inactive") || Contains(state, "background")
  }

  /** The app-state listener with the last state it saw. */
  class AppStateGate {
    var current: string

    constructor(initial: string)
      ensures current == initial
    {
      current := initial;
    }

    /** A `change` event: the check runs exactly on a move from an inactive or background
        state to `active`, and the stored state becomes the new one on every event. */
    method OnChange(next: string) returns (check: bool)
      modifies this
      ensures check <==> InBackground(old(current)) && next == "active"
      ensures current == next
    {
      check := InBackground(current) && next == "active";
      current := next;
    }
  }

  /** `active` matches neither word, so a second `active` event never runs the check. */
  lemma ActiveIsForeground()
    ensures !InBackground("active")
  {
    forall i | 0 <= i <= |"active"|
      ensures !OccursAt("active", "inactive", i) && !OccursAt("active", "background", i)
    {
    }
  }

  /** Two `active` events in a row run the check at most once. */
  method ActivateTwice(initial: string) returns (first: bool, second: bool)
    ensures first <==> InBackground(initial)
    ensures !second
  {
    var gate := new AppStateGate(initial);
    first := gate.OnChange("active");
    second := gate.OnChange("active");
    ActiveIsForeground();
  }

  /** A notification scheduled to show immediately. */
  datatype LocalNotice = LocalNotice(title: string, body: string)

  const REMINDER_TITLE: string := "Time to Take Your Medicine"
  const LOW_STOCK_TITLE: string := "Low Medicine Stock"
  const EXPIRY_TITLE: string := "Medicine Expiring Soon"

  function ReminderNotice(s: ClientSchedule, m: ClientMedication, ops: NumberOps): LocalNotice {
    LocalNotice(REMINDER_TITLE, "Please take " + ops.show(s.dosageAmount) + " " + m.unit + " of " + m.name)
  }

  function LowStockNotice(m: ClientMedication, ops: NumberOps): LocalNotice {
    LocalNotice(LOW_STOCK_TITLE, "Your " + m.name + " is running low (" + ops.show(m.quantity) + " " + m.unit + " remaining)")
  }

  function ExpiryNotice(m: ClientMedication): LocalNotice {
    LocalNotice(EXPIRY_TITLE, "Your " + m.name + " will expire in 7 days")
  }

  predicate ScheduleDue(s: ClientSchedule, c: WallClock) {
    Due(s.isActive, s.timesOfDay, s.repeatDays, c)
  }

  /** The reminders for one medicine's schedules, in schedule order. */
  function ScheduleNotices(m: ClientMedication, ss: seq<ClientSchedule>, c: WallClock, ops: NumberOps): seq<LocalNotice>
  {
    if |ss| == 0 then []
    else
      var last := ss[|ss| - 1];
      ScheduleNotices(m, ss[..|ss| - 1], c, ops) + (if ScheduleDue(last, c) then [ReminderNotice(last, m, ops)] else [])
  }

  /** Everything one medicine schedules: its reminders, then the low-stock notice, then the
      expiry notice. */
  function MedicineNotices(m: ClientMedication, c: WallClock, now: int, ops: NumberOps): seq<LocalNotice> {
    (if m.schedules.Some? then ScheduleNotices(m, m.schedules.value, c, ops) else [])
    + (if m.quantity <= Records.LOW_STOCK_THRESHOLD then [LowStockNotice(m, ops)] else [])
    + (if WithinWeek(m.expiryDate, now) then [ExpiryNotice(m)] else [])
  }

  /** Everything the check schedules for a list, medicine by medicine. */
  function AllNotices(ms: seq<ClientMedication>, c: WallClock, now: int, ops: NumberOps): seq<LocalNotice> {
    if |ms| == 0 then []
    else AllNotices(ms[..|ms| - 1], c, now, ops) + MedicineNotices(ms[|ms| - 1], c, now, ops)
  }

  /** The `forEach` callback for one medicine: its due schedules in order, then the stock
      and expiry checks. */
  method CheckMedicine(m: ClientMedication, c: WallClock, now: int, ops: NumberOps)
    returns (notices: seq<LocalNotice>)
    ensures notices == MedicineNotices(m, c, now, ops)
  {
    notices := [];
    if m.schedules.Some? {
      var ss := m.schedules.value;
      for j := 0 to |ss|
        invariant notices == ScheduleNotices(m, ss[..j], c, ops)
      {
        assert ss[..j + 1][..j] == ss[..j];
        if ScheduleDue(ss[j], c) {
          notices := notices + [ReminderNotice(ss[j], m, ops)];
        }
      }
      assert ss[..|ss|] == ss;
    }
    if m.quantity <= Records.LOW_STOCK_THRESHOLD {
      notices := notices + [LowStockNotice(m, ops)];
    }
    if WithinWeek(m.expiryDate, now) {
      notices := notices + [ExpiryNotice(m)];
    }
  }

  /** `checkForNotifications`. `items` is the device storage, `parse` stands for `JSON.parse`
      (`None` where it throws, which ends the check), `c` and `now` are the same instant read
      as a wall clock and as milliseconds. */
  method CheckForNotifications(items: map<string, string>, parse: string -> Option<seq<ClientMedication>>,
                               c: WallClock, now: int, ops: NumberOps)
    returns (scheduled: seq<LocalNotice>)
    ensures var raw := Lookup(items, MEDICINES_KEY);
      !Present(raw) || parse(raw.value).None? ==> scheduled == []
    ensures var raw := Lookup(items, MEDICINES_KEY);
      Present(raw) && parse(raw.value).Some? ==> scheduled == AllNotices(parse(raw.value).value, c, now, ops)
  {
    scheduled := [];
    var raw := Lookup(items, MEDICINES_KEY);
    if !Present(raw) {
      return;
    }
    var parsed := parse(raw.value);
    if parsed.None? {
      return;
    }
    var ms := parsed.value;
    for i := 0 to |ms|
      invariant scheduled == AllNotices(ms[..i], c, now, ops)
    {
      assert ms[..i + 1][..i] == ms[..i];
      var notices := CheckMedicine(ms[i], c, now, ops);
      scheduled := scheduled + notices;
    }
    assert ms[..|ms|] == ms;
  }

  /** The number of notices with a given title. */
  function CountTitle(ns: seq<LocalNotice>, title: string): nat {
    if |ns| == 0 then 0
    else (if ns[0].title == title then 1 else 0) + CountTitle(ns[1..], title)
  }

  lemma {:induction false} CountTitleAppend(a: seq<LocalNotice>, b: seq<LocalNotice>, title: string)
    ensures CountTitle(a + b, title) == CountTitle(a, title) + CountTitle(b, title)
  {
    if |a| > 0 {
      assert (a + b)[1..] == a[1..] + b;
      CountTitleAppend(a[1..], b, title);
    } else {
      assert a + b == b;
    }
  }

  /** The number of schedules that are due. */
  function CountDue(ss: seq<ClientSchedule>, c: WallClock): nat {
    if |ss| == 0 then 0
    else CountDue(ss[..|ss| - 1], c) + (if ScheduleDue(ss[|ss| - 1], c) then 1 else 0)
  }

  /** A medicine's schedules give one reminder per due schedule and nothing else. */
  lemma {:induction false} ScheduleNoticeCounts(m: ClientMedication, ss: seq<ClientSchedule>, c: WallClock, ops: NumberOps)
    ensures CountTitle(ScheduleNotices(m, ss, c, ops), REMINDER_TITLE) == CountDue(ss, c)
    ensures CountTitle(ScheduleNotices(m, ss, c, ops), LOW_STOCK_TITLE) == 0
    ensures CountTitle(ScheduleNotices(m, ss, c, ops), EXPIRY_TITLE) == 0
  {
    if |ss| > 0 {
      var last := ss[|ss| - 1];
      var tail: seq<LocalNotice> := if ScheduleDue(last, c) then [ReminderNotice(last, m, ops)] else [];
      ScheduleNoticeCounts(m, ss[..|ss| - 1], c, ops);
      CountTitleAppend(ScheduleNotices(m, ss[..|ss| - 1], c, ops), tail, REMINDER_TITLE);
      CountTitleAppend(ScheduleNotices(m, ss[..|ss| - 1], c, ops), tail, LOW_STOCK_TITLE);
      CountTitleAppend(ScheduleNotices(m, ss[..|ss| - 1], c, ops), tail, EXPIRY_TITLE);
    }
  }

  /** For one medicine: a reminder per due schedule, a low-stock notice exactly when the
      quantity is at most 5 whatever its schedules, and an expiry notice exactly when the
      expiry lies between now and a week ahead. */
  lemma MedicineNoticeCounts(m: ClientMedication, c: WallClock, now: int, ops: NumberOps)
    ensures CountTitle(MedicineNotices(m, c, now, ops), REMINDER_TITLE) ==
      (if m.schedules.Some? then CountDue(m.schedules.value, c) else 0)
    ensures CountTitle(MedicineNotices(m, c, now, ops), LOW_STOCK_TITLE) ==
      (if m.quantity <= Records.LOW_STOCK_THRESHOLD then 1 else 0)
    ensures CountTitle(MedicineNotices(m, c, now, ops), EXPIRY_TITLE) ==
      (if now <= m.expiryDate <= now + WEEK_MS then 1 else 0)
  {
    var a: seq<LocalNotice> := if m.schedules.Some? then ScheduleNotices(m, m.schedules.value, c, ops) else [];
    var b: seq<LocalNotice> := if m.quantity <= Records.LOW_STOCK_THRESHOLD then [LowStockNotice(m, ops)] else [];
    var d: seq<LocalNotice> := if WithinWeek(m.expiryDate, now) then [ExpiryNotice(m)] else [];
    if m.schedules.Some? {
      ScheduleNoticeCounts(m, m.schedules.value, c, ops);
    }
    assert MedicineNotices(m, c, now, ops) == a + b + d;
    CountTitleAppend(a, b, REMINDER_TITLE);
    CountTitleAppend(a + b, d, REMINDER_TITLE);
    CountTitleAppend(a, b, LOW_STOCK_TITLE);
    CountTitleAppend(a + b, d, LOW_STOCK_TITLE);
    CountTitleAppend(a, b, EXPIRY_TITLE);
    CountTitleAppend(a + b, d, EXPIRY_TITLE);
  }

  /** The number of medicines at or below the low-stock threshold. */
  function CountLow(ms: seq<ClientMedication>): nat {
    if |ms| == 0 then 0
    else CountLow(ms[..|ms| - 1]) + (if ms[|ms| - 1].quantity <= Records.LOW_STOCK_THRESHOLD then 1 else 0)
  }

  /** The number of medicines expiring within the coming week. */
  function CountExpiring(ms: seq<ClientMedication>, now: int): nat {
    if |ms| == 0 then 0
    else CountExpiring(ms[..|ms| - 1], now) + (if WithinWeek(ms[|ms| - 1].expiryDate, now) then 1 else 0)
  }

  /** Over the whole list: one low-stock notice per low medicine and one expiry notice per
      medicine expiring within the week. */
  lemma {:induction false} AllNoticeCounts(ms: seq<ClientMedication>, c: WallClock, now: int, ops: NumberOps)
    ensures CountTitle(AllNotices(ms, c, now, ops), LOW_STOCK_TITLE) == CountLow(ms)
    ensures CountTitle(AllNotices(ms, c, now, ops), EXPIRY_TITLE) == CountExpiring(ms, now)
  {
    if |ms| > 0 {
      var init := ms[..|ms| - 1];
      var m := ms[|ms| - 1];
      AllNoticeCounts(init, c, now, ops);
      MedicineNoticeCounts(m, c, now, ops);
      CountTitleAppend(AllNotices(init, c, now, ops), MedicineNotices(m, c, now, ops), LOW_STOCK_TITLE);
      CountTitleAppend(AllNotices(init, c, now, ops), MedicineNotices(m, c, now, ops), EXPIRY_TITLE);
    }
  }
}
