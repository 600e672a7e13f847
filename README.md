# meds-tracker in Dafny

This project models the logic at the core of meds-tracker. meds-tracker is a medication tracker: an Express/Prisma backend and a React Native client. The model covers these parts.

- **Envelope encryption** (`EncryptionService`). A value is JSON-serialised and sealed with AES-256-GCM under a PBKDF2 key. It is framed as `salt(64) ‖ iv(16) ‖ tag(16) ‖ ciphertext` and Base64-encoded. Decryption slices the frame back apart.
- **Middlewares** that encrypt and decrypt the whitelisted sensitive fields of a request or response body.
- **Medicine collection handlers**:
  - normalising an added medicine and its schedules;
  - removing a medicine and its schedules together;
  - paging through presets;
  - listing a user's medicines with a per-field decryption fallback and distinct presets;
  - updating a medicine.
- **Intake recording**, which writes an intake row and decrements the stock.
- **Expiring and low-stock queries**, and the legacy fixed-user variants.
- **Periodic checks** that match schedules against the zero-padded `HH:MM` and the weekday name, and notify about low stock and expiry.
- **Word-prefix medicine search.**
- **Authentication**:
  - the user table;
  - registering and logging in, in both controller generations;
  - the two bearer-token middlewares.
- **Client logic**:
  - the notification manager: the token-resend rule of the first of its two definitions, and the foreground gate and local notification check of the second;
  - the medication context's request defaulting and boolean outcomes;
  - the user context's four-hour session over device storage;
  - the calendar's markings and reminder list;
  - the add-medication and register forms;
  - the medication card's display rules;
  - the detail screen.

## Conventions

- Time is an integer count of milliseconds. A wall-clock reading (`Clock.WallClock`) is an hour, a minute and a weekday. "Seven days from now" is `now + 7 * 86400000`.
- Prisma tables are sequences of rows, in database order (`Records`). A table a handler writes is a class whose fields the methods reassign (`Records.Store`, `Accounts.UserTable`). Device storage is `ClientData.KeyValueStore`.
- Code the project cannot see enters as datatypes of functions, each with a ghost predicate stating what the code relies on:
  - PBKDF2, AES-GCM, Base64, hex and JSON: `Encryption.Primitives`, with `Encryption.Sound`;
  - bcrypt and jsonwebtoken: `Accounts.Crypto`, with `Accounts.Sound`;
  - JavaScript number conversions: `JsValues.NumberOps`;
  - the client's date and JSON conversions: `UserContext.Codec`, with `UserContext.Sound`.
- Whether `JSON.parse(JSON.stringify(v))` gives `v` back is stated per value (`Encryption.JsonCarries`). It holds for the strings and numbers the code encrypts, and not for every `Json` value.
- Each of the three `Sound` predicates is met by a concrete example: `Encryption.ExamplePrimitives`, `Accounts.ExampleCrypto` and `UserContext.ExampleCodec`. The assumptions are therefore consistent. `Encryption.ExampleRoundTrip` meets every premise of the envelope read-back lemmas at once.
- Inputs the code draws from the environment are parameters: random bytes, generated ids, the current time, and how an awaited call settles (a `Result` or an outcome datatype).
- A thrown error is an `Err`. An HTTP answer is a `Reply`, either `Success(status, value)` or `Failure(status, message)`.

The client's `RegisterScreen` calls a `register` function from the user context, and that context defines none. The model takes how that call settles as a parameter (`RegisterScreen.RegisterOutcome`). `RegisterScreen.UnboundRegisterAlwaysFails` shows the outcome as written, and the other register lemmas assume a bound `register` (finding 3).

`frontend/components/NotificationManager.js` holds two definitions of the component: lines 1-53 and lines 55-171. Both are default exports, so the module does not parse as written. `NotificationManager.SetupNotifications` and `NotificationManager.MountTwice` follow the first definition. The app-state gate and `NotificationManager.CheckForNotifications` follow the second, whose own `setupNotifications` (lines 93-106) sends no token.

The backend's auth tests expect username and password strength rules. The service code has no such rules, and the model follows the code.

## Model

| member | source | states |
|---|---|---|
| Encryption.UnframeFrame | backend/src/utils/encryption.ts:53-59 | slicing a frame at 64, 80 and 96 gives back exactly the salt, iv, tag and ciphertext that were concatenated, for any ciphertext length including zero |
| Encryption.FrameUnframe | backend/src/utils/encryption.ts:39-59 | a buffer of at least 96 bytes is the concatenation of its four slices, which have the framing lengths |
| Encryption.UnframeShort | backend/src/utils/encryption.ts:50-59 | a buffer shorter than 96 bytes is sliced without a length check, into a tag shorter than 16 bytes and an empty ciphertext |
| Encryption.DecryptDerivesEncryptKey | backend/src/utils/encryption.ts:15-68 | decryption reads back the salt that encryption drew, so both directions derive the same PBKDF2 key |
| Encryption.DecryptEncrypt | backend/src/utils/encryption.ts:15-79 | decrypting with the same key returns the value that was encrypted, for every value JSON carries through `stringify` and `parse` (`Encryption.JsonCarries`) |
| Encryption.DecryptOnlyAuthentic | backend/src/utils/encryption.ts:70-78 | a value comes out of decryption only when some plaintext that parses to it seals to exactly the envelope's ciphertext and tag, under the key derived from the envelope's salt and under its iv |
| Encryption.ShortEnvelopeFails | backend/src/utils/encryption.ts:50-76 | an envelope that decodes to fewer than 96 bytes always ends in a thrown error |
| Encryption.FreshDrawsDistinctEnvelopes | backend/src/utils/encryption.ts:15-46 | two encryptions whose salt or iv draws differ give different envelopes |
| Encryption.GeneratedKeyShape | backend/src/utils/encryption.ts:11-13 | a generated key is 64 lower-case hex digits |
| EncryptionMiddleware.Guard | backend/src/shared/middleware/encryption.middleware.ts:26-36 | the middleware proceeds exactly when there is a user id, the lookup succeeds and the user has a key; a lookup error is forwarded with its message |
| EncryptionMiddleware.EncryptedFields | backend/src/shared/middleware/encryption.middleware.ts:42-53 | the key set is unchanged; keys outside `SENSITIVE_FIELDS` keep their values; every sensitive key holds a string envelope |
| EncryptionMiddleware.DecryptedFields | backend/src/shared/middleware/encryption.middleware.ts:83-98 | the key set is unchanged; a sensitive string field that decrypts holds its decrypted value; a field whose decryption throws keeps its value; non-sensitive and non-string values are untouched |
| EncryptionMiddleware.EncryptSensitiveData | backend/src/shared/middleware/encryption.middleware.ts:20-59 | a lookup error calls `next(error)`; otherwise `next()`; the body becomes `EncryptedFields` when the guard proceeds and is unchanged otherwise |
| EncryptionMiddleware.DecryptSensitiveData | backend/src/shared/middleware/encryption.middleware.ts:61-105 | the same for the response data and `DecryptedFields` |
| EncryptionMiddleware.DecryptEncryptedFields | backend/src/shared/middleware/encryption.middleware.ts:42-95 | decrypting a record just encrypted with the same key restores every field whose sensitive value JSON carries |
| MedicineController.ArrayOrEmpty | backend/src/modules/medicines/controllers/medicineController.ts:61-62 | the value when it is an array, else the empty list |
| MedicineController.NormalizeSchedule | backend/src/modules/medicines/controllers/medicineController.ts:60-63 | a null element throws; otherwise the times and days are the given arrays or `[]`, and the dose is `Number(dosageAmount)` when that is a non-zero number and exactly 1 when it is 0 or NaN |
| MedicineController.NormalizeScheduleFixpoint | backend/src/modules/medicines/controllers/medicineController.ts:60-63 | normalising an already normalised schedule changes nothing |
| MedicineController.NormalizeAll | backend/src/modules/medicines/controllers/medicineController.ts:60-70 | the map throws exactly when some element is null; otherwise one normalised schedule per element, in order |
| MedicineController.SchedulesFrom | backend/src/modules/medicines/controllers/medicineController.ts:58-71 | a falsy `schedules` writes none; a truthy non-array or a null element throws; otherwise the normalised list |
| MedicineController.IfTruthy | backend/src/modules/medicines/controllers/medicineController.ts:41-43 | `v ? v : null`: present exactly when truthy, and then the value |
| MedicineController.NewMedicine | backend/src/modules/medicines/controllers/medicineController.ts:31-77 | the user's id; quantity `Number(quantity)`, or 20 when NaN; `isPreset` exactly when `presetMedicineId` is truthy, and a preset connected exactly then; start, end and dosage set exactly when truthy; the normalised schedules, or none |
| MedicineController.AddToCollection | backend/src/modules/medicines/controllers/medicineController.ts:9-85 | 401 exactly without a user; 201 exactly when the schedules map and the database accepts the create, with `NewMedicine` as the data; every other case 500 'Failed to add medicine to collection' |
| MedicineController.RemoveFromCollection | backend/src/modules/medicines/controllers/medicineController.ts:87-130 | 401 without a user; 404 with nothing deleted when the user owns no medicine `id`; 400 'Unable to remove medicine from collection' with nothing deleted when the transaction throws (`txAccepts` false); otherwise 200, with the medicine and all its schedules deleted together and everything else kept |
| MedicineController.RemovalCascades | backend/src/modules/medicines/controllers/medicineController.ts:109-116 | after the removal the user owns no medicine `id` and no schedule of it; every other medicine and schedule is kept |
| MedicineController.Page | backend/src/modules/medicines/controllers/medicineController.ts:146-152 | `skip` rows are passed over and at most `take` returned, in order |
| MedicineController.GetAllPresetMedicines | backend/src/modules/medicines/controllers/medicineController.ts:132-175 | skips `(page-1)*limit` rows and takes `limit`, with `page` and `limit` real numbers; `total` is the unfiltered catalogue size; `pages` is `ceil(total/limit)`; `currentPage` echoes `page`; 400 exactly for NaN, a fractional `limit`, a fractional skip or a negative skip |
| MedicineController.FractionalPages | backend/src/modules/medicines/controllers/medicineController.ts:134-163 | page 1.5 with limit 10 is served from row 5 and echoed as 1.5; page 1.25 gives the fractional skip 2.5, which the database rejects |
| MedicineController.PresetOnItsPage | backend/src/modules/medicines/controllers/medicineController.ts:146-163 | every preset is on page `i / limit + 1` at position `i % limit`, and that page is within `pages` |
| MedicineController.DecryptOrKeep | backend/src/modules/medicines/controllers/medicineController.ts:222-228 | the decrypted value, or the stored string when decryption throws |
| MedicineController.DecryptIfTruthy | backend/src/modules/medicines/controllers/medicineController.ts:222-244 | an empty field is kept; any other field is decrypted or kept |
| MedicineController.DecryptList | backend/src/modules/medicines/controllers/medicineController.ts:259-266 | a whole list is decrypted exactly when every element decrypts |
| MedicineController.DecryptListOrKeep | backend/src/modules/medicines/controllers/medicineController.ts:259-277 | all-or-nothing: every element decrypted, or the stored list |
| MedicineController.DecryptNumber | backend/src/modules/medicines/controllers/medicineController.ts:246-253 | `parseFloat` of the decrypted text, or the stored number when decryption throws |
| MedicineController.DecryptMedicine | backend/src/modules/medicines/controllers/medicineController.ts:219-293 | the row is kept; name, category and prescription are each decrypted or kept on their own; dosage and each schedule's amount are parsed from their decryption or kept; each schedule's times and days are decrypted all or nothing |
| MedicineController.DecryptedFieldReadsBack | backend/src/modules/medicines/controllers/medicineController.ts:222-244 | a field holding the envelope of a value JSON carries reads back as that value |
| MedicineController.DecryptedListReadsBack | backend/src/modules/medicines/controllers/medicineController.ts:259-277 | a list of string envelopes, each sealed under the key with its own draws, reads back as those strings |
| MedicineController.UserMedicineRows | backend/src/modules/medicines/controllers/medicineController.ts:195-217 | exactly the user's medicines that match the search and category, as a permutation sorted newest first |
| MedicineController.DecryptedMedicines | backend/src/modules/medicines/controllers/medicineController.ts:219-293 | one view per row in row order, each with exactly that medicine's schedules, and with its name and category decrypted or kept |
| MedicineController.SchedulesOf | backend/src/modules/medicines/controllers/medicineController.ts:208-213 | exactly the schedules of the table that belong to the medicine |
| MedicineController.EnvelopesReadBack | backend/src/modules/medicines/controllers/medicineController.ts:219-237 | a collection whose names and categories are envelopes under the user's key, each field sealed with its own iv and salt draws, answers the plain names and categories |
| MedicineController.SetPreset | backend/src/modules/medicines/controllers/medicineController.ts:298 | `Map.set` on presets with distinct ids keeps them distinct: an entry with the same id is replaced in place and nothing else changes; a new id is appended at the end |
| MedicineController.DistinctPresets | backend/src/modules/medicines/controllers/medicineController.ts:295-300 | the presets have distinct ids; each comes from some medicine; every attached preset's id is listed |
| MedicineController.GetUserMedicines | backend/src/modules/medicines/controllers/medicineController.ts:177-316 | 401 exactly without a user; 400 when the lookup throws; 500 without a key; 200 exactly with a user and a key, carrying the decrypted rows and distinct presets: every attached preset is listed, and every listed preset is attached to some row |
| MedicineController.UpdateUserMedicine | backend/src/modules/medicines/controllers/medicineController.ts:319-375 | 401 exactly without a user; 200 exactly when the schedules map, the user owns the medicine and the database accepts `UpdateData`, which is then the answer; every other case 500 'Failed to update medicine' |
| MedicineController.UpdateData | backend/src/modules/medicines/controllers/medicineController.ts:330-362 | only keys of the body; truthy name, category, unit and dates; every present quantity and dosage as `Number`; unnamed keys raw; schedules replaced exactly when truthy |
| MedicineIntake.FindSchedule | backend/src/modules/medicines/controllers/medicineIntakeController.ts:16-24 | the schedule with that id owned by that user, or none exactly when there is none |
| MedicineIntake.Decrement | backend/src/modules/medicines/controllers/medicineIntakeController.ts:45-54 | the medicine with the id loses exactly `amount`; every other row is unchanged |
| MedicineIntake.DecrementLowersTotal | backend/src/modules/medicines/controllers/medicineIntakeController.ts:45-54 | with unique ids, the stock across the table falls by exactly the dose |
| MedicineIntake.NoMatchUnchanged | backend/src/modules/medicines/controllers/medicineIntakeController.ts:45-54 | without a matching id, the update changes nothing |
| MedicineIntake.NoLowerBound | backend/src/modules/medicines/controllers/medicineIntakeController.ts:45-54 | a dose larger than the stock leaves a negative quantity |
| MedicineIntake.RecordMedicineIntake | backend/src/modules/medicines/controllers/medicineIntakeController.ts:11-68 | 404 'Schedule not found' with nothing written when the schedule is not the user's; otherwise exactly one intake row with the schedule's dose and `takenAt` defaulting to now, then the decrement, answered 200 exactly when the schedule's medicine row exists and 500 otherwise; 500 with nothing written when there is no user |
| ScheduleController.ExpiringFor | backend/src/modules/scheduler/controllers/scheduleController.ts:17-32 | a permutation of the user's medicines expiring within the week, sorted by ascending expiry |
| ScheduleController.LowStockFor | backend/src/modules/scheduler/controllers/scheduleController.ts:50-64 | a permutation of the user's medicines with quantity at most 5, sorted by ascending quantity |
| ScheduleController.ExpiringExactly | backend/src/modules/scheduler/controllers/scheduleController.ts:17-24 | listed as expiring exactly when it is the user's and `now <= expiry <= now + 7 days` |
| ScheduleController.LowStockExactly | backend/src/modules/scheduler/controllers/scheduleController.ts:50-56 | listed as low stock exactly when it is the user's and its quantity is at most 5 |
| ScheduleController.NothingExpiringIsEmpty | backend/src/modules/scheduler/controllers/scheduleController.ts:34-37 | a user with no matching medicine gets an empty list |
| ScheduleController.GetExpiringMedicines | backend/src/modules/scheduler/controllers/scheduleController.ts:12-46 | 400 'Unable to fetch expiring medicines' without a user; otherwise 200 with the expiring list |
| ScheduleController.GetLowStockMedicines | backend/src/modules/scheduler/controllers/scheduleController.ts:48-78 | 400 'Unable to fetch low stock medicines' without a user; otherwise 200 with the low-stock list |
| MedicineChecks.GetExpiringMedicines | backend/src/routes/medicineChecks.ts:13-48 | whoever asks, 200 with exactly `ExpiringFor` of the fixed user: only that user's medicines, soonest first |
| MedicineChecks.GetLowStockMedicines | backend/src/routes/medicineChecks.ts:50-81 | whoever asks, 200 with exactly `LowStockFor` of the fixed user: only that user's medicines, fewest first |
| Records.LowStockRows | backend/src/modules/scheduler/services/scheduleChecker.ts:43-52 | exactly the rows with quantity at most 5, across all users |
| Records.ExpiringRows | backend/src/modules/scheduler/services/scheduleChecker.ts:62-75 | exactly the rows with `now <= expiry <= now + 7 days`, across all users |
| Clock.CurrentTime | backend/src/modules/scheduler/services/scheduleChecker.ts:11-14 | five characters with ':' in the middle |
| Clock.CurrentTimeParses | backend/src/modules/scheduler/services/scheduleChecker.ts:11-14 | the hour and the minute read back out of the string, each zero-padded to two digits |
| Clock.CurrentTimeInjective | backend/src/modules/scheduler/services/scheduleChecker.ts:11-14 | two readings give the same string exactly when hour and minute agree |
| Clock.CurrentDay | backend/src/modules/scheduler/services/scheduleChecker.ts:15 | one of 'Sun' to 'Sat' |
| Clock.CeilDiv | backend/src/services/dailyCheckService.ts:55-57 | the least whole number `q` with `a <= q * b` |
| Clock.CeilDivAtMost | backend/src/services/dailyCheckService.ts:55-57 | `ceil(a / b) <= k` exactly when `a <= k * b` |
| ScheduleChecker.DueSchedules | backend/src/modules/scheduler/services/scheduleChecker.ts:17-31 | exactly the schedules that are active and whose times and days contain the current `HH:MM` and weekday |
| ScheduleChecker.CheckMedicineSchedules | backend/src/modules/scheduler/services/scheduleChecker.ts:8-39 | one reminder per due schedule, in query order; a failed query sends nothing and does not throw |
| ScheduleChecker.RemindedExactlyWhenDue | backend/src/modules/scheduler/services/scheduleChecker.ts:17-35 | a schedule gets a reminder exactly when it is due |
| ScheduleChecker.CheckLowStockAndExpiry | backend/src/modules/scheduler/services/scheduleChecker.ts:41-87 | one low-stock push per low-stock medicine, then one expiry push per expiring medicine; a failed low-stock query sends nothing, and a failed expiry query keeps the low-stock pushes already sent |
| ScheduleChecker.EveryLowStockMedicineNotified | backend/src/modules/scheduler/services/scheduleChecker.ts:54-60 | every low-stock medicine gets a push addressed to its owner |
| ScheduleChecker.ExpiryPushesAreDue | backend/src/modules/scheduler/services/scheduleChecker.ts:77-83 | every expiry push names a medicine that expires within the week |
| DailyCheckService.MedicineOf | backend/src/services/dailyCheckService.ts:93-97 | the included medicine of a schedule is a row of the table with the schedule's medicine id |
| DailyCheckService.CheckLowStock | backend/src/services/dailyCheckService.ts:8-35 | one 'low_stock' push per medicine with quantity at most 5, in query order |
| DailyCheckService.CheckExpiringMedicines | backend/src/services/dailyCheckService.ts:37-72 | one 'expiring' push per medicine expiring within the week, with the day count in its text |
| DailyCheckService.CheckDailySchedule | backend/src/services/dailyCheckService.ts:74-114 | one 'schedule' push per due schedule, naming the medicine, its unit and the dose |
| DailyCheckService.DaysUntilExpiryInWeek | backend/src/services/dailyCheckService.ts:55-57 | a medicine the expiry check selects is reported as expiring in 0 to 7 days |
| DailyCheckService.Payloads | backend/src/services/dailyCheckService.ts:99-110 | the `data` payloads of the pushes, in order |
| DailyCheckService.ScheduleNotifiedExactlyWhenDue | backend/src/services/dailyCheckService.ts:83-110 | a schedule gets a payload naming it and its medicine exactly when it is due |
| Search.SomeSearchWordStarts | backend/src/routes/searchController.ts:15-17 | true exactly when some lowercased search word is a prefix of the word |
| Search.SomeWordStarts | backend/src/routes/searchController.ts:14-18 | true exactly when some word starts with some lowercased search word |
| Search.FilteredPresets | backend/src/routes/searchController.ts:36-60 | a preset is kept exactly when the query matches its name or category, ignoring case, and a word of either starts with a search word |
| Search.FilteredCustom | backend/src/routes/searchController.ts:62-88 | the same, only for the fixed user's non-preset medicines |
| Search.Tagged | backend/src/routes/searchController.ts:90-93 | the presets tagged 'preset' followed by the customs tagged 'custom', order preserved |
| Search.TaggedMembership | backend/src/routes/searchController.ts:90-93 | a tagged hit is present exactly when it is in its list |
| Search.SearchMedicines | backend/src/routes/searchController.ts:21-114 | 400 exactly for a non-string query; 500 when a lookup throws; otherwise presets before customs and `totalResults = presetCount + customCount` |
| Search.SearchFindsExactly | backend/src/routes/searchController.ts:36-93 | a preset or custom medicine is in the answer exactly when the query finds it and the word-prefix filter keeps it |
| Search.BlankQueryKeepsAll | backend/src/routes/searchController.ts:34 | a blank query gives the single empty search word, which keeps every candidate |
| Search.SearchWordsAreWords | backend/src/routes/searchController.ts:34 | a non-blank query gives non-empty search words without white space |
| Search.CaseInsensitive | backend/src/routes/searchController.ts:13 | matching ignores the ASCII case of the text (Unicode case folding is left out) |
| Text.LowerStr | backend/src/routes/searchController.ts:13 | ASCII folding: each capital A to Z becomes its small letter, every other character is kept, and the length is kept (Unicode folding is left out) |
| Text.Split | backend/src/routes/searchController.ts:13 | at least one piece, and no piece contains the separator |
| Text.JoinSplit | frontend/components/MedicationCard.js:36-37 | joining the pieces with the separator gives the string back |
| Text.Trim | backend/src/routes/searchController.ts:34 | neither end is ASCII white space, and the result is empty exactly when the string is all white space |
| Text.SplitSpaces | backend/src/routes/searchController.ts:34 | at least one piece, and no piece contains ASCII white space |
| Text.SplitSpacesOfTrimmed | backend/src/routes/searchController.ts:34 | a trimmed string splits into non-empty words; the blank string into one empty piece |
| Text.IndexOfSub | backend/src/shared/middleware/auth.middleware.ts:13 | the first position where the pattern occurs, or none exactly when it does not occur |
| Text.ReplaceFirstOfPrefix | backend/src/shared/middleware/auth.middleware.ts:13 | removing the first occurrence of a prefix strips that prefix |
| Text.ReplaceFirstAbsent | backend/src/shared/middleware/auth.middleware.ts:13 | a string without the pattern is unchanged |
| Text.Pad2 | backend/src/modules/scheduler/services/scheduleChecker.ts:11-14 | two digits whose value is the number |
| Sorting.Filter | backend/src/modules/scheduler/controllers/scheduleController.ts:18-24 | every kept element satisfies the condition, and every element of the input that satisfies it is kept |
| Sorting.FilterMembership | backend/src/modules/scheduler/controllers/scheduleController.ts:18-24 | an element is kept exactly when it is in the input and satisfies the condition |
| Sorting.SortByCorrect | backend/src/modules/scheduler/controllers/scheduleController.ts:29-31 | the sort is ascending by key and a permutation of its input |
| Accounts.SecretOf | backend/src/modules/auth/services/authService.ts:6 | the environment's secret when set and non-empty, else the fallback |
| Accounts.FindByUsername | backend/src/modules/auth/services/authService.ts:10-12 | the exact-name lookup, case included: a row with that name, or none exactly when there is none |
| Accounts.FindAfterAppend | backend/src/modules/auth/services/authService.ts:20-25 | after a row is appended, an earlier row with the name still wins, else the new row when it carries the name |
| Accounts.UserTable.Create | backend/src/modules/auth/services/authService.ts:20-25 | appends the row when its id and username are new, and otherwise fails with the unique-constraint error and leaves the table unchanged |
| AuthService.RegisterUser | backend/src/modules/auth/services/authService.ts:9-30 | a taken username throws 'Username already exists' and creates nothing; otherwise appends the user with the hashed password and returns a token signed over its id |
| AuthService.LoginUser | backend/src/modules/auth/services/authService.ts:32-50 | the same 'Invalid credentials' for an unknown user and for a wrong password; succeeds exactly when the user exists and the password matches, with a token over its id |
| AuthService.LoginAfterRegister | backend/src/modules/auth/services/authService.ts:27-47 | logging in after registering succeeds for the same user id |
| AuthController.Register | backend/src/modules/auth/controllers/authController.ts:4-38 | 400 'Username and password are required' before the service; 400 with the service's message; 201 with id, name and token and no password, and exactly that for a free name and a fresh id |
| AuthController.Login | backend/src/modules/auth/controllers/authController.ts:40-74 | 400 for a missing field; 401 'Invalid credentials' for every service failure; otherwise 200 with id, name and token |
| LegacyAuthController.Register | backend/src/routes/authController.ts:10-72 | 400 for a missing field or a taken name; the password hashed with cost 10 before the insert; 500 'Unable to register user' when the insert throws; 201 with the new id, name and token for a free name and a fresh id |
| LegacyAuthController.Login | backend/src/routes/authController.ts:74-138 | 400 for a missing field; 401 for an unknown user and for a wrong password alike; on success 200 with the found user's id and name and a token over that id |
| LegacyAuthController.LoginsAgree | backend/src/routes/authController.ts:74-138 | both login handlers accept and refuse the same requests |
| AuthMiddleware.ExtractToken | backend/src/shared/middleware/auth.middleware.ts:13 | no header gives no token; a leading 'Bearer ' is stripped; a header that does not contain it is kept |
| AuthMiddleware.Authenticate | backend/src/shared/middleware/auth.middleware.ts:13-21 | no token or an empty one is refused; a non-empty token gives exactly what verification returns for it |
| AuthMiddleware.Handle | backend/src/shared/middleware/auth.middleware.ts:7-30 | on success `req.user` is the decoded id and `next` is called; otherwise 401 'Please authenticate' and `req.user` is untouched |
| AuthMiddleware.SharedAuthMiddleware | backend/src/shared/middleware/auth.middleware.ts:5-30 | the same under the secret with fallback 'your-secret-key' |
| AuthMiddleware.LegacyAuthMiddleware | backend/src/middleware/auth.ts:5-36 | the same under the secret with fallback 'taen-kluch' |
| AuthMiddleware.IssuedTokenAuthenticates | backend/src/shared/middleware/auth.middleware.ts:13-20 | a token signed over an id and sent as `Bearer <token>` authenticates as that id |
| AuthMiddleware.EmptyBearerRejected | backend/src/shared/middleware/auth.middleware.ts:13-17 | the header 'Bearer ' alone is refused |
| AuthMiddleware.UnanchoredRemoval | backend/src/shared/middleware/auth.middleware.ts:13 | 'Bearer ' is cut out even when it is not at the start of the header |
| CalendarScreen.FilteredReminders | frontend/screens/CalendarScreen.js:168 | exactly the reminders on the date |
| CalendarScreen.DotEntriesCount | frontend/screens/CalendarScreen.js:65-80 | a date has a dot entry exactly when it has reminders, marked, with one dot per reminder |
| CalendarScreen.UpdateMarkedDates | frontend/screens/CalendarScreen.js:61-110 | the loop builds exactly the dot entries, then today's style, then the selected flag |
| CalendarScreen.MarkedDatesExactly | frontend/screens/CalendarScreen.js:61-110 | entries are exactly the reminder dates, today and the selected date; an entry is marked exactly when it has reminders, with one dot each; only today has today's style and only the selected date the flag |
| CalendarScreen.AddReminder | frontend/screens/CalendarScreen.js:123-152 | no selected medication alerts and changes nothing; an unknown id changes nothing; otherwise the reminder is appended on the selected date when it is stored, and the medication, notes and modal are reset |
| CalendarScreen.DeleteReminder | frontend/screens/CalendarScreen.js:163-166 | through `saveReminders` (lines 52-59): after a successful storage write exactly the reminders without that id remain; a failed write keeps every reminder |
| CalendarScreen.DeleteReminderSplits | frontend/screens/CalendarScreen.js:164 | the id filter works piece by piece, so the order of the rest is kept |
| CalendarScreen.DeleteAbsent | frontend/screens/CalendarScreen.js:163-166 | deleting an id no reminder has changes nothing, whether or not the write succeeds |
| CalendarScreen.AddThenDelete | frontend/screens/CalendarScreen.js:123-166 | an add appends one reminder at the end of the day's list, and a successfully saved deletion of its new id gives the old list back |
| Wrappers.Lookup | frontend/context/UserContext.tsx:39-41 | a storage read or a body property: a value exactly when the key is present, and then the stored value |
| ClientData.FindMedication | frontend/screens/MedicationDetailScreen.js:18 | the first medication with the id, or none exactly when there is none |
| ClientData.KeyValueStore.constructor | frontend/context/UserContext.tsx:39-41 | the store holds the given items |
| AddMedicationScreen.FilteredMedications | frontend/screens/AddMedicationScreen.js:72-74 | exactly the entries whose lowercased name contains the lowercased query |
| AddMedicationScreen.EmptyQueryListsAll | frontend/screens/AddMedicationScreen.js:72-74 | an empty query lists the whole catalogue, in order |
| AddMedicationScreen.QueryCaseIgnored | frontend/screens/AddMedicationScreen.js:72-74 | the query's case does not matter |
| AddMedicationScreen.Validate | frontend/screens/AddMedicationScreen.js:89-110 | the checks in source order, each message exactly when the earlier checks pass and its own fails: empty fields, bad quantity, blank custom category with 'Other', past expiry |
| AddMedicationScreen.ValidateOutcomes | frontend/screens/AddMedicationScreen.js:89-110 | every refusal is one of the four alert messages; an accepted entry has a name, an expiry not before now, and a non-blank category when 'Other' is chosen |
| AddMedicationScreen.Purpose | frontend/screens/AddMedicationScreen.js:117 | never empty; the category when there is one |
| AddMedicationScreen.SavedChoiceDropped | frontend/screens/AddMedicationScreen.js:112-121 | finding 1 as written: the context's mapping ignores the chosen category and expiry |
| AddMedicationScreen.CorrectedKeepsChoice | frontend/screens/AddMedicationScreen.js:112-121 | finding 1 corrected: the chosen category and expiry reach the request |
| AddMedicationScreen.BlankQuantityAccepted | frontend/screens/AddMedicationScreen.js:95-98 | finding 2 as written: a quantity of one space passes validation and is sent as 0 |
| AddMedicationScreen.ValidateCorrected | frontend/screens/AddMedicationScreen.js:89-110 | finding 2 corrected: every accepted entry has a positive whole quantity, and is accepted alike by the checks as written |
| AddMedicationScreen.CorrectedRejectsBlank | frontend/screens/AddMedicationScreen.js:95-98 | the corrected checks turn away the quantity " " that the checks as written accept |
| AddMedicationScreen.AddMedicationForm.constructor | frontend/screens/AddMedicationScreen.js:49-57 | the initial form: empty fields, the list view, and an expiry of now |
| AddMedicationScreen.AddMedicationForm.SelectExisting | frontend/screens/AddMedicationScreen.js:76-80 | takes the entry's name and category and opens the form; nothing else changes |
| AddMedicationScreen.AddMedicationForm.ResetFormAndGoBack | frontend/screens/AddMedicationScreen.js:61-70 | clears name, quantity, category and custom category, resets the expiry and leaves the custom form; the search query is kept |
| AddMedicationScreen.AddMedicationForm.HandleSave | frontend/screens/AddMedicationScreen.js:89-123 | a failed check alerts its message and changes nothing; otherwise the saved object is handed to the context once and the form is reset |
| RegisterScreen.CheckFields | frontend/screens/RegisterScreen.js:31-44 | each message exactly when the earlier checks pass and its own fails; none exactly when every check passes |
| RegisterScreen.OutcomeError | frontend/screens/RegisterScreen.js:46-59 | empty exactly on success; the duplicate text exactly when the thrown message contains 'exists'; otherwise the generic text |
| RegisterScreen.TakenUsernameRecognised | frontend/screens/RegisterScreen.js:54-56 | finding 3 corrected: with a `register` bound, the backend's duplicate-name message is shown as the duplicate-name text |
| RegisterScreen.RegisterForm.constructor | frontend/screens/RegisterScreen.js:21-24 | an empty form with no error |
| RegisterScreen.RegisterForm.HandleRegister | frontend/screens/RegisterScreen.js:28-60 | `register` is called exactly when every check passes; the error is replaced on every attempt, by the failed check's message or by the outcome's error, which is empty on success; navigation exactly on success; the fields are kept |
| RegisterScreen.RetryClearsError | frontend/screens/RegisterScreen.js:29 | finding 3 corrected: with a `register` bound, a successful retry ends with no error, whatever an earlier attempt left |
| RegisterScreen.UnboundRegisterAlwaysFails | frontend/screens/RegisterScreen.js:46-59 | finding 3 as written: calling the undefined `register` throws, so every valid form ends with the generic error and never navigates |
| MedicationCard.DaysUntilExpiry | frontend/components/MedicationCard.js:7-13 | the least whole number of days covering the distance to the expiry, either side of now |
| MedicationCard.LowStockBadgeMatchesQuery | frontend/components/MedicationCard.js:16 | the card's `quantity <= 5` badge is shown exactly for the medicines the server's low-stock query returns |
| MedicationCard.ExpiringSoonExactly | frontend/components/MedicationCard.js:19 | flagged exactly when the expiry is within a week of now on either side |
| MedicationCard.PastExpiryCountsForward | frontend/components/MedicationCard.js:10-11 | a past expiry reports at least one day |
| MedicationCard.ReformatTimeUnchanged | frontend/components/MedicationCard.js:34-37 | a time is shown unchanged exactly when it has a single colon |
| MedicationCard.ClockTimeShownAsIs | frontend/components/MedicationCard.js:34-37 | an `HH:MM` time is shown as it is |
| MedicationCard.ReformatTimes | frontend/components/MedicationCard.js:34-38 | each time reformatted, in order |
| MedicationCard.ScheduleDisplay | frontend/components/MedicationCard.js:22-41 | 'No schedule set' for missing or empty schedules; otherwise the first schedule's days, ' at ', and its times |
| MedicationCard.OnlyFirstScheduleShown | frontend/components/MedicationCard.js:28 | schedules after the first never change the line |
| MedicationCard.UnitDisplayIsLowercase | frontend/components/MedicationCard.js:44-57 | every branch of the switch is the lowercased unit |
| MedicationDetailScreen.ExpiringSoonExactly | frontend/screens/MedicationDetailScreen.js:126-132 | the warning shows exactly for an expiry after now and at most 30 days ahead |
| MedicationDetailScreen.DateProperty | frontend/screens/MedicationDetailScreen.js:106 | the record's expiry under `expiryDate`; an Invalid Date under a key the record lacks |
| MedicationDetailScreen.WarningNeverShown | frontend/screens/MedicationDetailScreen.js:106 | finding 4 as written: reading `expirationDate`, the warning never shows, even for an expiry within 30 days |
| MedicationDetailScreen.CorrectedWarningShown | frontend/screens/MedicationDetailScreen.js:106-132 | finding 4 corrected: reading `expiryDate`, the warning shows exactly for an expiry after now and at most 30 days ahead |
| MedicationDetailScreen.Screen | frontend/screens/MedicationDetailScreen.js:18-32 | not found exactly when no medication has the id; otherwise a medication with that id |
| MedicationDetailScreen.HandleDelete | frontend/screens/MedicationDetailScreen.js:34-37 | delete this id, then go back |
| NotificationManager.SetupNotifications | frontend/components/NotificationManager.js:25-49 | the token is sent and stored exactly when a token and a user id exist and the token differs from the stored one; otherwise storage is unchanged |
| NotificationManager.MountTwice | frontend/components/NotificationManager.js:25-49 | the same token is sent at most once |
| NotificationManager.AppStateGate.constructor | frontend/components/NotificationManager.js:64 | the gate starts at the current app state |
| NotificationManager.AppStateGate.OnChange | frontend/components/NotificationManager.js:72-78 | the check runs exactly on a change from an inactive or background state to 'active'; the stored state is updated every time |
| NotificationManager.ActiveIsForeground | frontend/components/NotificationManager.js:73 | 'active' does not match the background pattern |
| NotificationManager.ActivateTwice | frontend/components/NotificationManager.js:72-78 | a second 'active' in a row never checks again |
| NotificationManager.CheckMedicine | frontend/components/NotificationManager.js:122-165 | the notices for one medicine are its due reminders, then low stock, then expiry |
| NotificationManager.CheckForNotifications | frontend/components/NotificationManager.js:108-167 | nothing without stored medicines or when they do not parse; otherwise the notices of every medicine, in order |
| NotificationManager.CountTitleAppend | frontend/components/NotificationManager.js:122-165 | counting notices by title adds up over concatenation |
| NotificationManager.ScheduleNoticeCounts | frontend/components/NotificationManager.js:124-138 | one reminder per schedule that is active and lists the current time and day |
| NotificationManager.MedicineNoticeCounts | frontend/components/NotificationManager.js:122-164 | one low-stock notice exactly when the quantity is at most 5; one expiry notice exactly when `now <= expiry <= now + 7 days`; one reminder per due schedule |
| NotificationManager.AllNoticeCounts | frontend/components/NotificationManager.js:122-165 | low-stock and expiry notices number exactly the low-stock and expiring medicines |
| MedicationContext.UpdateFields | frontend/context/MedicationContext.js:52-63 | each field is the given value when truthy, otherwise its default: 'Other', 'PILLS', 0, now, 1, `[]`, and null for the dates and prescription |
| MedicationContext.AddFields | frontend/context/MedicationContext.js:28-40 | the update mapping plus `presetMedicineId`, null when falsy |
| MedicationContext.UpdateIsAddWithoutPreset | frontend/context/MedicationContext.js:28-63 | the update request is the add request without `presetMedicineId` |
| MedicationContext.FalsyValuesDefault | frontend/context/MedicationContext.js:31-36 | a dosage of 0 becomes 1 and an empty category 'Other' |
| MedicationContext.AsObject | frontend/context/MedicationContext.js:28-40 | the request object has exactly the request's properties |
| MedicationContext.AddFieldsIdempotent | frontend/context/MedicationContext.js:28-40 | mapping an already mapped request changes nothing |
| MedicationContext.Settle | frontend/context/MedicationContext.js:42-47 | true exactly when the mutation resolves; the error never escapes |
| MedicationContext.AddMedication | frontend/context/MedicationContext.js:26-48 | a null or missing argument throws before sending and gives false; otherwise the mapped request is sent, and the result is true exactly on success |
| MedicationContext.UpdateMedication | frontend/context/MedicationContext.js:50-71 | the same with the update mapping and the id |
| MedicationContext.DeleteMedication | frontend/context/MedicationContext.js:73-81 | sends the removal; true exactly on success |
| MedicationContext.RecordMedicineIntake | frontend/context/MedicationContext.js:83-94 | sends the schedule id and `takenAt`, which defaults to now only when omitted; true exactly on success |
| UserContext.Initial | frontend/context/UserContext.tsx:25-27 | no user, logged out and loading |
| UserContext.CheckLoginStatus | frontend/context/UserContext.tsx:36-65 | loading always ends; without a complete session nothing else changes; an expired one removes the three keys and logs out; a valid one restores its user |
| UserContext.Login | frontend/context/UserContext.tsx:67-88 | true exactly on success, which stores the token, user and timestamp and logs in; any other outcome writes nothing; loading ends |
| UserContext.Logout | frontend/context/UserContext.tsx:90-100 | removes the three keys and clears the user |
| UserContext.LoginThenCheckRestores | frontend/context/UserContext.tsx:29-48 | a start-up check less than four hours after a login restores the same user |
| UserContext.LoginThenLateCheckClears | frontend/context/UserContext.tsx:29-55 | four hours or more after a login, the check removes the session and logs out |
| UserContext.LogoutThenCheckStaysOut | frontend/context/UserContext.tsx:43-61 | after a logout the check stays logged out |
| UserContext.UserProvider.constructor | frontend/context/UserContext.tsx:25-27 | the provider starts in the initial state over the given storage |
| UserContext.UserProvider.CheckLoginStatusStep | frontend/context/UserContext.tsx:37-63 | the step leaves exactly the state `CheckLoginStatus` describes |
| UserContext.UserProvider.LoginStep | frontend/context/UserContext.tsx:67-88 | the step leaves exactly the state and result `Login` describes |
| UserContext.UserProvider.LogoutStep | frontend/context/UserContext.tsx:90-100 | the step leaves exactly the state `Logout` describes |

## Left out

- PBKDF2, AES-GCM, `randomBytes`, Base64, hex and JSON are functions taken as given, through the `Encryption.Sound` assumptions. Random draws are parameters.
- Error kinds: every failure of `decrypt` is the one generic thrown error, as in the code.
- bcrypt and jsonwebtoken are functions taken as given, through `Accounts.Sound`. The bcrypt salt is not modelled.
- Prisma is a set of in-memory sequences. The following are left out:
  - relation includes beyond the medicine of a schedule;
  - database collation, so string sorting such as the presets' name order is taken as given;
  - column type checks on update data, and how the update is applied to the row;
  - query-array semantics beyond membership;
  - exceptions other than those each handler's answer depends on.
- `$transaction` is atomic by assumption.
- MedicineController.GetAllPresetMedicines: requires a non-negative `limit`, because Prisma's behaviour for a negative `take` (reading backwards) is not modelled. `Number` giving `Infinity` is not modelled either.
- MedicineController.UpdateData: states which keys are written and how, not the row the database stores afterwards.
- Dates:
  - `new Date(x)` parsing is a parameter or taken as given;
  - `setDate(getDate() + 7)` is exactly seven times 86 400 000 ms, so daylight-saving shifts are not modelled;
  - locale formatting is not modelled.
- Floating point: quantities are reals, and divisions before `Math.ceil` are exact integer ceil-division. NaN is `None`.
- `JsValues.NumberOps` takes `Number`, `parseInt`, `parseFloat` and number-to-text as given.
- Push delivery, Expo device registration, notification listeners and their cleanup, and the scheduled local notifications themselves are effects outside the model. A check's result is the list of notices it would send.
- `checkForNotifications` parses the stored medicines with `JSON.parse`, which is a parameter here. The check reads the clock once.
- The legacy medicine checks' database errors all answer 400, which the model folds into its single success path.
- React state batching, effect scheduling and the interleaving of awaited calls are out. Each handler is one sequential step.
- UserContext.Login: collapses the `isLoading` true-then-false of a login into its final value.
- Text.LowerStr: folds only the ASCII capitals A to Z. JavaScript's `toLowerCase` folds every cased Unicode character, so a query "аспирин" finds "Аспирин" in the source and not in the model. Unicode case tables are not modelled.
- Search.CaseInsensitive: holds for ASCII case only, for the reason above. Prisma's `mode: 'insensitive'` matching, which the search and `getUserMedicines` also use, is folded the same way.
- AddMedicationScreen.FilteredMedications: the catalogue search also folds ASCII case only.
- Text.Trim: treats only the ASCII white space (space, tab, line feed, carriage return, vertical tab, form feed) as white space. The same holds for Text.SplitSpaces and the search's split. JavaScript's `trim` and `\s` also match U+00A0, U+FEFF and the Unicode space separators, so a name split by U+00A0 is two words in the source and one in the model.
- MedicineController.AddToCollection: whether the database accepts the create is the `dbAccepts` parameter. The model does not spell out Prisma's validation: invalid dates, units outside `MedicineUnit`, missing columns, unknown preset ids.
- MedicineController.UpdateUserMedicine: whether the database accepts the update data is the `dbAccepts` parameter. This covers unknown keys and wrongly typed values, which Prisma rejects.
- NotificationManager.SetupNotifications: the rule reads the storage key `'userId'`, which none of the client files modelled here writes (the user context stores `'userData'`). In the app the rule therefore finds no user id and sends nothing.
- RegisterScreen.CheckFields: counts password length in characters. JavaScript counts UTF-16 code units, which differ outside the basic multilingual plane.
- MedicationContext.AddMedication: takes `new Date()` as a given JSON value, and does not model the date object itself.
- The medication context's query hooks (the medication, expiring and low-stock lists) are data fetching without logic of their own.
- Calendar screen:
  - the time picker and its reset;
  - `loadReminders` and the JSON of stored reminders;
  - the local notification scheduled per reminder;
  - marking colours and styles beyond the flags.
- Identifier generation (uuid, `Date.now().toString()`) comes in as a parameter.
- The search and category filters `getAllPresetMedicines` builds are never passed to its query. The model reflects this by not filtering.

## Findings

| source | as written | input that shows it | evidently intended | confidence | as-written member | corrected member |
|---|---|---|---|---|---|---|
| frontend/screens/AddMedicationScreen.js:112-121 | the saved object carries the category as `purpose` and the expiry as `expirationDate`, while the context reads `category` and `expiryDate` (frontend/context/MedicationContext.js:30-33) | any saved medication, e.g. category 'Antibiotic' with an expiry next month | the chosen category and expiry reach the backend request | not executed | AddMedicationScreen.SavedChoiceDropped | AddMedicationScreen.CorrectedKeepsChoice |
| frontend/screens/AddMedicationScreen.js:95-98 | `isNaN(quantity)` on the raw string treats a blank string as the number 0, and `parseInt(quantity) <= 0` is false for NaN | quantity " " (one space) | a quantity is accepted only when it parses to a positive integer | not executed | AddMedicationScreen.BlankQuantityAccepted | AddMedicationScreen.ValidateCorrected |
| frontend/screens/RegisterScreen.js:25-47 | the screen takes `register` from `useUser()`, but the user context's provider value (frontend/context/UserContext.tsx:103-111) has no `register`, so the call throws a `TypeError` whose message does not mention 'exists' | any valid form, e.g. username 'alice' with password 'password1' twice | a valid registration reaches the backend and navigates on success | not executed | RegisterScreen.UnboundRegisterAlwaysFails | RegisterScreen.RetryClearsError |
| frontend/screens/MedicationDetailScreen.js:106 | the warning reads `medication.expirationDate` (and the screen shows `purpose` and `addedDate`), while the client's medication records carry `expiryDate`, so `new Date(undefined)` is an Invalid Date and the day count is NaN | a medication whose `expiryDate` is ten days from now | the 30-day warning shows for a medication expiring within 30 days | not executed | MedicationDetailScreen.WarningNeverShown | MedicationDetailScreen.CorrectedWarningShown |
