# Elder Pharma field-force app: business rules in Dafny

This project models the business rules of the Elder Pharma field-force web app. Salesmen
use the app to mark attendance (a selfie and a GPS position, inside fixed daily windows),
log shop visits with a medicine sale, and apply for leave. Managers use it to watch who
is on duty or on leave today, see today's sales, deploy tasks to staff and edit staff
records. The root component holds every collection in memory. The screens read those
collections and hand new records back through callbacks.

Module by module:

- `Types` (`types.dfy`): the records of `types.ts`. Optional fields are `Option`.
- `Constants` (`constants.dfy`): the attendance windows, the office geofence and the
  eleven-entry medicine catalogue of `constants.ts`.
- `Text` (`text.dfy`): the string operations the screens use:
  - `startsWith`;
  - the `<=` order on strings, proved to be a total order;
  - `length`, counted in UTF-16 code units as JavaScript does;
  - digit filtering;
  - `slice(0, n)`.
- `AppState` (`app_state.dfy`): the root component `App.tsx`, as the class `AppStore`.
  - Its fields are the hook state: `user`, `view`, `salesData`, `attendanceLogs`,
    `leaves` and `staffList`.
  - Its methods are the handlers. They build the new lists with pure functions
    (`DeployTaskList`, `ReplaceById`, `FindById`).
  - A screen's callback prop (`onAdd`, `onApply`, `onLogin`, `onDeployTask`,
    `onUpdateStaff`) is modelled as a call to the store's method.
- `Attendance` (`attendance.dfy`): the Duty Desk.
  - The window check `isTimeInWindow`.
  - The enable rules of the Login and Logout buttons.
  - The class `DutyDesk`, with the `photo` and `location` state and the mark handler.
  - Proved: marks made through the buttons keep each user's log alternating IN, OUT,
    IN, ….
- `SalesmanDashboard` (`salesman_dashboard.dfy`): today's sales, revenue, visit count
  and task list.
- `ManagerDashboard` (`manager_dashboard.dfy`): the on-duty and on-leave sets, the staff
  status column, today's sales total, the recent lists, and the class `ManagerPanel`
  with the task form and the staff edit form.
- `Login` (`login.dfy`): registration checks, the role-dependent profile, and password
  login against the stored profile. The browser's stored profile is the field
  `storedProfile : Option<User>`.
- `SalesEntry` (`sales_entry.dfy`): the "Visit & Log" form (class `VisitForm`).
  - Value is price × quantity and profit is value × margin.
  - Quantity parsing follows `parseInt(...) || 1`.
  - The submit guard, the record it emits and the reset afterwards.
- `LeaveManagement` (`leave_management.dfy`): the leave form (class `LeaveForm`) and
  the PENDING request it files.

Representation choices:

- Money is `real`, so value, profit and revenue are exact.
- A moment is `Instant(day, secOfDay, ms)`. The window bounds are built with
  `setHours(h, m, 0)` on the current date, which keeps the current millisecond. It is
  proved that the check is exactly "start ≤ second of the day ≤ end", both ends
  included.
- Dates and timestamps are strings. The leave range uses JavaScript's string `<=`
  (`LexLe`), and "dated today" is a prefix test (`StartsWith`).
- JavaScript truthiness is explicit:
  - an empty photo string counts as no photo;
  - an empty title or shop name blocks a submit;
  - an empty task description gets the default.
- Ids, timestamps, "today", the current `Instant`, the captured frame, the device
  position and the geofence verdict `isValid` are parameters.

Three behaviours of the code worth knowing:

- A visit logs exactly one sales record. There are no draft bills, no line-item editing
  and no delivery dates.
- `deployTask` puts the new task at the front of the staff member's task list.
- A registered salesman signs in as the roster record with the same id (`S101`, whose
  name is "Rajesh Kumar"), not as the profile they just typed
  (`Login.RegisteredSessionUser`).

## Model

| member | source | states |
|---|---|---|
| Constants.CatalogueWellFormed | constants.ts:14-26 | eleven medicines, each with a positive price and a margin strictly between 0 and 1; names are distinct, so a name selects at most one entry |
| Text.LexLeReflexive | components/ManagerDashboard.tsx:24 | the string order used for leave dates is reflexive |
| Text.LexLeTotal | components/ManagerDashboard.tsx:24 | any two date strings are comparable |
| Text.LexLeAntisymmetric | components/ManagerDashboard.tsx:24 | two strings that are each `<=` the other are equal |
| Text.LexLeTransitive | components/ManagerDashboard.tsx:24 | the string order is transitive |
| Text.LexLe | components/ManagerDashboard.tsx:24 | the `<=` used for leave dates; its order properties are the four lemmas above |
| Text.StartsWith | components/ManagerDashboard.tsx:23 | `startsWith`; what "dated today" selects is stated by `InMarksToday` and `TodaySales` |
| Text.OnlyDigits | components/Login.tsx:133 | the result is all digits, no longer than the input, and an all-digit input is kept as it is |
| Text.OnlyDigitsAppend | components/Login.tsx:133 | filtering distributes over concatenation |
| Text.OnlyDigitsOfChar | components/Login.tsx:133 | one character is kept iff it is a digit; with `OnlyDigitsAppend`, the result is exactly the digits of the input, in order |
| Text.Utf16Length | components/Login.tsx:35-42 | `length` counts UTF-16 code units: between one and two per character, exactly one each when every character is in the Basic Multilingual Plane |
| Text.Utf16LengthAppend | components/Login.tsx:35-42 | the length of a concatenation is the sum of the lengths |
| Text.Utf16LengthOfChar | components/Login.tsx:35-42 | a character takes one code unit below U+10000 and two from U+10000 on; with `Utf16LengthAppend` this fixes every string's length |
| AppState.FindById | App.tsx:46 | `None` iff no record has the id; otherwise the FIRST record with that id |
| AppState.ResolveLogin | App.tsx:44-48 | the session record has the given id; it is the FIRST roster record with that id when there is one, and the given user when none has it |
| AppState.DeployTaskList | App.tsx:74-79 | same length; each record with the id gets the task in front of its tasks (a missing list counts as empty); every other record is untouched |
| AppState.ReplaceById | App.tsx:90 | same length; exactly the records whose id matches become the update, the rest stay |
| AppState.UpdatesKeepIds | App.tsx:74-90 | neither staff update adds, removes, reorders or re-keys a record |
| AppState.DeployToUnknownIdIsIdentity | App.tsx:74-79 | deploying to an id that no record has leaves the list unchanged |
| AppState.FindAfterDeploy | App.tsx:85 | looking the target up in the new list finds its old record with the task in front, or nothing if it was absent |
| AppState.SessionAfterDeploy | App.tsx:84-86 | a session user on the roster who receives a task ends up with that task at the head of their list |
| AppState.AttendanceOf | App.tsx:116 | the per-user attendance view holds exactly the user's records, each as many times as the store holds it |
| AppState.SalesOf | App.tsx:105 | the per-salesman sales view holds exactly that salesman's records, each as many times as the store holds it |
| AppState.LeavesOf | App.tsx:125 | the per-user leave view holds exactly the user's requests, each as many times as the store holds it |
| AppState.AttendanceViewAfterAdd | App.tsx:61-65 | a record added to the store appears at the front of its owner's view; other users' views are unchanged (so the view keeps the store's newest-first order) |
| AppState.SalesViewAfterAdd | App.tsx:55-59 | a sale added to the store appears at the front of its salesman's view; other views are unchanged |
| AppState.LeavesViewAfterAdd | App.tsx:67-71 | a request added to the store appears at the front of its user's view; other views are unchanged |
| AppState.AppStore.constructor | App.tsx:23-28 | no session user, the dashboard view, empty logs and the two-person default roster |
| AppState.AppStore.HandleLogin | App.tsx:44-48 | the session user becomes the resolved record; nothing else changes |
| AppState.AppStore.HandleLogout | App.tsx:50-53 | the session is cleared and the view reset to the dashboard; the collections are kept |
| AppState.AppStore.SetView | App.tsx:101 | navigation sets the view |
| AppState.AppStore.AddSalesRecord | App.tsx:55-59 | the record goes in front and the old records follow in their order (one longer) |
| AppState.AppStore.AddAttendanceRecord | App.tsx:61-65 | the record goes in front and the old records follow in their order (one longer) |
| AppState.AppStore.AddLeaveRequest | App.tsx:67-71 | the request goes in front and the old requests follow in their order (one longer) |
| AppState.AppStore.DeployTask | App.tsx:73-87 | the staff list becomes `DeployTaskList` of the old one; a session user who is the target is re-read from the new list (and cleared should it be missing); any other session is kept |
| AppState.AppStore.UpdateStaffProfile | App.tsx:89-94 | the staff list becomes `ReplaceById` of the old one; a session user with the updated id becomes the updated record |
| Attendance.BeforeColon | components/AttendanceControl.tsx:22 | the first field of `split(':')` is the prefix of the string up to its first colon, or the whole string when it has none |
| Attendance.AfterColon | components/AttendanceControl.tsx:22 | there is a second field iff the string has a colon, and the string is first field + ':' + the rest |
| Attendance.ParseClock | components/AttendanceControl.tsx:22-23 | `split(':').map(Number)` on a window bound; `ParseFormatRoundTrip` states it inverts the `HH:MM` rendering |
| Attendance.ParseFormatRoundTrip | components/AttendanceControl.tsx:22-23 | parsing an `HH:MM` rendering of a clock time gives that time back |
| Attendance.ConfiguredWindowsParse | constants.ts:2-5 | the configured windows parse as 10:00–10:20 and 19:00–19:20 |
| Attendance.IsTimeInWindow | components/AttendanceControl.tsx:20-27 | `isTimeInWindow`; `WindowIsSecondsOfDay` states what it decides |
| Attendance.WindowIsSecondsOfDay | components/AttendanceControl.tsx:20-27 | the window check holds iff both bounds parse and start ≤ second of the day ≤ end, both ends included |
| Attendance.WindowDependsOnlyOnTimeOfDay | components/AttendanceControl.tsx:24-25 | two moments with the same time of day get the same answer, whatever their date and millisecond |
| Attendance.ConfiguredWindowBounds | components/AttendanceControl.tsx:29-30 | login is open exactly from second 36000 to 37200 of the day, logout exactly from 68400 to 69600 |
| Attendance.LoginWindowEdges | components/AttendanceControl.tsx:20-26 | 10:00:00 and 10:20:00 are inside the login window; 09:59:59 and 10:20:01 are outside |
| Attendance.WindowsNeverOverlap | components/AttendanceControl.tsx:29-30 | login and logout are never open at the same moment |
| Attendance.LoginDisabled | components/AttendanceControl.tsx:117 | the Login button's `disabled` expression; `ButtonStates` states when it is enabled |
| Attendance.LogoutDisabled | components/AttendanceControl.tsx:125 | the Logout button's `disabled` expression; `ButtonStates` states when it is enabled |
| Attendance.ButtonStates | components/AttendanceControl.tsx:117-125 | Login is enabled iff there is a photo, the login window is open and the newest log is absent or OUT; Logout is enabled iff there is a photo, the logout window is open and the newest log is IN; never both |
| Attendance.LoginKeepsAlternation | components/AttendanceControl.tsx:117-118 | an IN mark on an off-duty log keeps the log alternating IN, OUT, … from the first IN |
| Attendance.LogoutKeepsAlternation | components/AttendanceControl.tsx:125-126 | an OUT mark on an on-duty log keeps the log alternating |
| Attendance.RepeatedMarkBreaksAlternation | components/AttendanceControl.tsx:78 | two marks of the same type in a row break the alternation of a log |
| Attendance.DutyDesk.constructor | components/AttendanceControl.tsx:13-30 | no photo and no position yet; the windows are the configured ones |
| Attendance.DutyDesk.Capture | components/AttendanceControl.tsx:41-49 | a captured frame becomes the photo; without a video or canvas the photo is kept |
| Attendance.DutyDesk.Retake | components/AttendanceControl.tsx:105 | Retake discards the photo |
| Attendance.DutyDesk.LocationFound | components/AttendanceControl.tsx:75 | the reported coordinates become the location |
| Attendance.DutyDesk.HandleMark | components/AttendanceControl.tsx:51-71 | without a photo or a position nothing changes; otherwise one record goes in front of the store's log with the user's id and name, the requested type, the photo, the coordinates and the geofence verdict, the same record heads the user's log, and the photo is cleared; neither the windows nor the last mark are checked, so a mark of the same type as the user's newest one is recorded and breaks the alternation |
| Attendance.DutyDesk.PressLogin | components/AttendanceControl.tsx:116-118 | a disabled Login button, or a missing position, changes nothing; otherwise the IN record with the user's id and name, the photo, the coordinates and the verdict goes in front of the store's log and of the user's log, and the photo is cleared; a user's log that alternated still does |
| Attendance.DutyDesk.PressLogout | components/AttendanceControl.tsx:124-126 | a disabled Logout button, or a missing position, changes nothing; otherwise the OUT record goes in front of the store's log and of the user's log, and the photo is cleared; a user's log that alternated still does |
| SalesmanDashboard.TodaySales | components/SalesmanDashboard.tsx:16-17 | today's sales are exactly the records whose timestamp begins with today's date, each as many times as it occurs |
| SalesmanDashboard.TodayRevenue | components/SalesmanDashboard.tsx:18 | `totalValue`; `RevenueIsSumOfToday` and `NewSaleUpdatesTotals` state its value |
| SalesmanDashboard.TotalVisits | components/SalesmanDashboard.tsx:19 | `totalVisits`, one per record of today; `NewSaleUpdatesTotals` states how it grows |
| SalesmanDashboard.FoldIsSum | components/SalesmanDashboard.tsx:18 | the left-fold `reduce` from `acc` equals `acc` plus the sum of the values |
| SalesmanDashboard.RevenueIsSumOfToday | components/SalesmanDashboard.tsx:18-19 | revenue is the sum of today's values; with no sale today both revenue and visits are 0 |
| SalesmanDashboard.NewSaleUpdatesTotals | components/SalesmanDashboard.tsx:17-19 | a new sale dated today adds one visit and exactly its value; a sale of another day changes neither |
| SalesmanDashboard.Tasks | components/SalesmanDashboard.tsx:21 | the assigned tasks, or the empty list when the field is absent |
| ManagerDashboard.InMarksToday | components/ManagerDashboard.tsx:23 | exactly the IN marks dated today, each as many times as it occurs |
| ManagerDashboard.MarkUserIds | components/ManagerDashboard.tsx:23 | the set of user ids of the marks, no larger than the list |
| ManagerDashboard.OnDutyIds | components/ManagerDashboard.tsx:23 | `onDutyIds`; `OnDutyMeaning` states who is in it |
| ManagerDashboard.OnDutyMeaning | components/ManagerDashboard.tsx:23 | a user is on duty iff some IN mark of theirs is dated today |
| ManagerDashboard.OnDutyCountsUsers | components/ManagerDashboard.tsx:23 | the on-duty count is at most the number of today's IN marks; a later OUT, or a repeated IN, leaves the set unchanged |
| ManagerDashboard.LeavesToday | components/ManagerDashboard.tsx:24 | exactly the approved leaves with start ≤ today ≤ end, each as many times as it occurs |
| ManagerDashboard.LeaveUserIds | components/ManagerDashboard.tsx:24 | the set of user ids of the requests |
| ManagerDashboard.OnLeaveIds | components/ManagerDashboard.tsx:24 | `onLeaveIds`; `OnLeaveMeaning` states who is in it |
| ManagerDashboard.OnLeaveMeaning | components/ManagerDashboard.tsx:24 | a user is on leave iff some APPROVED leave of theirs has start ≤ today ≤ end |
| ManagerDashboard.UnapprovedLeaveNeverCounts | components/ManagerDashboard.tsx:24 | adding a pending or rejected request never changes the on-leave set |
| ManagerDashboard.ReversedLeaveCoversNothing | components/ManagerDashboard.tsx:24 | a leave whose end sorts before its start covers no day |
| ManagerDashboard.StatusOf | components/ManagerDashboard.tsx:83-97 | the badge choice, Working before On Leave before Absent; `StaffStatuses` states it per staff record |
| ManagerDashboard.StaffStatuses | components/ManagerDashboard.tsx:82-97 | one status per staff record: Working iff on duty; On Leave iff not on duty and on approved leave today; Absent otherwise |
| ManagerDashboard.TodaySalesTotal | components/ManagerDashboard.tsx:71 | the tile shows the sum of values over all sales dated today |
| ManagerDashboard.RecentSales | components/ManagerDashboard.tsx:128 | the first five sales of the newest-first list, or all of them when there are fewer |
| ManagerDashboard.OwnedBy | components/ManagerDashboard.tsx:223 | each task of a staff member is paired with that member's name, in order |
| ManagerDashboard.Assignments | components/ManagerDashboard.tsx:223 | the `flatMap` over the roster; `RecentAssignmentsFollowStaffOrder` states its order |
| ManagerDashboard.RecentAssignments | components/ManagerDashboard.tsx:223 | the first five entries of the flattened list, or all of them when there are fewer |
| ManagerDashboard.RecentAssignmentsFollowStaffOrder | components/ManagerDashboard.tsx:223 | the flattening follows staff order: when the first member holds five tasks, only theirs are shown |
| ManagerDashboard.NewTask | components/ManagerDashboard.tsx:30-36 | a deployed task is PENDING, due "End of Day", with the typed title; an empty description becomes "Assigned by Manager" |
| ManagerDashboard.SubmittedTaskHeadsTargetList | components/ManagerDashboard.tsx:30-36 | a submitted task lands at the head of its target's list, in front of the tasks already there |
| ManagerDashboard.ManagerPanel.constructor | components/ManagerDashboard.tsx:17-18 | no record being edited; the task form is empty with the first staff id selected, or "" when there is no staff |
| ManagerDashboard.ManagerPanel.SelectEmployee | components/ManagerDashboard.tsx:190 | the selection changes, the other fields stay |
| ManagerDashboard.ManagerPanel.SetTitle | components/ManagerDashboard.tsx:201 | the title changes, the other fields stay |
| ManagerDashboard.ManagerPanel.SetDescription | components/ManagerDashboard.tsx:210 | the description changes, the other fields stay |
| ManagerDashboard.ManagerPanel.HandleTaskSubmit | components/ManagerDashboard.tsx:26-40 | an empty title or selection deploys nothing; otherwise the store deploys `NewTask` to the selected id, and title and description are cleared while the selection is kept |
| ManagerDashboard.ManagerPanel.StartEdit | components/ManagerDashboard.tsx:169 | the edit form opens on the chosen record |
| ManagerDashboard.ManagerPanel.CancelEdit | components/ManagerDashboard.tsx:248 | the edit form closes |
| ManagerDashboard.ManagerPanel.HandleEditSave | components/ManagerDashboard.tsx:42-48 | with a record open, the store replaces it by id (syncing the session) and the form closes; otherwise nothing changes |
| Login.SanitizePhone | components/Login.tsx:133 | the phone field holds the first ten of the typed digits, or all of them when fewer were typed |
| Login.SanitizePhoneIdempotent | components/Login.tsx:133 | sanitising an already sanitised value changes nothing |
| Login.RegistrationError | components/Login.tsx:35-42 | registration passes iff the phone's `length` is exactly 10 and the password's at least 4, both in UTF-16 code units; the phone is checked first |
| Login.RegistrationLengths | components/Login.tsx:35-42 | a sanitised phone passes iff at least ten digits were typed; a password of two emoji is four code units long and passes |
| Login.NewProfile | components/Login.tsx:44-59 | manager: M001, ELD-MGR-001, "Kaushik Mondal" whatever was typed, salary 85000; salesman: S101, ELD-SLS-101, the typed name, salary 35000; both: pf 1800, 0 points, no tasks, the typed phone, email and password |
| Login.RegisteredSessionUser | components/Login.tsx:44-62 | with the starting roster a new salesman signs in as the roster's S101 record, a new manager as the new profile |
| Login.LoginScreen.constructor | components/Login.tsx:24-31 | the login form is shown iff a profile is stored, and the role starts at the stored role |
| Login.LoginScreen.SetRole | components/Login.tsx:99-106 | the role toggle sets the role |
| Login.LoginScreen.SetName | components/Login.tsx:121 | the name field takes the typed value |
| Login.LoginScreen.SetPhone | components/Login.tsx:133 | the phone field takes the sanitised value |
| Login.LoginScreen.SetEmail | components/Login.tsx:145 | the email field takes the typed value |
| Login.LoginScreen.SetPassword | components/Login.tsx:157 | the password field takes the typed value |
| Login.LoginScreen.SetLoginPassword | components/Login.tsx:192 | the login password field takes the typed value |
| Login.LoginScreen.HandleRegister | components/Login.tsx:33-63 | a failed check sets its message and stores and signs in nothing; otherwise the new profile is stored and handed to the app's login |
| Login.LoginScreen.HandleLogin | components/Login.tsx:65-76 | no stored profile: nothing happens and no error is set; otherwise the stored profile signs in iff its password equals the typed one, and a mismatch sets the error and signs in nobody |
| Login.LoginScreen.SwitchAccount | components/Login.tsx:210-213 | the stored profile is removed and the registration form shown |
| SalesEntry.LineValue | components/SalesEntry.tsx:23 | price × quantity; `LineFigureSigns` states its sign, `VisitForm.HandleSubmit` that it is the value shown and recorded |
| SalesEntry.LineProfit | components/SalesEntry.tsx:24 | value × margin; `LineFigureSigns` states its bounds |
| SalesEntry.LineFigureSigns | components/SalesEntry.tsx:23-24 | for a catalogue medicine and a quantity of at least 1, 0 < profit < value; a negative quantity gives a negative value and profit |
| SalesEntry.LeadingDigits | components/SalesEntry.tsx:93 | the longest digit-only prefix of the input: the run stops at the end or at the first non-digit |
| SalesEntry.ParseInt | components/SalesEntry.tsx:93 | `parseInt` as an optional sign and leading digits; `QuantityOfDigits` states its value on digit strings |
| SalesEntry.QuantityFromInput | components/SalesEntry.tsx:93 | never 0: NaN and 0 become 1, and any other parsed value is kept |
| SalesEntry.QuantityOfDigits | components/SalesEntry.tsx:93 | a run of digits is read as its value (0 read as 1), and a leading minus is kept: the `\|\| 1` fallback does not reject negative numbers |
| SalesEntry.FindByName | components/SalesEntry.tsx:76-79 | `None` iff no entry has the name; otherwise an entry of the list with that name |
| SalesEntry.VisitForm.constructor | components/SalesEntry.tsx:14-17 | empty shop name, the first catalogue entry, quantity 1, no success banner |
| SalesEntry.VisitForm.SetShopName | components/SalesEntry.tsx:61 | the shop field takes the typed value |
| SalesEntry.VisitForm.SelectMedicine | components/SalesEntry.tsx:76-79 | a catalogue name selects that entry; any other name leaves the selection unchanged |
| SalesEntry.VisitForm.SetQuantity | components/SalesEntry.tsx:93 | the quantity becomes `parseInt(input) \|\| 1` |
| SalesEntry.VisitForm.HandleSubmit | components/SalesEntry.tsx:19-45 | an empty shop name, or a position that never arrives, logs nothing and changes nothing; otherwise one record goes in front of the store's sales, carrying the salesman, shop, medicine, quantity, price × quantity and value × margin, with the value shown on the form; then the shop name is cleared, the quantity reset to 1 and the success banner shown |
| LeaveManagement.NewRequest | components/LeaveManagement.tsx:23-28 | the request is always PENDING, carries the user's id and copies type, dates and reason unchanged |
| LeaveManagement.FiledRequestPutsNobodyOnLeave | components/LeaveManagement.tsx:27 | a newly filed request does not change who is on leave, whatever its dates |
| LeaveManagement.LeaveForm.constructor | components/LeaveManagement.tsx:13-19 | the form starts closed, as SICK with empty dates and reason |
| LeaveManagement.LeaveForm.Open | components/LeaveManagement.tsx:37 | the "+" button opens the form |
| LeaveManagement.LeaveForm.Close | components/LeaveManagement.tsx:90 | the close button closes the form |
| LeaveManagement.LeaveForm.SetType | components/LeaveManagement.tsx:101 | the type changes, the other fields stay |
| LeaveManagement.LeaveForm.SetStartDate | components/LeaveManagement.tsx:116 | the start date changes, the other fields stay |
| LeaveManagement.LeaveForm.SetEndDate | components/LeaveManagement.tsx:126 | the end date changes, the other fields stay |
| LeaveManagement.LeaveForm.SetReason | components/LeaveManagement.tsx:139 | the reason changes, the other fields stay |
| LeaveManagement.LeaveForm.HandleSubmit | components/LeaveManagement.tsx:21-30 | the request built from the form goes in front of the store's leaves without any date check; the form closes and keeps its fields |

## Left out

- The geofence distance (components/AttendanceControl.tsx:55-58) uses floating-point
  `sqrt`/`pow` and a degrees-to-metres factor. The verdict `isValid` is an input of the
  mark handler. `OfficeLocation` and `GeofenceRadiusMeters` are declared but not used.
- The camera and geolocation APIs are left out. The captured frame and the reported
  position are parameters (`Capture`, `LocationFound`, and the `position` of
  `VisitForm.HandleSubmit`). The camera-denied error message is not modelled.
  `VisitForm.HandleSubmit` collapses the click and the position callback into one step.
  In the app, the record, the reset and the success banner all wait for the position.
  Interleavings during that wait are not represented: a second click that logs a
  second record, or edits that the reset then overwrites.
- Browser storage and JSON are left out. The app's loading effect and every
  `localStorage.setItem` write are not modelled. The collections are held in memory,
  and the login screen's stored profile is the field `storedProfile`.
- The AI insight call (services/geminiService.ts and its effect in
  components/SalesmanDashboard.tsx) is network I/O and is not part of this model.
- `Math.random` ids, `toISOString`, `toLocaleString` and the current time are
  parameters: `id`, `timestamp`, `today` and `now`.
- Time zones and daylight-saving shifts are left out. An `Instant` is local wall-clock
  time, and every day has 86400 seconds.
- JavaScript number rounding is left out. Value, profit and revenue are exact reals, and
  the integer fields are unbounded.
- SalesEntry.ParseInt reads an optional sign and leading decimal digits only. Leading
  whitespace, which `parseInt` skips, is not modelled, and neither is the `0x` prefix,
  which `parseInt` reads as hexadecimal (`"0x10"` gives 16 there and 0 here). A
  `type="number"` input never hands over such a string.
- Text.LexLe compares characters, that is Unicode code points, where JavaScript compares
  UTF-16 code units. The two orders differ only between a character outside the Basic
  Multilingual Plane and one in U+E000–U+FFFF. The dates it is used on are ASCII.
- Browser form validation is not modelled. The handlers are modelled as called directly.
  In the running app, `required` fields, `type="email"` and the quantity's `min="1"`
  keep the submit handlers from running on an empty field, an invalid email or a
  quantity below 1. The model's handlers accept those inputs.
- Attendance.ParseClock reads only digit fields, as `Number` does for the `"HH:MM"`
  strings the windows hold. Whitespace, signs, decimals and hex, which `Number` also
  accepts, are not modelled.
- The success banner's 3-second timeout is not modelled, nor is the `alert` after a task
  is deployed.
- The manager screen's active-tab state is not modelled.
- The staff edit form's field handlers (components/ManagerDashboard.tsx:263-290) are not
  modelled. `StartEdit` takes the already edited record.
- Rendering is left out, and so are Layout, Profile, About and HistoryView.
- The optional fields `shopAddress`, `shopMobile`, `deliveryDate` and `place` of
  types.ts are set nowhere in the modelled code and are omitted.
