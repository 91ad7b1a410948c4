# WasteWise application state, modelled in Dafny

WasteWise is a browser application for scheduling household waste pickups.
Completed pickups earn loyalty points, points buy reward vouchers, and a
notification list records the welcome, each new pickup, each completed pickup
and each redemption. All of its state lives in one shared object, `appState`: the current page, the point balance, the list of pickup
schedules, the notification list, the voucher list and the total weight
collected. The rest of the program renders that object and forwards button
clicks and form submissions to the operations that change it.

This project models that object and those operations:

- `Records`: the schedule, notification and voucher records as datatypes.
  The schedule status is the explicit state machine `Pending | Completed`.
- `Workspace`: the state as a value (`State`). Every operation is a function
  from the old state to the new one: submit, complete, delete, redeem,
  notify, mark all read, add points, navigate, greet. The lemmas beside them
  state what each operation promises.
- `App`: the class `AppState` with the six fields of `appState`. Its methods
  update the fields in place, as the program does (`push`, `splice`,
  `unshift`, the `forEach` that sets `read`, `+=` and `-=`). Each method is
  proved to leave the state that the matching `Workspace` function gives.
- `Ledger`: how the balance and the total relate to the schedules and the
  vouchers. It also pins down the asymmetry of `deleteSchedule`, which the
  model keeps as the program has it. Deleting a pending schedule subtracts a
  weight that was never added. Deleting a completed schedule removes its
  weight from the total but leaves its points in the balance.
- `Runs`: any sequence of actions from the initial state with non-negative
  weights keeps the balance non-negative.
- `VoucherCode`: the loop that draws an 8-character code from `A-Z0-9`.
- `Derived`, `Text` and `Numbers`: the user tier, the relative-time label,
  the pickup-weekday rule, `capitalize`, `Math.round` and decimal text.
- `Scenarios`: client methods that run the class through three usage
  scenarios. Each one is proved from the method contracts alone: completing
  2.5 kg earns 25 points; redeeming 50 of 50 points leaves 0; deleting a
  pending 3 kg schedule takes the total to -3.

Inputs from the environment are parameters:

- A `Stamp(millis, iso)` stands for one `Date.now()` and one
  `new Date().toISOString()`. It supplies the ids and timestamps, and nothing
  assumes the ids are unique.
- The values `Math.random()` returns are a sequence of reals in [0, 1).
- The form's values arrive as a `PickupForm`.
- The locale-formatted date text is passed in wherever a message or label
  contains it.

The program is single-user: `script.js` has no registration, login,
sessions or per-user storage, so the model has no accounts or sessions.

## Model

| member | source | states |
|---|---|---|
| `App.AppState.constructor` | script.js:4-12 | starts on page `beranda` with 0 points, empty lists and a total of 0 |
| `App.AppState.AddNotification` | script.js:477-488 | the new unread notification goes in front of the old list; nothing else changes |
| `App.AppState.MarkNotificationsAsRead` | script.js:490-493 | the loop sets `read` on every entry in place and leaves the list as `AllRead` of the old list |
| `App.AppState.AddPoints` | script.js:537-540 | the balance rises by the amount; nothing else changes |
| `App.AppState.NavigateTo` | script.js:152-200 | sets the page, and marks every notification read when the page is `notifikasi` |
| `App.AppState.GreetIfEmpty` | script.js:35-41 | the welcome notification is added only when the list is empty |
| `App.AppState.HandleScheduleSubmit` | script.js:209-244 | appends the pending schedule and then puts the info notification in front |
| `App.AppState.DeleteSchedule` | script.js:246-255 | leaves exactly the state `Workspace.Delete` describes |
| `App.AppState.CompleteSchedule` | script.js:309-337 | leaves exactly the state `Workspace.Complete` describes, including the early return for a completed schedule |
| `App.AppState.RedeemReward` | script.js:361-394 | reports whether `points >= cost`, and leaves the state `Workspace.Redeem` gives for the code drawn from the random values |
| `Workspace.Notify` | script.js:477-488 | the new state of `addNotification`; its properties are stated by `Workspace.NotifyPrepends` |
| `Workspace.MarkAllRead` | script.js:490-493 | the new state of `markNotificationsAsRead`; stated by `Workspace.MarkAllReadClearsBadge` |
| `Workspace.Credit` | script.js:537-540 | the new state of `addPoints`; used by `Workspace.Complete`, whose credit `Workspace.CompleteCreditsOnce` states |
| `Workspace.Navigate` | script.js:153-199 | the state part of `navigateTo`; stated by `Workspace.NavigateEffect` |
| `Workspace.Greet` | script.js:35-41 | the start-up welcome notice; stated by `Workspace.GreetOnlyWhenEmpty` and `Ledger.NoticesKeepLedgers` |
| `Workspace.GreetOnlyWhenEmpty` | script.js:35-41 | on an empty list the welcome success notice becomes its only entry; a non-empty list is left as it is; no other field changes |
| `Workspace.NewSchedule` | script.js:220-230 | the schedule record built from the form; stated by `Workspace.SubmitAppendsPending` |
| `Workspace.Submit` | script.js:220-240 | the state part of `handleScheduleSubmit`; stated by `Workspace.SubmitAppendsPending` and `Ledger.SubmitKeepsLedgers` |
| `Workspace.Complete` | script.js:309-331 | the state part of `completeSchedule`; stated by `Workspace.CompleteCreditsOnce`, `Workspace.CompleteIdempotent`, `Workspace.CompleteOnCompletedIsIgnored` and `Ledger.CompleteKeepsLedgers` |
| `Workspace.Delete` | script.js:246-252 | the state part of `deleteSchedule`; stated by `Workspace.DeleteRemovesFirstMatch` and `Ledger.DeleteShiftsLedgers` |
| `Workspace.Redeem` | script.js:361-386 | the state part of `redeemReward`; stated by `Workspace.RedeemRejected`, `Workspace.RedeemAccepted` and `Ledger.RedeemKeepsLedgers` |
| `Workspace.FindIndex` | script.js:247 | returns -1 exactly when no schedule has the id; otherwise the first position holding the id |
| `Workspace.FindIndexIgnoresOtherFields` | script.js:316 | changing a schedule's status does not change which position `findIndex` finds |
| `Workspace.NotifyPrepends` | script.js:477-488 | the new unread entry is at index 0, old entry k is now at k+1, the unread count rises by one, nothing else changes |
| `Workspace.MarkAllReadClearsBadge` | script.js:490-493 | the length, order, ids, titles and messages are kept, the unread count is 0, and no other field changes |
| `Workspace.NavigateEffect` | script.js:153-199 | the page is set; entering `notifikasi` leaves the list as the old list marked read (every entry kept) and clears the unread count; any other page changes only the page |
| `Workspace.SubmitAppendsPending` | script.js:220-240 | one pending schedule holding the form's type, date, weight, address and coordinates, the fixed morning slot, the given id and createdAt is appended at the end; earlier schedules keep their places; the unread info notice with the creation title and message goes in front; points, total, vouchers and page are kept |
| `Workspace.UnknownIdIsIgnored` | script.js:247-248 | completing or deleting an id no schedule has leaves the whole state unchanged |
| `Workspace.CompleteOnCompletedIsIgnored` | script.js:313 | completing a schedule that is already completed leaves the whole state unchanged |
| `Workspace.CompleteCreditsOnce` | script.js:314-331 | only the first matching schedule changes, and only its status; points rise by round(weight*10) and the total by the weight; the unread success notice with the completion title, a message naming the waste type and the points earned, and the given id and timestamp goes in front |
| `Workspace.CompleteIdempotent` | script.js:309-331 | completing twice gives the same state as completing once |
| `Workspace.DeleteRemovesFirstMatch` | script.js:246-251 | exactly the first schedule with the id is removed, the others keep their relative order (a permutation less that one entry), the total drops by that schedule's weight whatever its status, and points, vouchers, notifications and page are kept |
| `Workspace.RedeemRejected` | script.js:362-365 | with points below the cost the state is unchanged |
| `Workspace.RedeemAccepted` | script.js:368-386 | otherwise the points drop by exactly the cost and stay non-negative; the voucher with the given id, name, code, date and cost goes in front; the unread success notice with the redemption title and a message carrying the name and code goes in front; schedules, total and page are kept |
| `Ledger.SumsSplit` | script.js:319-323 | the completed weight and the earned points of a concatenation are the sums of the parts |
| `Ledger.SumsAround` | script.js:319-323 | one schedule contributes its weight and its round(weight*10) only when completed |
| `Ledger.InitialBalanced` | script.js:4-12 | the initial state satisfies both ledgers |
| `Ledger.SubmitKeepsLedgers` | script.js:220-240 | submitting keeps both ledgers |
| `Ledger.CompleteKeepsLedgers` | script.js:309-331 | completing keeps both ledgers |
| `Ledger.RedeemKeepsLedgers` | script.js:361-386 | redeeming keeps both ledgers, since the cost moves from the balance to the vouchers |
| `Ledger.NoticesKeepLedgers` | script.js:35-41 | greeting and navigating keep both ledgers |
| `Ledger.DeleteShiftsLedgers` | script.js:246-251 | deleting lowers the total by the weight; the completed weight and earned points drop only when the schedule was completed; the balance plus the voucher costs stays the same |
| `Ledger.DeletingPendingUnbalancesTotal` | script.js:251 | deleting a pending schedule of positive weight from a balanced state puts the total below the completed weight, short by that weight |
| `Ledger.DeletingCompletedKeepsCredit` | script.js:246-251 | deleting a completed schedule keeps the weight ledger, but the balance keeps the schedule's round(weight*10) credit |
| `Ledger.CreateThenDeleteGoesNegative` | script.js:232-251 | on a fresh state, creating a pending 3 kg schedule and deleting it gives a total of -3 |
| `Runs.SubmitKeepsSound` | script.js:220-232 | submitting a non-negative weight keeps the balance and every weight non-negative |
| `Runs.CompleteKeepsSound` | script.js:314-323 | completing keeps the balance and every weight non-negative, since round(10w) >= 0 for w >= 0 |
| `Runs.DeleteKeepsSound` | script.js:246-251 | deleting keeps the balance and every remaining weight non-negative |
| `Runs.ApplyKeepsSound` | script.js:309-368 | each action keeps the balance non-negative and every schedule weight non-negative, provided the submitted weight is |
| `Runs.RunKeepsSound` | script.js:309-368 | so does a whole sequence of actions |
| `Runs.BalanceNeverNegative` | script.js:361-368 | from the initial state, with non-negative weights, the balance never goes negative |
| `Notifications.UnreadCount` | script.js:526 | the unread count is at most the list length |
| `Notifications.AllRead` | script.js:490-493 | same length; each entry keeps its id, title, message, type and timestamp and is read |
| `Notifications.NoUnreadIffAllRead` | script.js:526 | the unread count is 0 exactly when every entry is read |
| `Notifications.NoUnreadAfterMarking` | script.js:490-493 | after marking, the unread count is 0 |
| `Notifications.MarkingIdempotent` | script.js:490-493 | marking twice is marking once |
| `Notifications.UnreadAfterPrepend` | script.js:486 | a new unread entry in front raises the count by one |
| `VoucherCode.DrawIndex` | script.js:400 | floor(r*36) is a valid position in the alphabet and the unique integer i with i <= 36r < i+1 |
| `VoucherCode.CodeFrom` | script.js:396-403 | the code has length 8 and every character is in `A-Z0-9` |
| `VoucherCode.GenerateVoucherCode` | script.js:396-403 | the loop returns 8 alphabet characters, the k-th chosen by the k-th random value |
| `VoucherCode.DrawOfSlot` | script.js:400 | the random value i/36 picks character i |
| `VoucherCode.DrawsFor` | script.js:398-401 | for every code over a 36-character alphabet there are eight random values in [0, 1) that pick its characters in order |
| `VoucherCode.EveryCodeIsReachable` | script.js:396-403 | every 8-character string over the alphabet is produced by some random values |
| `Derived.UserLevel` | script.js:439-445 | the tier's lower threshold has been reached and the next tier's threshold has not |
| `Derived.UserLevelCountsThresholds` | script.js:439-445 | the tier's rank equals how many of the thresholds 50, 150, 300 and 500 the balance has reached |
| `Derived.UserLevelMonotone` | script.js:439-445 | more points never give a lower tier |
| `Derived.UserLevelBoundaries` | script.js:439-445 | 49 is Pemula, 50 Berkembang, 149 Berkembang, 150 Mahir, 299 Mahir, 300 Ahli, 499 Ahli, 500 Master, and the names returned at 49, 50, 150, 300 and 500 are "Pemula", "Berkembang", "Mahir", "Ahli" and "Master" |
| `Derived.AgeOf` | script.js:582-595 | each branch is taken exactly on its millisecond range (under 1 minute to 7 days and beyond), and the number shown is the floor of the difference in that unit |
| `Derived.RelativeTime` | script.js:582-596 | 'Baru saja' under 60000 ms; 'N menit lalu' with N the whole minutes below one hour; 'N jam lalu' with N the whole hours below one day; 'Kemarin' from one to two days; 'N hari lalu' with N the whole days below seven; never 'Baru saja' from one minute up to seven days; the formatted date from seven days on |
| `Derived.IsPickupDay` | script.js:142 | true exactly for weekday 1 (Senin) or 4 (Kamis) |
| `Derived.Level.Name` | script.js:440-444 | the tier's name exactly as `getUserLevel` returns it; `Derived.UserLevelBoundaries` states the names at the thresholds |
| `Derived.CheckedPickupDate` | script.js:137-145 | the date is kept when the weekday is 1 or 4 and reset to empty otherwise |
| `Derived.TwoPickupDaysAWeek` | script.js:142 | of the weekdays 0 to 6, exactly Monday (1) and Thursday (4) accept a pickup |
| `Text.UpperChar` | script.js:579 | the result is never a lower-case ASCII letter; lower-case letters map to their capitals and other characters are unchanged |
| `Text.Capitalize` | script.js:578-580 | the length is kept, the first character becomes `UpperChar` of the input's first character, the rest is unchanged, and an empty string stays empty |
| `Text.CapitalizeIdempotent` | script.js:578-580 | capitalizing twice is capitalizing once |
| `Numbers.Round` | script.js:319 | `Math.round`: the result r satisfies r - 0.5 <= x < r + 0.5, so halves round up |
| `Numbers.RoundOfNonNegative` | script.js:319 | a non-negative number never rounds to a negative one |
| `Numbers.NatString` | script.js:591 | non-empty, all decimal digits, no leading zero (0 is the single digit `0`) |
| `Numbers.NatStringRoundTrip` | script.js:591 | reading the digits back gives the number |
| `Numbers.IntString` | script.js:327 | an optional minus sign followed by digits without a leading zero (so 25 shows as `25`); the sign appears exactly for negative numbers |
| `Numbers.IntStringRoundTrip` | script.js:327 | reading the text back gives the number |

## Left out

- Rendering and other page code: the `render*` functions, `updateUI`,
  `showToast`, `alert`, the highlighting and header text in `navigateTo`,
  `switchTab`, the sidebar, and the splash-screen timer. The sort by date
  at script.js:277 only orders the display.
- Persistence: `loadData`, `saveData` and `localStorage`, with their
  `JSON` and `parseInt`/`parseFloat` encodings. Every `saveData` call is a
  no-op in the model. For the same reason `lastLoginDate` is not a field:
  only `loadData` and `saveData` read or write it.
- The Leaflet map, geolocation and the reverse-geocoding `fetch`
  (script.js:626-736). They are third-party and network code. They only
  fill in form fields, which reach the model as inputs.
- `formatDate`, `new Date(...)` and `getDay()`. The locale and the clock
  are external. The formatted date text and the weekday number are inputs.
- `window.loadDemoData` (script.js:608-621). It is a demo-data helper
  that builds a schedule without a status.
- The invalid timestamp case: `getRelativeTime` on a timestamp that does not
  parse compares NaN. The model takes the difference as an integer number
  of milliseconds.
- Floating point: weights, the total and `weight * 10` are exact reals.
  So `Math.round` of a product that binary floating point would put just
  below a half may differ, and a NaN weight (an empty weight field) is not
  represented.
- Text.UpperChar: upper-cases only the ASCII letters a-z. `toUpperCase`
  also maps other scripts and can lengthen a string (for example `ß`).
- Numbers.IntString: covers the integral numbers points can take. It does
  not cover the exponent form JavaScript uses from 1e21 up.
- App.AppState.RedeemReward: requires eight valid random values even when
  the guard rejects the redemption and none is drawn. The values are
  ignored in that case.
- `addNotification`'s default type `'info'` (script.js:477) is not
  modelled: every call site passes a type (script.js:36-40, 234-238,
  326-330, 382-386), so no behaviour depends on it.
- The state is modelled by value: `schedule.status = 'completed'` and
  `notif.read = true` write into objects that nothing else aliases; the
  sorted copy used for display is only ever read.
- Voucher codes are not unique, and neither are the ids from `Date.now()`.
  The source guarantees neither, and the model does not assume it.
