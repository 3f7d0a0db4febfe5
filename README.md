# Breathe5 meditation timer: a Dafny model of the session pipeline

This project models the logic of a five-minute meditation app for React Native.
That logic has five parts:

- the "M:SS" duration text;
- the session record and the history kept under the key `meditation_history` of the device's key-value store;
- the insights computed from that history: counts, minutes, longest session, streak, achievements and recommendation;
- the countdown timer that decides what gets saved;
- three small screen routines: the history shown newest first, the notification list, and the check on the typed name.

Modules follow the source files:

| module | file | form |
|---|---|---|
| `NumberText` | the integer text that `toString` prints and `parseInt` reads | functions, lemmas |
| `TimeFormatter` | src/utils/timeFormatter.js | functions, lemmas |
| `SessionModel` | src/models/Session.js | datatypes, functions |
| `SessionController` | src/controllers/SessionController.js | class `SessionStore` over a `map`, with its specification functions |
| `Insights` | src/views/screens/InsightScreen.js | pure folds, a loop for the streak, class `InsightScreen` |
| `HomeTimer` | src/views/screens/HomeScreen.js | class `HomeScreen` (start, tick, stop) |
| `History` | src/views/screens/HistoryScreen.js | in-place array reverse, class `HistoryScreen` |
| `Notifications` | src/views/screens/NotificationScreen.js | functions, lemmas |
| `NameEntry` | src/views/screens/NameScreen.js | functions, lemmas |

Choices made in the model:

- Timestamps are integer epoch milliseconds.
- The stored `date` is the session's end instant itself, not its locale text.
- One day, as `setDate(getDate() - 1)` subtracts it, is 86 400 000 ms.
- `formatSeconds` and `getFormattedDuration` keep JavaScript's arithmetic for negative counts. The minutes use `Math.floor`. The `%` keeps the dividend's sign. The text gets a `-`. So `-65` prints `-2:-5` (`NegativeFormatExample`). `FormatSecondsReadBack` proves that such text is never read back as a duration.
- `saveSession` treats a missing timestamp and the timestamp `0` alike, because both are falsy in JavaScript.
- Serialising to JSON and parsing it back is taken as the identity.

Three points where a reader might expect other behaviour than the code has:

- **Streak.** A cutoff computed once would give a fixed 24-hour window shared by every record. In the code, `today.setDate(...)` runs inside the filter callback. So the k-th completed record (counting from 0) is compared with now − (k+1) days. `StreakCoversLastDay` proves that this count is never below the fixed one-day window. `StreakReachesPastOneDay` shows a record that is a day and a half old being counted. `ThreeSessionsToday` shows three sessions today unlocking "3-Day Streak".
- **Corrupt store.** A corrupt stored value does not read as an empty history: `JSON.parse` errors reach the caller. The model's store holds lists only, so neither behaviour arises.
- **Invalid save.** No failure value is returned: the code logs and returns without changing anything. The model leaves the store unchanged.

## Model

| member | source | states |
|---|---|---|
| `NumberText.NatToString` | src/utils/timeFormatter.js:4 | the decimal text of a natural number is non-empty, all digits, one character exactly below 10, and has no leading zero |
| `NumberText.IntToString` | src/utils/timeFormatter.js:2-4 | `toString` of an integer is non-empty, has no ':', and is all digits exactly when the integer is ≥ 0 |
| `NumberText.ParseInt` | src/views/screens/InsightScreen.js:31 | `parseInt` gives a number ≥ 0 for any non-empty digit string, nothing for the empty text, and a negative number only after a leading '-' |
| `NumberText.NatToStringRoundTrip` | src/utils/timeFormatter.js:4 | reading the digits printed for n gives back n |
| `NumberText.ParseIntRoundTrip` | src/views/screens/InsightScreen.js:30-31 | `parseInt` of an integer's text gives back that integer, negative ones included |
| `TimeFormatter.JsRemainder` | src/utils/timeFormatter.js:3 | the `%` equals the mathematical remainder for non-negative counts, and lies in (−60, 0] for negative ones |
| `TimeFormatter.JsRemainderCongruent` | src/utils/timeFormatter.js:3 | `secs % 60` differs from `secs` by a whole number of minutes, so with the range above it is JavaScript's truncated remainder for every count |
| `TimeFormatter.PadStart2` | src/utils/timeFormatter.js:4 | padStart(2, '0') gives at least two characters, ending in the original text, with only '0' in front of it |
| `TimeFormatter.FormatSeconds` | src/utils/timeFormatter.js:1-5 | the text has at least four characters; for a count ≥ 0 it is the minutes' digits plus ':' and two more characters |
| `TimeFormatter.FormatSecondsFields` | src/utils/timeFormatter.js:2-4 | for any integer, the text before the single ':' is the floor-divided minutes and the text after it is the padded remainder |
| `TimeFormatter.FormatSecondsShape` | src/utils/timeFormatter.js:2-4 | for a non-negative count, the minutes are unpadded and unbounded, the seconds are exactly two digits worth `secs % 60 < 60`, and there is exactly one ':' |
| `TimeFormatter.FormatSecondsReadBack` | src/utils/timeFormatter.js:2-4 | round trip: minutes*60 + seconds read from the text equals the count when it is ≥ 0; negative counts give text that is not "M:SS" |
| `TimeFormatter.ReadBackOfFields` | src/utils/timeFormatter.js:2-4 | a text whose two fields read as m and sec < 60 reads back as m*60 + sec |
| `TimeFormatter.FormatSecondsExamples` | src/utils/timeFormatter.js:1-5 | 0 → "0:00", 65 → "1:05", 300 → "5:00" |
| `TimeFormatter.NegativeFormatExample` | src/utils/timeFormatter.js:1-5 | −65 → "-2:-5": floored minutes and a remainder with the dividend's sign |
| `SessionModel.DurationSeconds` | src/models/Session.js:10 | the duration in seconds is the floor of (end − start)/1000, dropping the sub-second remainder; it is ≥ 0 when end ≥ start |
| `SessionModel.FormattedDuration` | src/models/Session.js:9-14 | getFormattedDuration's own formula gives the same text as formatSeconds applied to the duration in seconds |
| `SessionModel.ToStorageObject` | src/models/Session.js:16-23 | the stored form keeps username and completed, is dated by endTime, and its duration is the formatted duration |
| `SessionModel.StoredFormForgetsStart` | src/models/Session.js:16-23 | the stored form keeps no start instant; the end instant survives only as its date: two sessions with the same user, flag, end and whole-second length give the same record |
| `SessionModel.StoredDurationReadsBack` | src/models/Session.js:10-13 | when end ≥ start, the stored duration reads back as the session's seconds, and its seconds field is two digits below 60 |
| `SessionController.RecordOf` | src/controllers/SessionController.js:11-12 | the record built from accepted arguments carries their username and completed flag, is dated by their endTime, and its duration is formatSeconds of the whole seconds from startTime to endTime |
| `SessionController.HistoryOf` | src/controllers/SessionController.js:14 | the stored list under the history key, or the empty list when the key is absent |
| `SessionController.SaveInto` | src/controllers/SessionController.js:4-17 | a save without both truthy timestamps leaves the store untouched; otherwise the history (empty when the key is absent) gains the new session's stored form at its end, and other keys are untouched |
| `SessionController.ClearFrom` | src/controllers/SessionController.js:23-29 | clearing removes the history key, so the history reads empty, and leaves every other key as it was |
| `SessionController.Added` | src/controllers/SessionController.js:5-12 | one saveSession call adds at most one record, and adds one exactly when both timestamps are truthy |
| `SessionController.AcceptedRecords` | src/controllers/SessionController.js:5-12 | the records a run of saves produces are no more than the calls made |
| `SessionController.SaveAll` | src/controllers/SessionController.js:4-17 | a run of saves appends exactly the accepted calls' records, in call order, after the earlier history, which stays unchanged, and every other key keeps its value |
| `SessionController.AllAcceptedRecords` | src/controllers/SessionController.js:4-17 | when every call passes the guard, the records are exactly the calls' records, one per call, in call order |
| `SessionController.ClearThenSaves` | src/controllers/SessionController.js:4-29 | after a clear, n successful saves make the history exactly those n records in save order |
| `SessionController.ClearIdempotent` | src/controllers/SessionController.js:23-29 | clearing twice gives the same store as clearing once |
| `SessionController.SessionStore.constructor` | src/controllers/SessionController.js:1 | a fresh device store holds no keys |
| `SessionController.SessionStore.SaveSession` | src/controllers/SessionController.js:4-17 | the imperative save: guard, build the record, read, push, write back; the new store is SaveInto of the old one |
| `SessionController.SessionStore.GetSessionHistory` | src/controllers/SessionController.js:19-21 | returns the stored list, or the empty list when the key is absent, and changes nothing |
| `SessionController.SessionStore.RemoveItem` | src/controllers/SessionController.js:25 | removes one key and keeps the rest |
| `SessionController.SessionStore.ClearSessionHistory` | src/controllers/SessionController.js:23-29 | the store becomes ClearFrom of the old one; the history then reads empty |
| `Insights.Completed` | src/views/screens/InsightScreen.js:27 | the completed records are exactly the history's records with `completed` set, and there are no more of them than records |
| `Insights.CompletedMultiplicity` | src/views/screens/InsightScreen.js:27 | each completed record occurs in the filtered list exactly as often as in the history, and incomplete ones not at all |
| `Insights.CompletedAppend` | src/views/screens/InsightScreen.js:27 | filtering a concatenation is concatenating the filtered parts |
| `Insights.MinutePart` | src/views/screens/InsightScreen.js:30-31 | a duration without ':' is parsed whole; an empty duration or one starting with ':' reads as not-a-number |
| `Insights.MinutesOrZero` | src/views/screens/InsightScreen.js:31-32 | a not-a-number minutes field counts as 0, any other as its value |
| `Insights.TotalMinutes` | src/views/screens/InsightScreen.js:29-33 | the sum seeded with 0 is ≥ 0 when every record's minutes are ≥ 0 |
| `Insights.MinutePartOfFormat` | src/views/screens/InsightScreen.js:30-31 | the minutes read from any formatted duration are its floor-divided minutes |
| `Insights.LargestField` | src/views/screens/InsightScreen.js:35-39 | the reduce `mins > max ? mins : max` from 0 over any field reader gives at least 0, at least every number read (NaN never wins), and either 0 or one of them |
| `Insights.Longest` | src/views/screens/InsightScreen.js:35-39 | the longest session is ≥ 0, ≥ the minutes of every completed record, and is either 0 or the minutes of some record |
| `Insights.MovingCutoffCount` | src/views/screens/InsightScreen.js:41-45 | the streak never exceeds the number of completed records |
| `Insights.CurrentStreak` | src/views/screens/InsightScreen.js:41-45 | the loop with the cutoff that moves back a day per record computes MovingCutoffCount |
| `Insights.MovingCutoffAppend` | src/views/screens/InsightScreen.js:41-45 | the record at index k counts toward the streak iff it is dated ≥ now − (k+1) days |
| `Insights.CountSince` | src/views/screens/InsightScreen.js:41-45 | the fixed-window count used for comparison never exceeds the number of records |
| `Insights.StreakCoversLastDay` | src/views/screens/InsightScreen.js:41-45 | the streak is at least the number of completed records from the last 24 hours |
| `Insights.StreakReachesPastOneDay` | src/views/screens/InsightScreen.js:41-45 | a second record 36 hours old is counted by the streak but not by a fixed one-day window |
| `Insights.ComputeInsights` | src/views/screens/InsightScreen.js:24-51 | streak ≤ completed sessions ≤ number of records, and the longest session is ≥ 0 |
| `Insights.EmptyHistoryInsights` | src/views/screens/InsightScreen.js:26-45 | an empty or absent history gives four zeros, every achievement locked and the starter recommendation |
| `Insights.IncompleteRecordIgnored` | src/views/screens/InsightScreen.js:26-27 | an incomplete record, wherever it sits in the history, changes none of the four metrics |
| `Insights.LongestAtMostTotal` | src/views/screens/InsightScreen.js:29-39 | for completed records with non-negative minutes, the longest session is ≤ the total |
| `Insights.LongestAtMostTotalMinutes` | src/views/screens/InsightScreen.js:29-39 | the same for the insights of a whole history |
| `Insights.TotalOfSameMinutes` | src/views/screens/InsightScreen.js:29-33 | records that all last m minutes total m per record |
| `Insights.TotalOfConstant` | src/views/screens/InsightScreen.js:29-33 | records that each count m minutes after the NaN check total m per record |
| `Insights.TimerHistoryInsights` | src/views/screens/InsightScreen.js:29-77 | on histories the timer writes ("5:00" for every completed one): total = 5 × sessions, longest is 5 or 0, "30 Minutes" needs 6 sessions, "1 Hour" needs 12, and the praise message is never given |
| `Insights.ThreeSessionsToday` | src/views/screens/InsightScreen.js:24-69 | three completed sessions today of 5, 5 and 3 minutes give 3 sessions, 13 minutes, longest 5 and streak 3; "5 Sessions" stays locked and "3-Day Streak" unlocks |
| `Insights.Achievements` | src/views/screens/InsightScreen.js:62-69 | six achievements with ids 1..6; each unlocks exactly at its threshold (≥1, ≥5, ≥10 sessions; ≥30, ≥60 minutes; ≥3 streak), so a higher threshold implies the lower ones |
| `Insights.AppendNeverRelocks` | src/views/screens/InsightScreen.js:62-69 | saving one more record with non-negative minutes never relocks an achievement at the same instant |
| `Insights.Recommendation` | src/views/screens/InsightScreen.js:71-77 | each of the five texts is given exactly when its rule is the first to match: no sessions, minutes < 30, streak 0, longest < 10, otherwise praise |
| `Insights.RecommendationMatchesAchievements` | src/views/screens/InsightScreen.js:62-77 | the starter tip appears iff "First Session" is locked; the minutes tip only while "30 Minutes" is locked; later tips only once it is unlocked |
| `Insights.MeasureHistory` | src/views/screens/InsightScreen.js:27-45 | the filter, both reduces and the streak loop, run in order, give exactly the insights function of the history and the clock |
| `Insights.InsightScreen.constructor` | src/views/screens/InsightScreen.js:17-22 | the screen starts with an empty history and four zero metrics |
| `Insights.InsightScreen.LoadInsights` | src/views/screens/InsightScreen.js:24-51 | the screen state becomes the stored history and the insights computed from it, with streak ≤ sessions and longest ≥ 0 |
| `HomeTimer.EndTime` | src/views/screens/HomeScreen.js:83-85 | a completed session ends start + 300 000 ms later; any session with 0..300 seconds left ends between start and start + 300 000 |
| `HomeTimer.ActualDuration` | src/views/screens/HomeScreen.js:87 | the reported seconds times 1000 is exactly end − start |
| `HomeTimer.RecordAtStop` | src/views/screens/HomeScreen.js:83-98 | the record a stop saves carries the username and completed flag and is dated by the computed end instant |
| `HomeTimer.AlertMatchesStoredDuration` | src/views/screens/HomeScreen.js:83-105 | the stored duration text equals formatSeconds(actualDuration) shown in the alert |
| `HomeTimer.CompletedRecordIsFullLength` | src/views/screens/HomeScreen.js:83-98 | every completed record the timer saves ends 300 000 ms after its start and has duration "5:00", whatever the countdown showed |
| `HomeTimer.HomeScreen.constructor` | src/views/screens/HomeScreen.js:43-47 | the screen starts idle with 300 seconds left and no start instant |
| `HomeTimer.HomeScreen.StartMeditation` | src/views/screens/HomeScreen.js:58-61 | start records the clock reading and sets running |
| `HomeTimer.HomeScreen.Tick` | src/views/screens/HomeScreen.js:62-70 | with more than 1 second left a tick counts down by one and saves nothing; at the last second the new store is exactly the old one after saving {username, start, end, completed = true}, so the history gains the completed record of this start; it alerts that record's duration (which `CompletedRecordIsFullLength` shows is "5:00") and resets to 300, so the time left stays in 1..300 |
| `HomeTimer.HomeScreen.StopMeditation` | src/views/screens/HomeScreen.js:73-107 | stop always clears running; without a start instant it saves nothing and warns; otherwise it saves exactly the record {username, start, computed end, completed}, alerts its duration, resets to 300 and clears the start |
| `HomeTimer.StartStopStop` | src/views/screens/HomeScreen.js:77-101 | a second stop without a new start saves nothing: one start gives at most one record |
| `History.ReversedAt` | src/views/screens/HistoryScreen.js:24 | the reversed list has the same length, and its k-th element is the (n−1−k)-th of the original |
| `History.Reversed` | src/views/screens/HistoryScreen.js:24 | the reversed list has the same length, starts with the original's last element and ends with its first |
| `History.ReversedSameRecords` | src/views/screens/HistoryScreen.js:24 | reversing keeps exactly the same records, each as often |
| `History.ReverseInPlace` | src/views/screens/HistoryScreen.js:24 | `reverse()` on the array leaves its contents reversed |
| `History.HistoryScreen.constructor` | src/views/screens/HistoryScreen.js:17-18 | the screen starts with an empty list over the given store |
| `History.HistoryScreen.FetchHistory` | src/views/screens/HistoryScreen.js:22-25 | the displayed list is the stored history newest first, nothing dropped, and the store is not modified |
| `History.HistoryScreen.HandleClear` | src/views/screens/HistoryScreen.js:37-57 | "Yes" removes the history key and empties the displayed list; "Cancel" changes neither the store nor the display |
| `Notifications.MarkAsRead` | src/views/screens/NotificationScreen.js:45-49 | length and order kept; items with the id become read with every other field kept; all other items unchanged |
| `Notifications.MarkAsReadIdempotent` | src/views/screens/NotificationScreen.js:45-49 | marking twice is marking once |
| `Notifications.MarkUnknownId` | src/views/screens/NotificationScreen.js:45-49 | an id that no item carries leaves the list unchanged |
| `Notifications.MarkAsReadUnread` | src/views/screens/NotificationScreen.js:45-49 | the unread count drops by exactly the unread items carrying the id, and none of them stays unread |
| `Notifications.ClearAllNotifications` | src/views/screens/NotificationScreen.js:51-53 | clearing yields the empty list |
| `Notifications.ClearedStaysEmpty` | src/views/screens/NotificationScreen.js:51-53 | after clearing nothing is unread, and marking any id keeps the list empty |
| `Notifications.InitialListFacts` | src/views/screens/NotificationScreen.js:18-43 | the initial list has three items with distinct ids, exactly one unread (the first), and marking "1" leaves none unread |
| `NameEntry.Trim` | src/views/screens/NameScreen.js:18 | `trim()` is the slice s[i..j] with only white space before i and after j, and it is empty or starts and ends with a non-white-space character |
| `NameEntry.TrimEmptyIffBlank` | src/views/screens/NameScreen.js:18 | `trim()` is empty exactly when the name is empty or all white space |
| `NameEntry.HandleContinue` | src/views/screens/NameScreen.js:17-28 | rejects exactly the blank names, with the message "Please enter your name" as a window alert on web and a native alert elsewhere; otherwise navigates to "MainTabs" with the name as typed |
| `NameEntry.ContinueDecision` | src/views/screens/NameScreen.js:17-28 | blank names are rejected and do not navigate; any name with a visible character navigates to "MainTabs" carrying the name untrimmed; the platform only chooses how the alert is shown |

## Left out

- Rendering, styles, icons (the achievement icons included), the guide toggle, refresh spinners, the header, the tab bar and navigation wiring: these are layout with no behaviour to state.
- The sound cues (`playSound`, expo-av): a foreign call that changes no state the model tracks.
- Timing: `setInterval`, the 100 ms `setTimeout` before the history list empties, and the splash delay. Each tick is one step, and the list empties together with the store.
- The stale-closure and updater-side-effect details of calling `stopMeditation` from inside `setTimeLeft`. Ticks and stops are atomic steps.
- Asynchrony and failures of the device store, and JSON parse errors: the store is a map from keys to lists.
- Locale dates: `toLocaleString` and `new Date(string)` are not modelled. The stored date is the integer end instant, so the second-level rounding of the locale text and its locale dependence are absent.
- Insights.MovingCutoffCount: a day is a fixed 86 400 000 ms. Calendar-day steps across a daylight-saving change are not modelled.
- Insights.MinutePart: `parseInt` reads an optional '-' followed by digits only. Its leniency (leading white space, '+', trailing non-digits as in "12abc") is not modelled, and such text reads as not-a-number. A missing `duration` field cannot occur, because durations are always strings here.
- HomeTimer.HomeScreen.StartMeditation: clock readings are parameters, taken to be positive epoch milliseconds. Start is offered only while idle, because the button is hidden while running.
- HomeTimer.HomeScreen.Tick: a tick is taken only while running, because the interval is cleared at every stop.
- Theme and settings state, the help screen, the generic storage helper (src/storage/storage.js) and the breathing animation are not part of this model.
