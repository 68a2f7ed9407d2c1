# Egg Guardian in Dafny

Egg Guardian is a chore tracker for a child. Parents define tasks, each worth one to three stars and scheduled on some
weekdays. Each day the child's tasks are settled against a fixed daily target of 572 coins. A weekly salary is granted
on Mondays. The coin balance and the daily salary slips are mirrored into a companion focus app ("eggfocus") as coin
records. A small API keeps the profile and a parent password, and authenticates through a single sign-on service.

This project models the core of that system and proves what it promises.

| module | models |
|---|---|
| `DataService` | the settlement engine: `calculateStarValue`, `processSettlement`, `checkWeeklySalaryReset`, the 32-bit `simpleHash`, the date string of `getTodayDateString` |
| `DataAdapter` | conversion between the tracker's daily logs and the focus app's coin records, in both directions, and which stored source `loadSyncedState` prefers |
| `SettlementModal` | the settlement dialog: live deduction preview, guarded amount, the "every task decided" gate, task toggling |
| `Settings` | the task editor: delete, add, edit, the sorted weekday toggle, and the draft handlers |
| `Cookie` | the lenient `Cookie` header parser, the `Set-Cookie` serialiser, `deleteCookie` and the option presets |
| `Profile` | the profile view, the column/value builder of a profile update, and the parent-password update and verdict |
| `Auth` | token selection (cookie first, then a `Bearer` header), the sign-on validity rule and the 401 gate |
| `App` | the application state: loading with the weekly grant, and settlement that appends a slip |
| `Types`, `Wrappers`, `Strings`, `Sorting` | the records of the data model and the constants of `constants.ts`; `Option`; splitting, trimming, number rendering and parsing; a stable sort and sums |

Settlement is a deduction policy, as the comments at services/dataService.ts:129 and 145 say. Each task left
unfinished costs its share `valuePerStar * stars`, and the slip pays `572 − Σ deductions`. The log records both the
`deduction` and the `actual_amount`. The floor-division remainder of 572 therefore goes to the child, and a perfect
day pays 572. The amount paid is not the value of the completed stars: the two differ exactly by that remainder.

Things outside the program are parameters:

| outside input | becomes |
|---|---|
| today's date string and its weekday | the arguments `today` (a string) and `weekday` (0 = Sunday … 6) |
| the local calendar day of a time stamp | a function `localDate: int -> CalendarDate` |
| the time stamp of a date string (`new Date(d).getTime()`) | a function `timeOfDate: string -> int` |
| `Date.now()` in a new task's id | an argument `now` |
| the reply of the sign-on service for a token | a function `sso: string -> SsoReply` |
| the coin records already stored | an argument |
| the database behind the profile routes | a map from user id to profile row, or the row already looked up |

Array sorting becomes a stable insertion sort on an integer key, as `Array.prototype.sort` is stable. A JavaScript `Map`
keeps insertion order, so it becomes a sequence with unique keys. A JSON request body becomes a `Json` datatype whose
numbers are integers.

## Model

| member | source | states |
|---|---|---|
| DataService.Int32 | services/dataService.ts:65-66 | the 32-bit conversion lands in the signed 32-bit range and is congruent to its input modulo 2^32 |
| DataService.Int32Congruent | services/dataService.ts:65-66 | congruent inputs convert to the same 32-bit value |
| DataService.HashOf | services/dataService.ts:62-67 | the hash is a signed 32-bit value |
| DataService.ShiftStep | services/dataService.ts:65-66 | `((h << 5) - h) + c` followed by `h & h` equals the 32-bit wrap of `31 * h + c` |
| DataService.HashStep | services/dataService.ts:63-67 | one loop turn extends the hash by one UTF-16 code unit |
| DataService.HashSnoc | services/dataService.ts:63-67 | the hash obeys the recurrence `h' = int32(31 h + u)` on each appended unit |
| DataService.SimpleHash | services/dataService.ts:61-69 | the loop returns the base-36 rendering of the 32-bit polynomial hash over the string's UTF-16 code units |
| DataService.HashProperties | services/dataService.ts:61-69 | the empty string hashes to "0"; every hash reads back as the signed 32-bit number it renders |
| DataService.TwoDigitsValue | services/dataService.ts:74-75 | a padded month or day has two decimal digits and reads back as its value |
| DataService.DashedFields | services/dataService.ts:76 | a `y-mm-dd` string splits back into its three fields |
| DataService.ParseDashed | services/dataService.ts:76 | a dashed string of fields reads back to the fields' values |
| DataService.ParseFormatDate | services/dataService.ts:71-77 | the date string reads back to the calendar day it was made from |
| DataService.FormatDateInjective | services/dataService.ts:71-77 | distinct calendar days give distinct date strings |
| DataService.TenChars | services/dataService.ts:76 | four, two and two digits joined by dashes make ten characters with dashes at 4 and 7 |
| DataService.FourDigits | services/dataService.ts:73 | a year from 1000 to 9999 renders as four decimal digits |
| DataService.FormatDateFourDigitYear | services/dataService.ts:71-77 | for a four-digit year the date string is exactly `YYYY-MM-DD` |
| DataService.FormatDate | services/dataService.ts:71-77 | the date string `year-MM-DD`: reads back to its day (ParseFormatDate), one string per day (FormatDateInjective), exactly `YYYY-MM-DD` for four-digit years (FormatDateFourDigitYear) |
| DataService.TodaysTasks | services/dataService.ts:87 | today's tasks are exactly the tasks scheduled on the weekday, never more than all tasks |
| DataService.TodaysTasksAppend | services/dataService.ts:87 | the filter distributes over concatenation, so the tasks keep their relative order |
| DataService.TotalStars | services/dataService.ts:89 | the total of one-to-three-star tasks lies between their number and three times it |
| DataService.CalculateStarValue | services/dataService.ts:83-95 | today's tasks, their star total (zero exactly when there are none), and `floor(572 / total)`, or 0 without stars |
| DataService.StarValueFloor | services/dataService.ts:92 | `valuePerStar * totalStars <= 572 < (valuePerStar + 1) * totalStars` when there are stars |
| DataService.FloorDivision | services/dataService.ts:92 | floor division bounds the quotient and gives the remainder |
| DataService.IsCompleted | services/dataService.ts:132 | a task counts as completed only when its mark is explicitly true; a missing or false mark does not (StatusesAt) |
| DataService.TaskDeduction | services/dataService.ts:134 | nothing for a completed task, its share `valuePerStar * stars` otherwise (StatusesAt, TotalDeductionIsUnfinishedValue) |
| DataService.Statuses | services/dataService.ts:131-140 | one status per task of today, in order, with its id, completion and deduction (StatusesAt) |
| DataService.TotalDeduction | services/dataService.ts:131-143 | the value of the unfinished stars, between 0 and the value of all of today's stars (TotalDeductionIsUnfinishedValue, AllCompletedNoDeduction, NoneCompletedFullDeduction) |
| DataService.StatusesAt | services/dataService.ts:131-143 | exactly one status per task of today, in order: its id, completion iff `completionMap[id] === true`, and its deduction |
| DataService.TotalDeductionIsUnfinishedValue | services/dataService.ts:131-143 | the total deduction is the value of the unfinished stars, between 0 and the value of all stars |
| DataService.AllCompletedNoDeduction | services/dataService.ts:132-134 | with every task completed nothing is deducted |
| DataService.NoneCompletedFullDeduction | services/dataService.ts:132-134 | with no task completed every star is deducted |
| DataService.SettleTasks | services/dataService.ts:131-143 | the `forEach` pushes the statuses of the tasks and accumulates their deductions |
| DataService.Payout | services/dataService.ts:145-146 | 572 less the deduction: within [0, 572], 572 on a perfect or empty day, `572 mod totalStars` when nothing is done (PayoutBounds, PayoutAllCompleted, PayoutNoneCompleted) |
| DataService.ProcessSettlement | services/dataService.ts:121-161 | the slip's statuses and deduction are those of today's tasks; base 572 = deduction + actual amount; net income = actual amount; stars and star value from calculateStarValue; new balance = balance + net income |
| DataService.PayoutBounds | services/dataService.ts:146 | the payout lies in [0, 572], and a day without tasks pays 572 |
| DataService.PayoutAllCompleted | services/dataService.ts:132-146 | a day with every scheduled task completed pays 572 |
| DataService.PayoutNoneCompleted | services/dataService.ts:132-146 | a day with tasks and none completed pays `572 mod totalStars` |
| DataService.ExampleSettlement | services/dataService.ts:121-161 | a 3-star task done and a 1-star task not done pays 572 − 143 |
| DataService.CheckWeeklySalaryReset | services/dataService.ts:97-119 | the grant fires iff it is Monday and the last grant was not today; it adds the weekly salary to the balance and records today; every other field is kept; otherwise the user is returned unchanged |
| DataService.SalaryResetIdempotent | services/dataService.ts:105-118 | a second check on the same day grants nothing and changes nothing |
| DataAdapter.Find | services/dataAdapter.ts:110-126 | the map lookup returns the position of a log with the date, or -1 when none has it |
| DataAdapter.FindDistinct | services/dataAdapter.ts:110-126 | with unique dates the lookup of a log's own date finds that log |
| DataAdapter.FindSameDates | services/dataAdapter.ts:110-126 | the lookup depends only on the dates, position by position |
| DataAdapter.FindAppend | services/dataAdapter.ts:130-140 | looking up in a map that gained one log at the end |
| DataAdapter.Put | services/dataAdapter.ts:113-116 | `Map.set`: replaces the log of an existing date in place, or adds the date last; dates stay unique (PutFacts) |
| DataAdapter.PutFacts | services/dataAdapter.ts:113-116 | after `set` the key maps to the new log, every other key keeps its log, and the keys keep their order |
| DataAdapter.IndexLogsLastWins | services/dataAdapter.ts:110-117 | indexing the existing logs gives unique dates, and on each date the last existing log wins |
| DataAdapter.IndexLogs | services/dataAdapter.ts:110-117 | the existing logs keyed by date, unique dates, the last log of each date kept (IndexLogsLastWins) |
| DataAdapter.IndexLogsStep | services/dataAdapter.ts:113-116 | indexing one more existing log is one more `set` |
| DataAdapter.IndexExistingLogs | services/dataAdapter.ts:110-117 | the `forEach` over the existing logs builds the keyed map |
| DataAdapter.Contributing | services/dataAdapter.ts:120-121 | exactly the confirmed income records contribute, in their order |
| DataAdapter.NewLog | services/dataAdapter.ts:130-140 | a log created from a record has no task data, zero stars, and the amount as base salary and net income |
| DataAdapter.AddRecordShape | services/dataAdapter.ts:126-140 | folding in one record keeps the keys in place and unique |
| DataAdapter.AddRecord | services/dataAdapter.ts:126-140 | one record folded in: only the net income of its date's log grows, or a new log holds the amount (AddRecordAt, AddRecordSum) |
| DataAdapter.AddRecordFind | services/dataAdapter.ts:126-140 | after one record its date is a key and the other keys are the old ones |
| DataAdapter.AddRecordSum | services/dataAdapter.ts:126-140 | one record adds its amount to the total net income |
| DataAdapter.AddRecordOthers | services/dataAdapter.ts:126-140 | one record leaves the logs of other dates alone |
| DataAdapter.AddRecordAt | services/dataAdapter.ts:126-140 | one record, seen from one position: only the log of its date changes, only in net income |
| DataAdapter.AddRecordsStep | services/dataAdapter.ts:122-141 | folding in one more record of a prefix |
| DataAdapter.AddRecords | services/dataAdapter.ts:120-141 | all records folded in: unique dates, the old keys and the records' dates, the amounts added exactly once (AddRecordsShape, AddRecordsFind, AddRecordsSum, AddRecordsOn) |
| DataAdapter.AmountOnAbsent | services/dataAdapter.ts:122-141 | no record on a date means no amount on it |
| DataAdapter.AddRecordsShape | services/dataAdapter.ts:122-141 | folding in records keeps the dates unique and the known keys in place |
| DataAdapter.AddRecordsFind | services/dataAdapter.ts:122-141 | after the records the keys are the old keys and the records' dates |
| DataAdapter.AddRecordsSum | services/dataAdapter.ts:122-141 | the records add exactly their amounts to the total net income |
| DataAdapter.AddRecordsKnown | services/dataAdapter.ts:126-129 | an existing log only has its net income raised by the records' amounts on its date; `actual_amount` is untouched |
| DataAdapter.AddRecordsNew | services/dataAdapter.ts:130-140 | each log the records add is created from records and holds the total of its date |
| DataAdapter.AddRecordsOn | services/dataAdapter.ts:110-141 | per date: a log exists iff an existing log or a record falls on it; an existing log is the last one, raised by the records' amounts; otherwise a created log with that total |
| DataAdapter.FoldRecords | services/dataAdapter.ts:120-141 | the loop over the confirmed records updates or creates one log per record |
| DataAdapter.ConvertedUser | services/dataAdapter.ts:99-106 | the existing or initial user with `balance := coins` and `isMuted := isMuted`, other fields kept |
| DataAdapter.Converted | services/dataAdapter.ts:91-149 | a user only with user data; logs only with at least one coin record |
| DataAdapter.ConvertToEggGuardian | services/dataAdapter.ts:91-149 | the conversion's user and logs are those of the specification functions |
| DataAdapter.ConvertedLogs | services/dataAdapter.ts:109-145 | the loaded logs: distinct dates, newest first, income conserved, and per date the last existing log raised by the records' amounts or a new log of their total (ConvertedLogsDistinct, ConvertedLogsNewestFirst, ConvertedLogsSum, ConvertedLogOn) |
| DataAdapter.ConvertedLogsDistinct | services/dataAdapter.ts:110-145 | the converted logs have pairwise distinct dates |
| DataAdapter.ConvertedLogsNewestFirst | services/dataAdapter.ts:143-145 | the converted logs are ordered newest date first |
| DataAdapter.ConvertedLogsSum | services/dataAdapter.ts:110-145 | total net income out = total of the date-deduplicated existing logs + the contributing amounts |
| DataAdapter.ConvertedLogOn | services/dataAdapter.ts:110-145 | per date, the converted logs hold a log iff an existing log or a contributing record falls on it, with the net income of the existing log raised by the records' amounts, or a created log holding their total |
| DataAdapter.SortedMembers | services/dataAdapter.ts:143-145 | sorting keeps exactly the same logs |
| DataAdapter.GuardianRecord | services/dataAdapter.ts:186-203 | an exported log is a confirmed income record `guardian-<date>` of its net income, created and confirmed at the time of its date |
| DataAdapter.PendingOf | services/dataAdapter.ts:171-173 | exactly the pending existing records are kept |
| DataAdapter.IdsOfMembers | services/dataAdapter.ts:174-178 | an id is taken iff some existing record carries it |
| DataAdapter.CollectIds | services/dataAdapter.ts:174-178 | the loop gathers the ids of the existing records |
| DataAdapter.NewRecordsStep | services/dataAdapter.ts:182-206 | exporting one more log appends its record or nothing |
| DataAdapter.NewRecords | services/dataAdapter.ts:182-206 | exactly the `guardian-<date>` records of the logs with positive net income whose ids are not taken (NewRecordsMembers) |
| DataAdapter.ExportLogs | services/dataAdapter.ts:182-206 | the loop appends the record of each log with positive net income whose id is not taken |
| DataAdapter.NewRecordsMembers | services/dataAdapter.ts:182-206 | the exports are exactly the records of the logs with positive net income whose ids are not taken |
| DataAdapter.ConvertToEggfocus | services/dataAdapter.ts:154-216 | coins = balance, `isMuted = user.isMuted \|\| false`, version 0, and the records are the pending ones plus the new exports, newest first |
| DataAdapter.OutgoingRecords | services/dataAdapter.ts:168-213 | the pending existing records and the new exports, never an existing confirmed record, newest first (OutgoingMembers, OutgoingNewestFirst) |
| DataAdapter.OutgoingMembers | services/dataAdapter.ts:168-213 | a written record is a pending existing record or a new export; an existing confirmed record is never carried over |
| DataAdapter.OutgoingNewestFirst | services/dataAdapter.ts:208-213 | the written records are ordered by creation time, newest first |
| DataAdapter.LoadSyncedState | services/dataAdapter.ts:238-271 | with any focus data: the converted user, else the stored user, else the initial one; the converted logs, else the stored ones, else none; tasks always from the stored state, else the initial tasks; without focus data: the stored state, else the defaults |
| DataAdapter.OutgoingSingle | services/dataAdapter.ts:182-213 | a single log with positive income and nothing stored exports to its one record |
| DataAdapter.SyncRoundTripDoublesIncome | services/dataAdapter.ts:120-129 | as written, a log exported and loaded back comes back with twice its net income |
| DataAdapter.RoundTripDoubles | services/dataAdapter.ts:120-145 | the round trip, for any record-dating function that reads the export back on the log's date |
| DataAdapter.ContributingSingle | services/dataAdapter.ts:120-121 | a lone contributing record is kept |
| DataAdapter.IndexSingle | services/dataAdapter.ts:110-117 | a lone existing log indexes to itself |
| DataAdapter.FoldSingle | services/dataAdapter.ts:126-129 | folding a log's own export into it doubles its net income |
| DataAdapter.SyncRoundTripExample | services/dataAdapter.ts:120-129 | as written, a perfect day's 572 comes back as 1144 |
| DataAdapter.Imported | services/dataAdapter.ts:120-121 | the corrected filter keeps the confirmed income records the tracker did not export itself |
| DataAdapter.ImportedLogs | services/dataAdapter.ts:109-145 | the corrected conversion, skipping the tracker's own exports; a round trip through it returns the logs (ImportedRoundTrip) |
| DataAdapter.ImportedRoundTrip | services/dataAdapter.ts:91-213 | with the correction, exporting the logs and loading them back gives the deduplicated logs, newest first, whatever was stored and whatever the time zone |
| SettlementModal.GuardedAmount | components/SettlementModal.tsx:42 | the amount shown is `572 − deduction` or 0, never negative and never below `572 − deduction`, and at most 572 for a non-negative deduction |
| SettlementModal.PreviewDeduction | components/SettlementModal.tsx:21-39 | the shares of the tasks explicitly marked not done, within [0, value of all stars], equal to the settlement's deduction once all are decided (PreviewBounds, PreviewIsSettlementDeduction) |
| SettlementModal.AllDecided | components/SettlementModal.tsx:45 | every task of today has a mark; marks of other tasks do not matter (Modal.Confirm, OnlyTodaysMarksMatter) |
| SettlementModal.Modal.constructor | components/SettlementModal.tsx:14-15 | the dialog opens on today's tasks and value per star, with nothing marked |
| SettlementModal.Modal.ToggleTask | components/SettlementModal.tsx:17-19 | toggling sets exactly the mark of one task |
| SettlementModal.Modal.CalculateResults | components/SettlementModal.tsx:21-39 | the loop sums the shares of the tasks explicitly marked not done |
| SettlementModal.Modal.Confirm | components/SettlementModal.tsx:144-149 | confirming is possible iff every task of today is decided, and it hands over the marks unchanged |
| SettlementModal.PreviewBounds | components/SettlementModal.tsx:21-39 | the preview lies between 0 and the value of all of today's stars; undecided tasks cost nothing |
| SettlementModal.PreviewIsSettlementDeduction | components/SettlementModal.tsx:21-45 | once every task is decided, the preview equals the deduction the settlement makes |
| SettlementModal.GuardedIsPayout | components/SettlementModal.tsx:42-45 | once every task is decided, the amount shown is the amount the settlement pays |
| SettlementModal.OnlyTodaysMarksMatter | components/SettlementModal.tsx:23-45 | marks of other tasks affect neither the preview nor the gate |
| SettlementModal.LastToggleWins | components/SettlementModal.tsx:17-19 | after a series of toggles the last toggle of a task wins; untoggled tasks keep their marks |
| Settings.DraftOf | components/Settings.tsx:100-103 | editing opens a draft that defines every field of the task |
| Settings.MergeDraft | components/Settings.tsx:94 | `{ ...t, ...draft }`: each field the draft defines overrides the task's, others are kept |
| Settings.DeleteTask | components/Settings.tsx:75-79 | deleting never adds tasks and leaves no task with the id |
| Settings.DeleteTaskMembers | components/Settings.tsx:75-79 | exactly the tasks with another id are kept |
| Settings.DeleteTaskAppend | components/Settings.tsx:75-79 | deleting works piecewise, so the kept tasks keep their order |
| Settings.DeleteAbsent | components/Settings.tsx:75-79 | deleting an id no task has changes nothing |
| Settings.NewTask | components/Settings.tsx:84-92 | an added task has a fresh id from the time, the draft's title, and the draft's icon, stars and days or their defaults |
| Settings.EditTasks | components/Settings.tsx:94 | editing keeps the length, merges each task with the draft's id, leaves the others alone |
| Settings.EditUnchangedDraft | components/Settings.tsx:94-103 | saving a task's own untouched draft leaves the list unchanged |
| Settings.RemoveDay | components/Settings.tsx:113-114 | exactly the other days are kept, in order |
| Settings.ToggleDays | components/Settings.tsx:113-116 | flips exactly one day's membership and keeps a strictly increasing list strictly increasing; twice restores it (ToggleMembers, ToggleIncreasing, ToggleTwice) |
| Settings.ToggleDraftDay | components/Settings.tsx:110-118 | flips one day of the draft, an unset day list counting as empty; nothing without a draft (Editor.ToggleDay) |
| Settings.ToggleMembers | components/Settings.tsx:110-118 | a toggle flips exactly that day's membership |
| Settings.RemoveIncreasing | components/Settings.tsx:113-114 | removing a day keeps a strictly increasing list strictly increasing |
| Settings.ToggleIncreasing | components/Settings.tsx:110-118 | a toggle keeps a sorted, duplicate-free day list sorted and duplicate-free |
| Settings.IncreasingUnique | components/Settings.tsx:116 | two strictly increasing lists of the same days are equal |
| Settings.ToggleTwice | components/Settings.tsx:110-118 | toggling a day twice restores a sorted, duplicate-free day list |
| Settings.Editor.constructor | components/Settings.tsx:75-118 | the editor opens on the task list with no draft |
| Settings.Editor.HandleDelete | components/Settings.tsx:75-79 | a confirmed delete drops every task with the id; nothing else changes |
| Settings.Editor.HandleSave | components/Settings.tsx:81-98 | without a draft or title nothing changes; otherwise the new task is appended or the matching tasks are merged, and the draft closes |
| Settings.Editor.StartEdit | components/Settings.tsx:100-103 | the draft is the task itself and the editor is not adding |
| Settings.Editor.StartAdd | components/Settings.tsx:105-108 | the draft is the default one and the editor is adding |
| Settings.Editor.ToggleDay | components/Settings.tsx:110-118 | flips one day of the draft, sorted; nothing without a draft |
| Settings.Editor.SetTitle | components/Settings.tsx:242 | the draft's title is set and nothing else changes |
| Settings.Editor.SetIcon | components/Settings.tsx:256 | the draft's icon is set and nothing else changes |
| Settings.Editor.SetStars | components/Settings.tsx:281 | the draft's stars are set and nothing else changes |
| Settings.NewDraftDefaults | components/Settings.tsx:105-108 | a task added from a fresh draft gets the icon ✨, one star and Monday to Friday |
| Cookie.EntryMeaning | api/src/utils/cookie.ts:24-28 | a piece names a cookie iff its trimmed text has an `=` after a non-empty name, and it then reads `name=value` with `=` kept in the value |
| Cookie.Entry | api/src/utils/cookie.ts:25-27 | a piece names a cookie iff its trimmed text has `=` after a non-empty name, the value keeping later `=` (EntryMeaning) |
| Cookie.EntryOfTrimmed | api/src/utils/cookie.ts:24-28 | a trimmed `name=value` piece gives exactly that entry |
| Cookie.EntryOf | api/src/utils/cookie.ts:24-28 | leading spaces before a piece do not change its entry |
| Cookie.EntryOfPair | api/src/utils/cookie.ts:24-28 | an unpadded `name=value` piece gives exactly that entry |
| Cookie.CookiesOfSnoc | api/src/utils/cookie.ts:24-29 | one more piece adds its entry over an earlier one of the same name |
| Cookie.ParseCookies | api/src/utils/cookie.ts:17-32 | nothing for a missing or empty header; otherwise a cookie for each named piece, the last one winning; a written cookie reads back to its pair (CookiesLastWins, ReadBack) |
| Cookie.ParseCookieHeader | api/src/utils/cookie.ts:17-32 | the loop reads the header piece by piece; a missing or empty header has no cookies |
| Cookie.CookiesLastWins | api/src/utils/cookie.ts:24-29 | a cookie is present iff some piece names it, with the value of the last such piece |
| Cookie.LastValueSkip | api/src/utils/cookie.ts:24-29 | pieces that do not name a cookie do not change its value |
| Cookie.AttributeTextAppend | api/src/utils/cookie.ts:51-75 | each attribute is written after `; ` |
| Cookie.Attach | api/src/utils/cookie.ts:51-75 | writing an attribute when its condition holds extends the text by `; attribute` |
| Cookie.Attributes | api/src/utils/cookie.ts:42-77 | the attributes in the order Path, Domain, Max-Age, HttpOnly, Secure, SameSite, with the defaults, Max-Age iff defined and Domain iff non-empty (AttributesInOrder, OptionalAttributes, DefaultCookie) |
| Cookie.SetCookie | api/src/utils/cookie.ts:37-78 | `name=value` and the attributes, each after `; `; parsing it back recovers the pair (DefaultCookieText, ReadBack) |
| Cookie.SerializeCookie | api/src/utils/cookie.ts:37-78 | the written value is `name=value` followed by the attributes of the options |
| Cookie.DeleteCookieAttributes | api/src/utils/cookie.ts:83-91 | deleting writes the path if any, `Max-Age=0`, HttpOnly, Secure and SameSite=Lax |
| Cookie.DeleteOptions | api/src/utils/cookie.ts:84-90 | the deleting options: HttpOnly, the secure flag, SameSite=Lax, Max-Age 0 and the path (DeleteCookieAttributes) |
| Cookie.DeleteCookie | api/src/utils/cookie.ts:83-91 | an empty value that expires at once, the path defaulting to `/` (DeleteCookieText) |
| Cookie.DeleteCookieText | api/src/utils/cookie.ts:83-91 | by default the deleting cookie reads `name=; Path=/; Max-Age=0; HttpOnly; Secure; SameSite=Lax` |
| Cookie.DefaultCookie | api/src/utils/cookie.ts:42-49 | with no options the attributes are `Path=/`, `HttpOnly`, `Secure`, `SameSite=Lax` |
| Cookie.DefaultCookieText | api/src/utils/cookie.ts:37-78 | with no options the value is `name=value; Path=/; HttpOnly; Secure; SameSite=Lax` |
| Cookie.SessionCookie | api/src/utils/cookie.ts:107-113 | session cookies carry `Max-Age=86400` |
| Cookie.StateCookie | api/src/utils/cookie.ts:118-124 | state cookies carry `Max-Age=300` |
| Cookie.OptionalAttributes | api/src/utils/cookie.ts:51-63 | Max-Age is written iff it is defined, 0 included, and Domain iff it is non-empty |
| Cookie.Grow | api/src/utils/cookie.ts:51-75 | appending an attribute of a later rank keeps the order |
| Cookie.PathRank | api/src/utils/cookie.ts:51-53 | a Path attribute has the first rank |
| Cookie.DomainRank | api/src/utils/cookie.ts:55-57 | a Domain attribute has the second rank |
| Cookie.MaxAgeRank | api/src/utils/cookie.ts:59-61 | a Max-Age attribute has the third rank |
| Cookie.FlagRanks | api/src/utils/cookie.ts:63-71 | HttpOnly and Secure have the fourth and fifth ranks |
| Cookie.OptionalRanks | api/src/utils/cookie.ts:51-61 | Path, Domain and Max-Age come in order, each at most once |
| Cookie.SameSiteRank | api/src/utils/cookie.ts:73-75 | SameSite has the last rank |
| Cookie.AttributesInOrder | api/src/utils/cookie.ts:51-77 | the attributes appear in the order Path, Domain, Max-Age, HttpOnly, Secure, SameSite, each at most once |
| Cookie.Spaced | api/src/utils/cookie.ts:51-75 | a written cookie splits into the first pair and each attribute after a space |
| Cookie.SplitSerialized | api/src/utils/cookie.ts:24-75 | splitting a written cookie on `;` gives back its pieces |
| Cookie.NoSemicolonInNumber | api/src/utils/cookie.ts:59-61 | a rendered Max-Age holds no `;` |
| Cookie.TrimKeyed | api/src/utils/cookie.ts:25 | trimming ` key=text` removes the space and keeps `key=` |
| Cookie.KeyedPrefix | api/src/utils/cookie.ts:25-26 | a prefix of `key=text` longer than the key starts with `key=` |
| Cookie.KeyedEntry | api/src/utils/cookie.ts:24-28 | an attribute `key=text` read back names `key` |
| Cookie.FlagEntry | api/src/utils/cookie.ts:26-27 | a flag attribute without `=` names nothing |
| Cookie.RenderAll | api/src/utils/cookie.ts:51-75 | one written attribute per listed attribute |
| Cookie.RenderAllAppend | api/src/utils/cookie.ts:51-75 | rendering distributes over concatenation |
| Cookie.KeyedRendered | api/src/utils/cookie.ts:51-75 | a keyed attribute is written `key=text` |
| Cookie.PathRendered | api/src/utils/cookie.ts:51-53 | the Path attribute as a keyed pair |
| Cookie.DomainRendered | api/src/utils/cookie.ts:55-57 | the Domain attribute as a keyed pair |
| Cookie.MaxAgeRendered | api/src/utils/cookie.ts:59-61 | the Max-Age attribute as a keyed pair |
| Cookie.FlagsRendered | api/src/utils/cookie.ts:63-71 | HttpOnly and Secure as bare flags |
| Cookie.SameSiteRendered | api/src/utils/cookie.ts:73-75 | the SameSite attribute as a keyed pair |
| Cookie.AttributesRendered | api/src/utils/cookie.ts:51-75 | the written attributes are the keyed pairs and flags of the options |
| Cookie.KeyShapes | api/src/utils/cookie.ts:51-75 | each attribute key is non-empty, has no `=` and is an attribute name |
| Cookie.FlagShapes | api/src/utils/cookie.ts:63-71 | the flags are trimmed and have no `=` |
| Cookie.AttrListShaped | api/src/utils/cookie.ts:51-75 | every attribute of every option set has that shape |
| Cookie.AttrEntry | api/src/utils/cookie.ts:24-28 | an attribute piece names no cookie other than an attribute name |
| Cookie.SpacedRendered | api/src/utils/cookie.ts:51-75 | the attribute pieces are the rendered attributes after a space |
| Cookie.SkipAttributes | api/src/utils/cookie.ts:24-28 | the attribute pieces never name anything but an attribute |
| Cookie.PlainAttributes | api/src/utils/cookie.ts:51-75 | no attribute holds a `;` unless the path or domain does |
| Cookie.PiecesOf | api/src/utils/cookie.ts:24-75 | the pieces of a written cookie without `;` inside |
| Cookie.OnePiece | api/src/utils/cookie.ts:17-32 | a header of one piece naming a cookie parses to that cookie alone |
| Cookie.FirstPieceDecides | api/src/utils/cookie.ts:24-29 | after the first piece, pieces not naming a key leave it as the first piece has it |
| Cookie.ParsedPieces | api/src/utils/cookie.ts:17-32 | a written cookie is read as the pieces it splits into |
| Cookie.ReadBackKey | api/src/utils/cookie.ts:17-78 | a read-back written cookie names a non-attribute key iff it is the name written, with the value written |
| Cookie.ReadBack | api/src/utils/cookie.ts:17-78 | parsing a written cookie recovers `name ↦ value`; the flags are dropped and every other entry is an attribute name |
| Profile.FormatProfileResponse | api/src/routes/profile.ts:7-20 | the flags are true iff stored as 1; balance, weekly salary and last grant date are copied |
| Profile.ViewHidesSecrets | api/src/routes/profile.ts:7-20 | the view never depends on the password hash or the timestamps |
| Profile.GetProfile | api/src/routes/profile.ts:25-59 | 404 `NOT_FOUND` iff the profile is absent, otherwise its view |
| Profile.ColumnsValuesAppend | api/src/routes/profile.ts:86-108 | columns and values distribute over concatenation |
| Profile.PushBalance | api/src/routes/profile.ts:89-92 | the balance clause and value are pushed iff the balance is a number |
| Profile.PushConfig | api/src/routes/profile.ts:94-103 | the salary clauses are pushed only under a truthy `guardian_config`; the date whenever defined, `null` included |
| Profile.PushMute | api/src/routes/profile.ts:105-108 | the mute clause is pushed iff `isMuted` is boolean, stored as 1 or 0 |
| Profile.SectionsJoin | api/src/routes/profile.ts:86-108 | the assignments are the three sections one after another |
| Profile.BuildUpdate | api/src/routes/profile.ts:64-130 | the builder returns 400 for an invalid body or one with nothing to set, otherwise the clauses, then `updated_at`, and the values, then the time and user id |
| Profile.PlanUpdate | api/src/routes/profile.ts:74-130 | 400 for a non-object body or nothing to set; otherwise each column iff its field type-checks, in fixed order, `updated_at` last, values aligned plus the time and user id (UpdateColumns, UpdateOrder, UpdateValuesAligned, UpdateRejections) |
| Profile.ChosenMembers | api/src/routes/profile.ts:86-124 | each chosen column is present and `updated_at` is last |
| Profile.GrowColumns | api/src/routes/profile.ts:86-124 | appending a later column keeps the order |
| Profile.ChosenOrder | api/src/routes/profile.ts:86-124 | chosen columns come in rank order, each at most once |
| Profile.AssignmentColumns | api/src/routes/profile.ts:86-108 | the columns of a body, field by field |
| Profile.ColumnsOfParts | api/src/routes/profile.ts:86-108 | the columns of the three sections |
| Profile.UpdateColumns | api/src/routes/profile.ts:86-124 | balance iff a number; weekly salary iff a number under a truthy config; date iff defined there; mute iff boolean; `updated_at` last |
| Profile.UpdateOrder | api/src/routes/profile.ts:86-124 | clauses in the order balance, weekly salary, date, mute, `updated_at`, each at most once |
| Profile.UpdateValuesAligned | api/src/routes/profile.ts:86-130 | values line up with the clauses, then the time and the user id: one value more than clauses |
| Profile.UpdateRejections | api/src/routes/profile.ts:74-120 | a non-object body, or one that sets nothing, gets 400 `BAD_REQUEST` and no update |
| Profile.PasswordVerdict | api/src/routes/profile.ts:192-253 | 400 iff the hash is missing or not a string; then 404 for an unknown user; then not set; otherwise valid iff the hashes are equal |
| Profile.VerifyParentPassword | api/src/routes/profile.ts:202-248 | 400 without a string hash, then 404, then not set, then valid iff the hashes are equal (PasswordVerdict) |
| Profile.UpdateParentPassword | api/src/routes/profile.ts:157-182 | 400 without a string hash and no change; otherwise the user's hash stored with the flag set and nothing else changed; verifying it then succeeds (PasswordUpdate, SetThenVerify) |
| Profile.PasswordUpdate | api/src/routes/profile.ts:147-187 | a string hash is stored with the flag set and nothing else changes; a bad body gets 400 and changes nothing |
| Profile.SetThenVerify | api/src/routes/profile.ts:147-253 | after storing a hash, verifying it succeeds and any other hash fails |
| Auth.SelectToken | api/src/middleware/auth.ts:11-24 | a selected token is never empty |
| Auth.CookieToken | api/src/middleware/auth.ts:11-12 | the `auth_token` cookie, `""` without one; a sent `auth_token` cookie is the token selected (CookieTakesPrecedence, SentCookieSelected) |
| Auth.Verify | api/src/middleware/auth.ts:9-52 | no user without a token, whatever the service says; a user iff the service validates one with an email for the token, and then that email (NoTokenNoUser, VerifiedUser) |
| Auth.UserOf | api/src/middleware/auth.ts:43-47 | a user iff the reply is valid and names a user with an email, and the user is that email |
| Auth.VerifyToken | api/src/middleware/auth.ts:9-52 | the step-by-step verification consults the service with the selected token, or not at all, and returns the verdict of the specification |
| Auth.CookieTakesPrecedence | api/src/middleware/auth.ts:11-15 | a non-empty cookie token wins over any Authorization header |
| Auth.BearerFallback | api/src/middleware/auth.ts:15-20 | without a cookie token, a token exists iff the header is `Bearer ` and more, and it is the rest |
| Auth.NoTokenNoUser | api/src/middleware/auth.ts:22-24 | with no token there is no user, whatever the service would reply |
| Auth.VerifiedUser | api/src/middleware/auth.ts:9-52 | a user is authenticated iff the service validates a user with an email for the selected token |
| Auth.SingleCookie | api/src/utils/cookie.ts:17-32 | a header with one well-formed cookie parses to that cookie alone |
| Auth.SentCookieSelected | api/src/middleware/auth.ts:11-12 | a request whose cookie header is the `auth_token` cookie presents that token |
| Auth.RequireAuth | api/src/middleware/auth.ts:58-80 | 401 `UNAUTHORIZED` iff no user, otherwise the handler's reply for that user |
| Auth.GatePasses | api/src/middleware/auth.ts:58-80 | a request reaches the handler iff its token names a user, and the handler gets that user |
| App.GuardianApp.constructor | App.tsx:21-34 | loading applies the weekly grant to the stored user and keeps tasks and slips |
| App.GuardianApp.ConfirmSettlement | App.tsx:43-57 | settling when today is not settled appends one slip dated today with the payout, credits it, never lowers the balance, keeps the tasks, and makes today settled |
| Strings.Split | api/src/utils/cookie.ts:24-25 | splitting gives at least one part and no part holds the separator |
| Strings.JoinSplit | api/src/utils/cookie.ts:26-27 | joining the parts with the separator gives back the text |
| Strings.TrimSpaces | api/src/utils/cookie.ts:25 | trimming removes leading spaces |
| Strings.PadStart | services/dataService.ts:74-75 | padding reaches the width and keeps the text at the end |
| Strings.ParseIntToString | services/dataService.ts:68 | a rendered integer reads back as itself |
| Strings.IntToStringInjective | services/dataService.ts:68 | distinct integers render differently |
| Sorting.SortBy | services/dataAdapter.ts:143-145 | the sort is a permutation of its input |
| Sorting.SortBySorted | services/dataAdapter.ts:143-145 | the sort orders by key |
| Sorting.SortBySum | services/dataAdapter.ts:143-145 | sorting keeps the sum of any measure |
| Sorting.SortByDistinct | services/dataAdapter.ts:143-145 | sorting keeps pairwise distinct fields distinct |

## Left out

- Rendering, effects and browser plumbing are not modelled: JSX, `InstallPrompt`, `LoginPage`, `StarRating`, the slip list and the markup of the dashboard and app. Only the dashboard's "settled today" test is kept, as the precondition of `App.GuardianApp.ConfirmSettlement`.
- The parent-password dialog (`components/ParentAuth.tsx:45`) tests the Promise returned by the asynchronous `verifyPassword` as if it were a boolean, so any password passes. That is UI code, so it is not modelled.
- Local storage reads and writes are outside the model: `loadEggfocus*`, `saveEggfocus*`, `syncData`, the storage reads of `loadSyncedState`, and the read inside `convertToEggfocus`. The stored values are parameters.
- Network clients, routing and the database are not modelled: `apiService`, `authService`, the auth routes with the sign-on fetch and the first-login insert, the router, CORS and response helpers. The sign-on reply is a function, and the D1 tables are a map or a looked-up row. SQL text is not modelled.
- Clocks and time zones are parameters: `new Date()`, `getDay()`, `Date.now()`, and the local date and time stamp of a date string. `new Date("YYYY-MM-DD")` parses as UTC while `getDay` is local (services/dataService.ts:84), so the weekday can be off by one in some time zones. The model takes the weekday as given, so that discrepancy is not captured.
- JavaScript numbers are modelled as unbounded integers. Floating point, NaN, `Infinity` and fractional stars or amounts are not modelled. Only `simpleHash` models the 32-bit wrap of `<<` and `&`. JSON numbers in request bodies are integers.
- `toString(36)` of a negative hash is rendered as `-` followed by the base-36 digits of its magnitude, as JavaScript does for integers; other radices and fractional numbers are not modelled.
- `parseCookies` stores into a plain object, so a cookie named like an `Object.prototype` member (`__proto__`) behaves differently in JavaScript. The model uses a map and does not capture that.
- DataAdapter.ConvertToEggGuardian: `existingLog.net_income +=` mutates the log object held by the existing state, so the caller's stored log also changes. The model returns new values and does not capture this aliasing.
- JavaScript's default `.sort()` on the day list compares strings. For the days 0 to 6 this is the same as numeric order, which the model uses.
- `request.json()` failures and thrown database errors, which reach the generic error handler, are not modelled. The body is an already parsed `Json` value.
- There is no internal concurrency. Races between sessions writing the same profile are not modelled.

## Findings

| source | as written | input that shows it | evidently intended | confidence | as-written member | corrected member |
|---|---|---|---|---|---|---|
| services/dataAdapter.ts:120-129 | every confirmed income record is folded into the log of its date, including the `guardian-<date>` records that the export at services/dataAdapter.ts:182-206 creates from the tracker's own logs, so loading the exported records back adds each log's income to itself again | one log dated 2026-01-05 with net income 572, exported with no stored records and loaded back: its net income becomes 1144 | the tracker's own exports are skipped when its logs are rebuilt, so a round trip returns the logs unchanged | not executed | DataAdapter.SyncRoundTripDoublesIncome, DataAdapter.SyncRoundTripExample | DataAdapter.Imported, DataAdapter.ImportedRoundTrip |

`DataAdapter.LoadSyncedState` and `DataAdapter.ConvertToEggGuardian` model the code as written. `DataAdapter.ImportedLogs`
is the corrected conversion, and `DataAdapter.ImportedRoundTrip` proves the round trip for it.
