# HealthLog, modelled in Dafny

HealthLog is a personal health tracker. It has two parts.

- **A React Native mobile app.** Its screens covered here are: statistics over daily metrics and exercise plans; the paginated exercise catalogue; exercise plans with their selected exercises; reminders; registration; login.
- **A Django REST API.** It keeps users, experts, profiles, daily metrics, plans and connections. A permission layer decides who may read or change what.

This project models the core of both parts.

- **Client screens.** Each screen is a `class` whose fields are the screen's state cells. Each handler is a method with a `modifies` clause. The logic behind a handler is a function that is specified and proved on its own: filters, totals, selection maps, validation chains and form payloads.
- **Server.** The record shapes, defaults and uniqueness constraints of the models are datatypes and predicates. The permission classes are predicates. Each request handler is a function over the tables, and each function has its properties proved. The `Views.Backend` class holds the tables, and its methods are the handlers. They keep the table constraints as the invariant `Valid()`.

The modules, by source file:

| module | file | source |
|---|---|---|
| `Common` | common.dfy | helpers shared by the modules: JavaScript `trim`, `Array.prototype.filter`, subsequences |
| `Clock` | clock.dfy | instants as milliseconds since the epoch, and the day, weekday, month and year of an instant |
| `Statistics` | statistics.dfy | healthmobileapp/screens/StatisticalData/StatisticalData.js |
| `ExerciseList` | exercise_list.dfy | healthmobileapp/components/Exercise.js |
| `PlanForm` | plan_form.dfy | healthmobileapp/components/ExercisePlan.js |
| `ReminderForm` | reminder.dfy | healthmobileapp/screens/Reminder/Reminder.js |
| `Registration` | register.dfy | healthmobileapp/screens/User/Register.js |
| `Login` | login.dfy | healthmobileapp/screens/User/Login.js |
| `Models` | models.dfy | healthapis/health/models.py |
| `Perms` | perms.dfy | healthapis/health/perms.py |
| `Views` | views.dfy | healthapis/health/views.py |

External inputs become parameters of the methods:

- what the server answers, and whether a request succeeds;
- the current instant;
- the result of the image picker and of the date conversion;
- the client id and secret.

For each defect listed under "## Findings", the model keeps the code as written in its own members. The rest of the model uses the corrected definition: the statistics filter selects by the intended week window, and the `Backend` handlers use the intended PATCH guard and zero-filled daily row.

## Model

| member | source | states |
|---|---|---|
| Common.TrimStart | healthmobileapp/components/Exercise.js:63 | the result is a suffix of the input that does not start with white space, and everything dropped is white space |
| Common.TrimEnd | healthmobileapp/components/Exercise.js:63 | the result is a prefix of the input that does not end with white space, and everything dropped is white space |
| Common.TrimEmptyIffBlank | healthmobileapp/components/ExercisePlan.js:80-81 | `!s.trim()` holds exactly when every character of `s` is white space |
| Common.Filter | healthmobileapp/components/Exercise.js:93 | `Array.prototype.filter`: every kept element passes the test and comes from the input, and every input element that passes is kept |
| Common.FilterIsSubsequence | healthmobileapp/components/Exercise.js:93 | the filter keeps the input order |
| Common.SubsequenceOfTail | healthmobileapp/components/Exercise.js:93 | a subsequence of the tail is a subsequence of the whole |
| Common.SubsequenceDropHead | healthmobileapp/components/Exercise.js:93 | dropping the head of a subsequence leaves a subsequence |
| Common.CountIf | healthmobileapp/screens/StatisticalData/StatisticalData.js:205 | the number of elements that pass is at most the length |
| Common.FilterLength | healthmobileapp/screens/StatisticalData/StatisticalData.js:205 | the filter's length is the number of elements that pass |
| Common.FilterCongruent | healthmobileapp/screens/StatisticalData/StatisticalData.js:70-76 | two tests that agree on every element filter alike |
| Clock.TimeOfDay | healthmobileapp/screens/StatisticalData/StatisticalData.js:50-56 | an instant is its day times the day length plus a time of day within one day |
| Clock.Weekday | healthmobileapp/screens/StatisticalData/StatisticalData.js:53 | `getDay()` lies in 0..6 |
| Clock.AddDays | healthmobileapp/screens/StatisticalData/StatisticalData.js:52-56 | `setDate(getDate() + n)` moves the day by n and keeps the time of day |
| Clock.ShiftByDays | healthmobileapp/screens/StatisticalData/StatisticalData.js:52-56 | adding n whole days adds n to the day number and keeps the remainder |
| Clock.StartOfDay | healthmobileapp/screens/StatisticalData/StatisticalData.js:51-56 | midnight opening a day lies on that day with time of day 0 |
| Clock.CivilFromDays | healthmobileapp/screens/StatisticalData/StatisticalData.js:73-74 | the date of a day number is a real Gregorian date (month 1..12, day within the month, February 29 only in leap years), and counting its days back gives the day number |
| Clock.DateOfYear | healthmobileapp/screens/StatisticalData/StatisticalData.js:73-74 | the date built from an era, century, 4-year cycle, year and day of the year is real and counts back to that day |
| Clock.CivilOfDayNumber | healthmobileapp/screens/StatisticalData/StatisticalData.js:73-74 | the day number of a real date leads back to that date, so two real dates never share a day number |
| Clock.DateParts | healthmobileapp/screens/StatisticalData/StatisticalData.js:73-74 | every real date is the date built from its era, century, cycle, year and day of the year |
| Clock.PartsAgree | healthmobileapp/screens/StatisticalData/StatisticalData.js:73-74 | two splits of the same day are the same split |
| Clock.CalendarSamples | healthmobileapp/screens/StatisticalData/StatisticalData.js:73-74 | 1970-01-01 is day 0, 1969-12-31 day -1, 2000-02-29 day 11016 and 2024-01-01 day 19723 |
| Clock.MonthIndexOf | healthmobileapp/screens/StatisticalData/StatisticalData.js:73 | `getMonth()` lies in 0..11 |
| Clock.MonthAndYearOf | healthmobileapp/screens/StatisticalData/StatisticalData.js:73-74 | `getMonth()` and `getFullYear()` are the month and year of the one real date whose day number is the instant's day |
| Statistics.WeekRangeAsWritten | healthmobileapp/screens/StatisticalData/StatisticalData.js:49-58 | as written, the window starts on day `today - weekday + 1 + 7*offset` and ends six days later, both at the current time of day |
| Statistics.SundayMissedAsWritten | healthmobileapp/screens/StatisticalData/StatisticalData.js:53 | as written, on a Sunday the current window starts the next day and does not hold the current instant |
| Statistics.MondayMidnightMissedAsWritten | healthmobileapp/screens/StatisticalData/StatisticalData.js:51-56 | as written, the window starts on a Monday at the current time of day, so midnight of that Monday is outside it |
| Statistics.DaysSinceMonday | healthmobileapp/screens/StatisticalData/StatisticalData.js:53 | the days back to the week's Monday lie in 0..6 and lead back to a weekday 1 |
| Statistics.WeekRange | healthmobileapp/screens/StatisticalData/StatisticalData.js:49-58 | the intended window starts at midnight, on the Monday `offset` weeks after the current week's, and spans seven whole days |
| Statistics.WeekStartsOnMonday | healthmobileapp/screens/StatisticalData/StatisticalData.js:53 | every window starts on a Monday, and the current window holds the current instant, on a Sunday too |
| Statistics.WeekHoldsWholeDays | healthmobileapp/screens/StatisticalData/StatisticalData.js:62-67 | an instant is in a window exactly when its day is one of the window's seven days |
| Statistics.WeekShift | healthmobileapp/screens/StatisticalData/StatisticalData.js:138-158 | the week arrows move the window by exactly seven days either way |
| Statistics.WeeksAreDisjoint | healthmobileapp/screens/StatisticalData/StatisticalData.js:62-67 | an instant lies in the window of at most one week offset |
| Statistics.FilterByTime | healthmobileapp/screens/StatisticalData/StatisticalData.js:61-77 | `filterByTime` returns, in order, exactly the items whose instant is selected by the week window or by the month and year, as many as pass |
| Statistics.MonthModeIgnoresWeek | healthmobileapp/screens/StatisticalData/StatisticalData.js:70-76 | in month mode the week offset does not change the result |
| Statistics.Reduce | healthmobileapp/screens/StatisticalData/StatisticalData.js:83-101 | the `reduce` from an accumulator is the accumulator plus the sum, a missing value counting as 0 |
| Statistics.SumAppend | healthmobileapp/screens/StatisticalData/StatisticalData.js:83-101 | the total of two lists joined is the sum of their totals |
| Statistics.SumOfMissing | healthmobileapp/screens/StatisticalData/StatisticalData.js:98-101 | items without the field total 0 |
| Statistics.SumBounds | healthmobileapp/screens/StatisticalData/StatisticalData.js:83-101 | with non-negative values each item is at most the total |
| Statistics.LatestBmi | healthmobileapp/screens/StatisticalData/StatisticalData.js:103-105 | "--" is shown exactly when there is no profile |
| Statistics.LatestBmiIsLast | healthmobileapp/screens/StatisticalData/StatisticalData.js:103-105 | the BMI shown is the last profile's |
| Statistics.ChartMax | healthmobileapp/screens/StatisticalData/StatisticalData.js:226 | `Math.max(...data, 1)` is at least 1, at least every value, and is 1 or one of the values |
| Statistics.PrevMonth | healthmobileapp/screens/StatisticalData/StatisticalData.js:141 | `(month + 11) % 12` is the previous month, wrapping January to December |
| Statistics.NextMonth | healthmobileapp/screens/StatisticalData/StatisticalData.js:157 | `(month + 1) % 12` is the next month, wrapping December to January |
| Statistics.ArrowsAreInverse | healthmobileapp/screens/StatisticalData/StatisticalData.js:138-158 | the two month arrows undo each other |
| Statistics.NextMonthsWrap | healthmobileapp/screens/StatisticalData/StatisticalData.js:153-158 | n presses of the right arrow give month `(m + n) % 12` |
| Statistics.ModTwelveStep | healthmobileapp/screens/StatisticalData/StatisticalData.js:157 | adding one modulo 12 wraps 11 to 0 and increments otherwise |
| Statistics.Summarize | healthmobileapp/screens/StatisticalData/StatisticalData.js:79-107 | each total is the sum over the filtered items, the session count is the number of filtered plans, the chart maximum is the largest of the three totals and 1, the BMI card shows the last profile, and the window is the intended week window |
| Statistics.StatisticsScreen.constructor | healthmobileapp/screens/StatisticalData/StatisticalData.js:12-16 | the screen starts on the week tab, this week, this month and this year |
| Statistics.StatisticsScreen.SelectFilter | healthmobileapp/screens/StatisticalData/StatisticalData.js:121 | a tab press sets the filter |
| Statistics.StatisticsScreen.Previous | healthmobileapp/screens/StatisticalData/StatisticalData.js:138-142 | the left arrow moves back one week in week mode and one month in month mode, and changes nothing else |
| Statistics.StatisticsScreen.Next | healthmobileapp/screens/StatisticalData/StatisticalData.js:153-158 | the right arrow moves forward one week in week mode and one month in month mode, and changes nothing else |
| Statistics.StatisticsScreen.View | healthmobileapp/screens/StatisticalData/StatisticalData.js:61-107 | what the screen shows sums the items the current tab, week offset, month and year select, with the last profile's BMI and the current week window |
| ExerciseList.MergePage | healthmobileapp/components/Exercise.js:42-43 | page 1 replaces the list; a later page keeps the list in front and appends its results |
| ExerciseList.AfterPages | healthmobileapp/components/Exercise.js:34-51 | after loading pages in order every result of every page is shown |
| ExerciseList.ConcatSnoc | healthmobileapp/components/Exercise.js:42-43 | joining one more page appends its results |
| ExerciseList.AfterPagesIsConcat | healthmobileapp/components/Exercise.js:34-51 | loading pages 1, 2, … in order shows every result of every page, page 1 first |
| ExerciseList.WithoutId | healthmobileapp/components/Exercise.js:93 | the deleted id is gone, every other exercise stays, in order, and duplicates of other ids are kept: the length is the number of exercises with another id |
| ExerciseList.WithoutAbsentId | healthmobileapp/components/Exercise.js:93 | deleting an id that is not listed changes nothing |
| ExerciseList.DeleteIdempotent | healthmobileapp/components/Exercise.js:93 | deleting twice is deleting once |
| ExerciseList.ReplaceById | healthmobileapp/components/Exercise.js:126-130 | the list keeps its length; entries with the id become the update, the others are kept |
| ExerciseList.ReplaceKeepsIds | healthmobileapp/components/Exercise.js:126-130 | replacing with the server's echo keeps every id where it was |
| ExerciseList.ReplaceAbsentId | healthmobileapp/components/Exercise.js:126-130 | replacing an id nobody has changes nothing |
| ExerciseList.ExerciseScreen.constructor | healthmobileapp/components/Exercise.js:17-32 | empty list, page 1, not loading, both modals closed and empty |
| ExerciseList.ExerciseScreen.StartLoad | healthmobileapp/components/Exercise.js:57-59 | the effect on the page requests page p and sets loading when p > 0; page 0 requests nothing |
| ExerciseList.ExerciseScreen.FinishLoad | healthmobileapp/components/Exercise.js:39-50 | page 1 replaces the list, later pages append, the last page sets the page to 0, a failure keeps the list, and loading ends |
| ExerciseList.ExerciseScreen.LoadMore | healthmobileapp/components/Exercise.js:53-55 | the page advances only while it is not 0 (the last page not yet reached) and nothing is loading |
| ExerciseList.ExerciseScreen.OpenAddModal | healthmobileapp/components/Exercise.js:17-32 | the add modal opens |
| ExerciseList.ExerciseScreen.TypeNew | healthmobileapp/components/Exercise.js:17-32 | typing sets the new name and description |
| ExerciseList.ExerciseScreen.AddExercise | healthmobileapp/components/Exercise.js:62-85 | a blank name sends nothing; otherwise the POST carries the typed values, the created exercise is prepended and the modal is reset |
| ExerciseList.ExerciseScreen.DeleteExercise | healthmobileapp/components/Exercise.js:88-98 | the DELETE names the id; after success the list is the list without that id |
| ExerciseList.ExerciseScreen.OpenEditModal | healthmobileapp/components/Exercise.js:101-106 | the edit modal opens on that exercise with its name and description |
| ExerciseList.ExerciseScreen.TypeEdit | healthmobileapp/components/Exercise.js:101-106 | typing sets the edited name and description |
| ExerciseList.ExerciseScreen.UpdateExercise | healthmobileapp/components/Exercise.js:108-139 | a blank name or no selection sends nothing; otherwise the PATCH names the selected id, the answer replaces that id in the list and the modal closes |
| PlanForm.Toggle | healthmobileapp/components/ExercisePlan.js:54-66 | the id's membership flips, a newly added id has two empty inputs, and every other key is untouched |
| PlanForm.ToggleTwiceAbsent | healthmobileapp/components/ExercisePlan.js:54-66 | ticking an unticked exercise twice restores the selection |
| PlanForm.ToggleTwicePresent | healthmobileapp/components/ExercisePlan.js:54-66 | unticking and reticking an exercise empties its inputs |
| PlanForm.UpdateField | healthmobileapp/components/ExercisePlan.js:68-76 | the id gets the written field, keeps its other field (missing if it was not selected), and the other keys are untouched |
| PlanForm.UpdateLastWins | healthmobileapp/components/ExercisePlan.js:68-76 | writing a field twice is writing the last value |
| PlanForm.ToggleThenFill | healthmobileapp/components/ExercisePlan.js:54-76 | ticking an exercise and filling both inputs makes it complete |
| PlanForm.ValidationError | healthmobileapp/components/ExercisePlan.js:80-91 | no error exactly when the name and date are not blank, something is selected and every selected exercise is complete; a blank name is reported first, then a blank date |
| PlanForm.AllComplete | healthmobileapp/components/ExercisePlan.js:86-91 | the `for...in` check passes exactly when every selected exercise has both inputs |
| PlanForm.NumberOf | healthmobileapp/components/ExercisePlan.js:110-112 | `Number(undefined)` is NaN, a blank input is 0, a string of digits is its decimal value, and no value is negative |
| PlanForm.DigitsTrimToThemselves | healthmobileapp/components/ExercisePlan.js:110-112 | trimming a string of digits changes nothing |
| PlanForm.PayloadFor | healthmobileapp/components/ExercisePlan.js:106-116 | the payload names the plan and the exercise and carries `Number` of the exercise's two inputs |
| PlanForm.Payloads | healthmobileapp/components/ExercisePlan.js:106-116 | one payload per visited key, in order |
| PlanForm.LeastExists | healthmobileapp/components/ExercisePlan.js:106 | a non-empty set of ids has a least element |
| PlanForm.Least | healthmobileapp/components/ExercisePlan.js:106 | the id picked is a member and at most every member |
| PlanForm.Ascending | healthmobileapp/components/ExercisePlan.js:106 | `for...in` visits each selected id, and only those |
| PlanForm.AscendingIsSorted | healthmobileapp/components/ExercisePlan.js:106 | the visiting order is strictly ascending, so no id is visited twice |
| PlanForm.SentKeys | healthmobileapp/components/ExercisePlan.js:106-116 | the keys whose request is sent are a prefix of the visiting order |
| PlanForm.SentKeysAll | healthmobileapp/components/ExercisePlan.js:106-116 | with no rejection every key is sent |
| PlanForm.SentKeysUpTo | healthmobileapp/components/ExercisePlan.js:106-116 | the first rejected request is the last one sent |
| PlanForm.PayloadsSnoc | healthmobileapp/components/ExercisePlan.js:106-116 | one more key adds one more payload at the end |
| PlanForm.SendLinks | healthmobileapp/components/ExercisePlan.js:106-116 | the loop sends the payloads of the sent keys, and it fails exactly when some key is rejected |
| PlanForm.PayloadsStep | healthmobileapp/components/ExercisePlan.js:106-116 | the payloads of a longer prefix extend those of the shorter one |
| PlanForm.RejectedVisited | healthmobileapp/components/ExercisePlan.js:106-116 | some visited key is rejected exactly when some selected key is |
| PlanForm.OnePayloadPerExercise | healthmobileapp/components/ExercisePlan.js:106-116 | with no rejection exactly one payload per selected exercise is sent, carrying its numbers |
| PlanForm.WithoutPlan | healthmobileapp/components/ExercisePlan.js:146 | the deleted id is gone, every other plan stays, in order, and the length is the number of plans with another id |
| PlanForm.PlanScreen.constructor | healthmobileapp/components/ExercisePlan.js:19-29 | no plans, nothing selected, modal closed, the form empty with duration "60 phút" |
| PlanForm.PlanScreen.Loaded | healthmobileapp/components/ExercisePlan.js:38-39 | the fetched plans replace the list |
| PlanForm.PlanScreen.OpenModal | healthmobileapp/components/ExercisePlan.js:160 | the modal opens |
| PlanForm.PlanScreen.TypeForm | healthmobileapp/components/ExercisePlan.js:26-29 | typing sets the four text inputs |
| PlanForm.PlanScreen.ToggleExercise | healthmobileapp/components/ExercisePlan.js:54-66 | the checkbox applies `Toggle` to the selection |
| PlanForm.PlanScreen.UpdateExerciseField | healthmobileapp/components/ExercisePlan.js:68-76 | an input applies `UpdateField` to the selection |
| PlanForm.PlanScreen.Validate | healthmobileapp/components/ExercisePlan.js:80-91 | the checks give the first failure in the order name, date, empty selection, incomplete entry, or none |
| PlanForm.PlanScreen.AddPlan | healthmobileapp/components/ExercisePlan.js:79-132 | nothing is sent on a validation error; otherwise the plan is posted, the link requests follow, and only a full success prepends the plan and resets the form |
| PlanForm.PlanScreen.Submit | healthmobileapp/components/ExercisePlan.js:93-131 | the link requests are sent once the plan exists; a full success prepends the plan and resets the form, any failure changes nothing |
| PlanForm.PlanScreen.DeletePlan | healthmobileapp/components/ExercisePlan.js:135-155 | nothing is sent unless confirmed; after a successful DELETE the plan is removed from the list |
| ReminderForm.ReminderItem.constructor | healthmobileapp/screens/Reminder/Reminder.js:43-49 | a listed reminder holds its id, title, date, time and description |
| ReminderForm.Prefill | healthmobileapp/screens/Reminder/Reminder.js:41-56 | editing a reminder fills the form with its values (a missing description as ""); no reminder clears the form |
| ReminderForm.SaveRequest | healthmobileapp/screens/Reminder/Reminder.js:59-83 | nothing is sent when a required field is empty or the date is invalid; otherwise the body carries the form, and it is an update of the edited id exactly when one is edited |
| ReminderForm.BlankNeverSaved | healthmobileapp/screens/Reminder/Reminder.js:61 | a cleared form is never saved |
| ReminderForm.PrefilledSavesAsUpdate | healthmobileapp/screens/Reminder/Reminder.js:41-83 | a form prefilled from a complete reminder saves as an update of that reminder |
| ReminderForm.ReminderScreen.constructor | healthmobileapp/screens/Reminder/Reminder.js:15-23 | no reminders, modal closed, nothing edited, form blank |
| ReminderForm.ReminderScreen.Effect | healthmobileapp/screens/Reminder/Reminder.js:41-56 | the effect refills the form only when the edited reminder is a different object |
| ReminderForm.ReminderScreen.Loaded | healthmobileapp/screens/Reminder/Reminder.js:26-34 | the fetched reminders replace the list |
| ReminderForm.ReminderScreen.Type | healthmobileapp/screens/Reminder/Reminder.js:159-187 | typing sets the four inputs |
| ReminderForm.ReminderScreen.PressItem | healthmobileapp/screens/Reminder/Reminder.js:99-102 | pressing a reminder edits it in the open modal, refilling the form unless it was already edited |
| ReminderForm.ReminderScreen.Fab | healthmobileapp/screens/Reminder/Reminder.js:145-148 | "+" opens the modal in create mode, clearing the form only if a reminder was edited |
| ReminderForm.ReminderScreen.Cancel | healthmobileapp/screens/Reminder/Reminder.js:195-198 | cancel closes the modal and stops editing, clearing the form only if a reminder was edited |
| ReminderForm.ReminderScreen.Save | healthmobileapp/screens/Reminder/Reminder.js:59-91 | the request is `SaveRequest` of the form; a reload happens exactly after a request that succeeds, which also closes the modal; otherwise nothing changes |
| Registration.Lookup | healthmobileapp/screens/User/Register.js:61 | a key is found exactly when some entry has it |
| Registration.SetKey | healthmobileapp/screens/User/Register.js:134 | `{...user, [k]: v}` overwrites an existing key in place or appends a new one, and leaves the other keys alone |
| Registration.SetKeyKeepsDistinct | healthmobileapp/screens/User/Register.js:134 | a spread update never duplicates a key |
| Registration.SetKeyOthers | healthmobileapp/screens/User/Register.js:134 | setting one key does not change what another key reads |
| Registration.Utf16Length | healthmobileapp/screens/User/Register.js:66 | `.{8,}` counts UTF-16 code units: at least one and at most two per character |
| Registration.PolicyAccepts | healthmobileapp/screens/User/Register.js:66 | "Abcdef1!" meets the password policy |
| Registration.PolicyNeedsEveryClass | healthmobileapp/screens/User/Register.js:66 | a password without a lower-case letter, an upper-case letter, a digit or a special character is refused, whatever else it holds |
| Registration.PolicyNeedsEight | healthmobileapp/screens/User/Register.js:66 | fewer than 8 UTF-16 code units is refused; so is any password under 4 characters, and one of under 8 characters inside the Basic Multilingual Plane |
| Registration.BmpLength | healthmobileapp/screens/User/Register.js:66 | characters inside the Basic Multilingual Plane count one code unit each |
| Registration.AstralCharactersCountTwice | healthmobileapp/screens/User/Register.js:66 | six characters pass when two lie outside the Basic Multilingual Plane |
| Registration.ValidationOutcome | healthmobileapp/screens/User/Register.js:60-75 | the check is cleared exactly when the password is present, equals the confirmation and meets the policy; every other outcome shows an error |
| Registration.AcceptedPassword | healthmobileapp/screens/User/Register.js:61 | a cleared check means password and confirmation are the same text |
| Registration.InitialRejected | healthmobileapp/screens/User/Register.js:39-64 | the initial form fails the check |
| Registration.PartFor | healthmobileapp/screens/User/Register.js:86-93 | each part is named after its key |
| Registration.Keys | healthmobileapp/screens/User/Register.js:84 | the keys, in insertion order |
| Registration.PartNames | healthmobileapp/screens/User/Register.js:83-96 | the part names, in order |
| Registration.FormNamesAreKeysButConfirm | healthmobileapp/screens/User/Register.js:83-96 | the form names every key except "confirm", in insertion order |
| Registration.PartNamesAppend | healthmobileapp/screens/User/Register.js:83-96 | names of joined parts are the joined names |
| Registration.FormPartsAppend | healthmobileapp/screens/User/Register.js:83-96 | the form of joined entries is the joined forms |
| Registration.BuildForm | healthmobileapp/screens/User/Register.js:83-96 | the loop builds exactly `FormParts` of the user object |
| Registration.RoleSubmitted | healthmobileapp/screens/User/Register.js:39-96 | a role that is set is always submitted |
| Registration.RegisterOutcome | healthmobileapp/screens/User/Register.js:98-116 | the form is posted; an expert record is requested exactly for a created EXPERT, for that user's id; the login screen follows exactly when every request succeeds |
| Registration.RegisterScreen.constructor | healthmobileapp/screens/User/Register.js:39-40 | the user object is `{role: "USER"}` and no error is set |
| Registration.RegisterScreen.Type | healthmobileapp/screens/User/Register.js:134 | typing sets that key |
| Registration.RegisterScreen.PickRole | healthmobileapp/screens/User/Register.js:144 | the picker sets the role |
| Registration.RegisterScreen.PickImage | healthmobileapp/screens/User/Register.js:47-58 | a refused permission alerts; a chosen image sets the avatar; otherwise nothing changes |
| Registration.RegisterScreen.Validate | healthmobileapp/screens/User/Register.js:60-75 | the error state becomes `ValidationOutcome`, and the check passes exactly when it is cleared |
| Registration.RegisterScreen.Register | healthmobileapp/screens/User/Register.js:77-123 | nothing is sent unless the check passes; then the outcome is `RegisterOutcome` of the form |
| Login.CheckFields | healthmobileapp/screens/User/Login.js:28-41 | the check passes exactly when both fields are filled; the username is checked first, each with its own message |
| Login.TokenForm | healthmobileapp/screens/User/Login.js:49-54 | the five parameters, in order: the typed username and password, the client id and secret (the text "undefined" when unset), and grant type "password" |
| Login.TokenFormNamesDistinct | healthmobileapp/screens/User/Login.js:49-54 | each parameter is named once |
| Login.RouteFor | healthmobileapp/screens/User/Login.js:73-83 | an EXPERT goes to the expert home and everybody else to the mode chooser |
| Login.LoginScreen.constructor | healthmobileapp/screens/User/Login.js:22-23 | both fields are unset and no message was set |
| Login.LoginScreen.TypeUsername | healthmobileapp/screens/User/Login.js:107 | typing sets the username |
| Login.LoginScreen.TypePassword | healthmobileapp/screens/User/Login.js:107 | typing sets the password |
| Login.LoginScreen.Validate | healthmobileapp/screens/User/Login.js:28-41 | the message becomes `CheckFields`, and the check passes exactly when it is cleared |
| Login.LoginScreen.LogIn | healthmobileapp/screens/User/Login.js:43-91 | nothing is sent unless both fields are filled; then the token form is sent, the granted tokens are stored, the user is signed in and routed by role exactly when both requests succeed, and a failure shows the wrong-credentials message |
| Models.ParseRole | healthapis/health/models.py:5-8 | a role read back is the role stored under that name |
| Models.RoleNamesRoundTrip | healthapis/health/models.py:5-8 | every role reads back as itself, and distinct roles have distinct names |
| Models.NewUser | healthapis/health/models.py:27-29 | a new user is active and takes the given role, USER by default |
| Models.NewReminder | healthapis/health/models.py:75-79 | a new reminder is active and its description defaults to "" |
| Models.AtMostOne | healthapis/health/models.py:68-69 | under a uniqueness constraint a key names at most one row |
| Models.UniqueByAppend | healthapis/health/models.py:68-69 | inserting a row under a key not yet present keeps the constraint |
| Models.UniqueByReplace | healthapis/health/models.py:68-69 | rewriting a row without changing its key keeps the constraint |
| Models.OneMetricPerDay | healthapis/health/models.py:68-69 | at most one daily metric per user and date |
| Models.RoundDiv | healthapis/health/models.py:54 | the quotient rounded to the nearest integer, within half a unit |
| Models.Bmi | healthapis/health/models.py:53-54 | the BMI in hundredths is nearest to weight / (height/100)² |
| Models.SaveProfile | healthapis/health/models.py:51-55 | a row is written exactly when height and weight are non-zero, with the BMI recomputed |
| Models.SaveProfileIdempotent | healthapis/health/models.py:51-55 | saving a saved profile again writes the same row |
| Perms.RoleChecksExclusive | healthapis/health/perms.py:3-14 | USER and EXPERT checks exclude each other, an administrator passes neither, and an anonymous requester passes nothing |
| Perms.RoleChecksNeedSignIn | healthapis/health/perms.py:3-14 | each role check implies being signed in |
| Views.PatchOne | healthapis/health/views.py:32-34 | only `first_name`, `last_name` and `email` are copied; the id, username, role and both active flags stay |
| Views.PatchUser | healthapis/health/views.py:31-35 | the patch keeps the id, username, role and both active flags, and a body without any whitelisted key changes nothing |
| Views.LastValue | healthapis/health/views.py:32 | none exactly when no pair has the key; otherwise the value of a pair with no later pair under that key |
| Views.PatchIsLastWrite | healthapis/health/views.py:31-35 | the patch sets each whitelisted field to the last value sent for it and changes nothing else |
| Views.ApplyPatch | healthapis/health/views.py:32-34 | the loop computes the patched user |
| Views.CurrentUserAsWritten | healthapis/health/views.py:26-36 | as written, for every method name the framework reports the answer is the user unchanged |
| Views.PatchIgnoredAsWritten | healthapis/health/views.py:31 | as written, no request method equals "patch", so any request, with any body, leaves the user unchanged; a PATCH of `first_name=An` is one |
| Views.PatchAppliedWhenIntended | healthapis/health/views.py:31-35 | with the guard on "PATCH" the patch applies exactly the whitelisted keys, and a GET changes nothing |
| Views.FindMetric | healthapis/health/views.py:81-89 | the row found has the user and date; none exactly when no row has them |
| Views.Fill | healthapis/health/views.py:92-98 | filling the values keeps the id, user, date and active flag |
| Views.Upsert | healthapis/health/views.py:78-102 | the one-row-per-(user, date) constraint is kept |
| Views.UpsertStoresToday | healthapis/health/views.py:78-102 | afterwards today's row holds the sent values, falling back to the stored ones and then to 0; other rows stay and no other row is added |
| Views.UpsertIdempotent | healthapis/health/views.py:78-102 | sending the same values twice stores what sending them once did |
| Views.FindIsLast | healthapis/health/views.py:81-89 | no later row has the key of the row found |
| Views.FindExactly | healthapis/health/views.py:81-89 | the last row under the key is the one found |
| Views.InsertByDate | healthapis/health/views.py:72 | insertion adds exactly the one row |
| Views.SortByDate | healthapis/health/views.py:72 | the sort is a permutation |
| Views.InsertKeepsOrder | healthapis/health/views.py:72 | inserting into a latest-first list keeps it latest-first |
| Views.SortIsDescending | healthapis/health/views.py:72 | `order_by('-date')` lists the latest day first |
| Views.MetricListing | healthapis/health/views.py:69-72 | the listing runs from the latest day to the earliest and holds the requester's active rows, each as often as stored |
| Views.MetricListingSpec | healthapis/health/views.py:69-72 | the listing holds exactly the requester's active rows, each as often as stored, latest day first |
| Views.ListMetricsAsWritten | healthapis/health/views.py:59-72 | as written, the listing fails with an integrity error exactly when the requester has no row for today |
| Views.FirstListingFailsAsWritten | healthapis/health/views.py:62-68 | as written, the first listing on an empty table fails |
| Views.EnsureToday | healthapis/health/views.py:62-68 | with zero defaults, a row for today exists afterwards and uniqueness is kept |
| Views.EnsureTodayIsEmptyUpsert | healthapis/health/views.py:62-68 | the intended listing step is the upsert of no values, and a first visit lists exactly the zero row |
| Views.CreateProfile | healthapis/health/views.py:47-50 | a second profile for a user is refused with the validation message; otherwise the profile is saved for the requester, which writes it only with non-zero height and weight |
| Views.CreateProfileKeepsOnePerUser | healthapis/health/views.py:47-50 | creating a profile never gives a user two |
| Views.PlanListing | healthapis/health/views.py:112-116 | every listed plan is active and the requester's, every such plan is listed, in table order |
| Views.PlanListingSpec | healthapis/health/views.py:112-116 | a plan is listed exactly when it is the requester's and active |
| Views.SoftDelete | healthapis/health/views.py:122-124 | the table keeps its length; the row with the id has only `active` cleared, and every other row is unchanged |
| Views.DestroyHidesOnlyThatPlan | healthapis/health/views.py:122-124 | after the soft delete the listing is the former listing without that plan, in order |
| Views.DestroyPlan | healthapis/health/views.py:112-124 | not found exactly when the requester has no active plan with that id; otherwise the soft delete |
| Views.CreatedPlanListed | healthapis/health/views.py:119-120 | a created plan is listed for its creator at once, after the earlier ones |
| Views.FilterSnoc | healthapis/health/views.py:112-116 | filtering a list extended by one row extends the filtered list by that row if it passes |
| Views.ExpertUserOf | healthapis/health/views.py:238 | the user belongs to an expert record with that id; none exactly when no record has the id |
| Views.ConnectionListing | healthapis/health/views.py:233-237 | a USER is listed only the connections they made, anyone else only those with their expert record, in table order |
| Views.ConnectionVisibility | healthapis/health/views.py:234-238 | a USER sees the connections they made; anyone else sees those with their expert record |
| Views.CreateConnection | healthapis/health/views.py:240-243 | refused exactly when the requester is not a USER; otherwise stored as the requester's |
| Views.PermissionsFor | healthapis/health/views.py:245-252 | create and partial update carry only their role check; every other action the sign-in check, with the party check added exactly for retrieve and destroy |
| Views.Refusal | healthapis/health/views.py:245-252 | a refused request is a 401 exactly when nobody is signed in, and a 403 otherwise |
| Views.PermissionDispatch | healthapis/health/views.py:245-252 | create is reached exactly by a USER and then always succeeds; partial update exactly by an EXPERT; retrieve and destroy exactly by a party to the connection; the rest by any signed-in requester |
| Views.PartialUpdateReachesOwnOnly | healthapis/health/views.py:245-252 | an expert's partial update reaches only connections with their own expert record |
| Views.FirstWithId | healthapis/health/views.py:228-237 | the lookup by id finds the first listed connection with that id, or none when no listed one has it |
| Views.ListedPassesObjectCheck | healthapis/health/perms.py:16-21 | every connection listed for a requester who may retrieve is stored and passes the party check of retrieve |
| Views.FilterAllKept | healthapis/health/views.py:122-124 | removing an id nobody has changes nothing |
| Views.Backend.constructor | healthapis/health/models.py:27-35 | the tables start empty apart from users and experts, and the constraints hold: unique e-mails, one expert record per user and per id |
| Views.Backend.CurrentUser | healthapis/health/views.py:26-36 | with the intended guard, a PATCH saves the patched user unless its e-mail is another user's, which is an integrity error; any other method answers with the stored user |
| Views.Backend.PostMetric | healthapis/health/views.py:78-102 | the metrics become the upsert, and the answer is today's row |
| Views.Backend.GetMetrics | healthapis/health/views.py:59-72 | today's row is ensured with zero defaults, the key counter advances exactly when it was created, then the requester's listing is returned |
| Views.Backend.PostProfile | healthapis/health/views.py:47-50 | the profiles become the result of `CreateProfile`, keeping one per user |
| Views.Backend.PostPlan | healthapis/health/views.py:119-120 | the plan is stored as the requester's and active, and listed for them |
| Views.Backend.DeletePlan | healthapis/health/views.py:112-124 | the plans become `DestroyPlan`'s result or stay as they were, and the listing loses exactly that plan |
| Views.Backend.PostConnection | healthapis/health/views.py:240-252 | a refused permission stores nothing; otherwise the connection is stored as the requester's |
| Views.Backend.GetConnection | healthapis/health/views.py:228-252 | a refused permission comes first; then not found exactly when the requester's listing lacks the id, and otherwise the listed connection with that id, which the requester is a party to |

## Left out

- HTTP, AsyncStorage, navigation, alerts, loading spinners and rendering are left out. What a server answers, and whether a request succeeds, are method parameters.
- Concurrency is left out: the order in which awaited requests interleave, and React's batching of state updates. Each handler is modelled as one atomic step.
- `Date` parsing and formatting are left out: `new Date(...)`, `toISOString`, `toTimeString`, `toLocaleDateString`.
  - An instant is an integer count of milliseconds.
  - Time zones and daylight saving are folded into that count.
  - The reminder's date and time text and the ISO text of the save are parameters.
- Floating-point fields (height, weight, water intake, calories, BMI) are integers. Python's half-to-even `round` is modelled as rounding halves upward.
- PlanForm.NumberOf: models `Number(s)` only for blank and decimal-digit strings. Other inputs are "not a number".
- Statistics.Summarize: the plans carry no `duration` field, so the total minutes is the sum of a field that is always missing, which is 0.
- healthapis/health/serializers.py defines only the user serializer. The fields of the other serializers are not part of this model; the request fields are the ones the views read.
- healthapis/health/views.py:14-18 imports `Connection` from models.py and nine serializers from serializers.py that those files do not define. The model follows the views as they evidently mean these names.
- The `Connection` model is not in models.py. Its two fields, user and expert, are the ones the views filter on.
- The `exercises` action of the plan view set (views.py:126-138) is left out, because its serializers are not part of this model.
- `HealthJournalViewSet` (views.py:141-178) is left out: it is a `ViewSet` without list or create actions, and it filters on fields the journal model does not have.
- `ReminderViewSet` (views.py:181-189) is left out: it orders by a `remind_at` field that does not exist.
- `ExerciseView` (views.py:192-201) is left out: it is a plain active-row listing with no logic of its own.
- `ExpertUserProfileView` (views.py:204-226) is left out: it compares user ids with expert records, so its answer depends on how the ORM converts those.
- The profile listing (views.py:44-45) is a plain filter on the owner; it has no member of its own.
- The PUT update of the connection view set cannot be reached: `http_method_names` leaves PUT out. Its permission dispatch is modelled, but no handler for it.
- Views.Backend.CurrentUser: requires that the requester is a stored user, given by its index. The framework authenticates the requester before the view runs.
- Views.Backend.PostConnection: requires that the expert record exists. That is the foreign-key check of the connection serializer, which is not part of this model.
- The unique (exercise_plan, exercise) pair of the plan–exercise link table (models.py:127) is not modelled: no view of views.py writes that table.
- Views.Backend: one counter hands out the primary keys of every table, instead of one sequence per table.
- `QueryDict.items()` yields the last value of a repeated key once. The model takes the request data as a list of pairs, which covers that case.
- ReminderForm.Prefill: the prefilled date is the UTC date while the time is the local time. Both are opaque parameters here, so a reminder near midnight can be prefilled with the wrong day, and the model does not show it.

## Findings

| source | as written | input that shows it | evidently intended | confidence | as-written member | corrected member |
|---|---|---|---|---|---|---|
| healthapis/health/views.py:62-68 | `get_or_create` for today's metric supplies only `active`; `steps`, `water_intake` and `calories_burned` are NOT NULL without defaults (models.py:64-66), so the insert fails | the first `GET` of the metric listing by a user who has no row for today | create today's row with the values 0, as `create` does when no values are sent | not executed | Views.ListMetricsAsWritten | Views.EnsureToday |
| healthapis/health/views.py:31 | `request.method.__eq__('patch')` compares with lower case, but the framework reports upper-case method names, so the patch branch never runs | `PATCH current-user/` with `first_name=An`: the user is answered unchanged | apply the whitelisted fields on a PATCH | not executed | Views.PatchIgnoredAsWritten | Views.PatchAppliedWhenIntended |
| healthmobileapp/screens/StatisticalData/StatisticalData.js:53 | `now.getDate() - now.getDay() + 1` counts from the Monday before, but `getDay()` is 0 on a Sunday, so that day's window starts on the next Monday | any Sunday: the week tab with offset 0 shows the coming week and leaves out today and the six days before | the window of the week holding today, Monday to Sunday | not executed | Statistics.SundayMissedAsWritten | Statistics.WeekStartsOnMonday |
| healthmobileapp/screens/StatisticalData/StatisticalData.js:51-56 | `start` and `end` are copies of `now` with only the date changed, so both keep the current time of day | a metric created at 08:00 on this week's Monday, viewed on Wednesday at 15:00, is not counted | whole days, from midnight opening the Monday to the end of the Sunday | not executed | Statistics.MondayMidnightMissedAsWritten | Statistics.WeekHoldsWholeDays |
