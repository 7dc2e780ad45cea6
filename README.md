# Focus-Sync focus timer, modelled in Dafny

Focus-Sync is a single-page focus timer. The core modelled here is made of five parts.

- **Personal timer.** An idle / focusing / resting state machine.
  - Focusing counts up, or counts down a pomodoro.
  - On end or rest, the focused seconds are added to today's total.
  - The total is kept in the browser's local store under `focusTimer` as `{ date, total }`.
  - On load, the stored total is reset when the stored date is not today.
- **Group focus room.** The same state machine.
  - It credits the user's own `myTotalTime` instead of the store.
  - It names the room from the stored `groupRooms` list.
- **Settings.** The seven settings, their defaults, and `getSettings`, which merges the stored record over the defaults.
  - The `NumberInput` stepper and text field; `parseInt` is modelled with JavaScript's rules.
  - The settings page, which saves a whole record on every change.
- **Statistics.** The month calendar grid and the intensity of a day.
  - The short `Hh Mm` label.
  - The week and month totals and averages, and the weekly bar chart.
- **App shell.** The page navigation, with a history stack.

The modules are:

| module | role |
|---|---|
| `Wrappers` | `Option` |
| `Text` | `String(n)`, `padStart(2, '0')`, JavaScript `%`, and `parseInt` without a radix |
| `Storage` | the local store as a map from keys to parsed records |
| `Settings` | settings and the settings page |
| `TimerCore` | what both timers share, plus `formatTime` |
| `PersonalTimer` | the personal timer |
| `GroupFocusRoom` | the group room |
| `Statistics` | the statistics page |
| `App` | navigation |

**How the timers are modelled.** Each timer component is a `class` whose fields are the component's state variables. Each handler and the one-second tick are methods. Each method is proved to perform a step function on a `Model` value. The timers' properties are lemmas over those step functions: whole sessions of `n` ticks, completion of a pomodoro, commits, and the day rollover.

**Inputs the source reads at run time become parameters:**
- the current day;
- the time of day;
- the weekday;
- the settings snapshot.

Each tick takes two settings snapshots:
- `effect` is what the interval effect read when it started;
- `current` is what a fresh `getSettings()` returns at that moment. The completion handler and the end of a break read it.

Only the group room adds to its total on every tick (`GroupFocusRoom.tsx:57-59`); the personal timer adds to `todayTotal` only on end, rest and completion.

## Model

| member | source | states |
|---|---|---|
| Text.JsRem | frontend/src/app/components/PersonalTimer.tsx:109 | JavaScript's `%` takes the sign of the dividend, its magnitude is below the divisor's, and it differs from the dividend by a multiple of the divisor, which fixes its value |
| Text.NatToString | frontend/src/app/components/PersonalTimer.tsx:123 | `String(n)` of a natural number is a nonempty run of decimal digits without a leading zero |
| Text.IntToString | frontend/src/app/components/Statistics.tsx:57 | `String(n)` is nonempty and starts with `-` exactly when `n` is negative |
| Text.PadStart2 | frontend/src/app/components/PersonalTimer.tsx:123 | `padStart(2, '0')` ends with the original text, is at least 2 long, and adds only zeros in front |
| Text.TrimStart | frontend/src/app/components/Settings.tsx:242 | `parseInt` skips exactly the leading whitespace |
| Text.DigitRun | frontend/src/app/components/Settings.tsx:242 | `parseInt` reads the longest prefix of digits |
| Text.ParseInt | frontend/src/app/components/Settings.tsx:242 | `parseInt` is a number exactly when a decimal digit follows the skipped white space and sign (a `0x` prefix aside); the number is at most 0 after a minus sign and at least 0 otherwise |
| Text.ParseIntOfString | frontend/src/app/components/Settings.tsx:242 | `parseInt(String(n))` is `n` for every integer, negative ones included |
| Text.ParseIntOfPadded | frontend/src/app/components/PersonalTimer.tsx:123 | a zero-padded `formatTime` field reads back as its number |
| Settings.ToStored | frontend/src/app/components/Settings.tsx:42-45 | the record `saveSettings` writes, merged over the defaults, is the settings it saved |
| Settings.SaveTo | frontend/src/app/components/Settings.tsx:44 | saving writes `appSettings` and leaves every other key alone |
| Settings.MergeOverDefaults | frontend/src/app/components/Settings.tsx:288 | spreading a stored record over the defaults keeps every field it holds; a record holding none gives the defaults |
| Settings.GetSettings | frontend/src/app/components/Settings.tsx:285-291 | with nothing stored, or a stored value that is not a settings record, the defaults come back; a stored record is merged over them |
| Settings.GetSettingsFieldByField | frontend/src/app/components/Settings.tsx:21-29 | each stored field overrides its default (600, false, 25, 5, 15, 4); each missing field keeps it |
| Settings.GetSettingsAfterSave | frontend/src/app/components/Settings.tsx:42-45 | `getSettings()` after `saveSettings(s)` returns `s` |
| Settings.NumberInputChange | frontend/src/app/components/Settings.tsx:225-246 | the minus button gives `max(min, value-step)`; the plus button gives `min(max, value+step)`; emptied text gives `min`; text `parseInt` reads as `NaN` calls nothing; any other text gives exactly `max(min, parseInt(text))` |
| Settings.ButtonsStayInBounds | frontend/src/app/components/Settings.tsx:226-234 | from a value within the bounds, the buttons keep it within the bounds |
| Settings.TypedNumber | frontend/src/app/components/Settings.tsx:236-245 | typing a number's text sets `max(min, n)`, with no upper clamp |
| Settings.RestMinutesRoundTrip | frontend/src/app/components/Settings.tsx:97-99 | minutes saved as `value * 60` are shown again as the same minutes |
| Settings.SettingsPage.constructor | frontend/src/app/components/Settings.tsx:32 | the page starts with the defaults |
| Settings.SettingsPage.Load | frontend/src/app/components/Settings.tsx:34-40 | a stored record is merged over the defaults; with none stored, the state is kept; afterwards the page agrees with `getSettings` |
| Settings.SettingsPage.Save | frontend/src/app/components/Settings.tsx:42-45 | the state becomes the new settings, the store holds them, and `getSettings` reads them back |
| Settings.SettingsPage.ChangeNickname | frontend/src/app/components/Settings.tsx:47-49 | only the nickname changes; an emptied field saves the default, so the nickname is never empty |
| Settings.SettingsPage.TogglePomodoro | frontend/src/app/components/Settings.tsx:51-53 | only `pomodoroEnabled` flips, and the result is saved |
| Settings.SettingsPage.EditRestDuration | frontend/src/app/components/Settings.tsx:97-104 | the minute input's value times 60 is saved as `restDuration` and shown back as the same minutes; nothing is saved when `onChange` is not called |
| Settings.SettingsPage.EditPomodoroDuration | frontend/src/app/components/Settings.tsx:142-149 | the input's value (bounds 1..240, step 5) replaces only `pomodoroDuration` |
| Settings.SettingsPage.EditShortBreak | frontend/src/app/components/Settings.tsx:156-163 | the input's value (bounds 1..60, step 5) replaces only `shortBreak` |
| Settings.SettingsPage.EditLongBreak | frontend/src/app/components/Settings.tsx:170-177 | the input's value (bounds 1..120, step 5) replaces only `longBreak` |
| Settings.SettingsPage.EditLongBreakInterval | frontend/src/app/components/Settings.tsx:184-191 | the input's value (bounds 2..20, step 1) replaces only `longBreakInterval` |
| Settings.SettingsPage.ResetToDefaults | frontend/src/app/components/Settings.tsx:202-204 | exactly the defaults are saved and shown |
| TimerCore.LongBreakOnMultiples | frontend/src/app/components/PersonalTimer.tsx:108-109 | for a positive interval, a long break is due on every multiple of the interval and not one pomodoro earlier |
| TimerCore.LongBreakDue | frontend/src/app/components/PersonalTimer.tsx:109 | for a positive interval and a count from 0, a long break is due exactly when the interval divides the count; an interval of 0 never gives one |
| TimerCore.FocusStartValue | frontend/src/app/components/PersonalTimer.tsx:126-137 | the counter starts at the pomodoro duration in seconds in pomodoro mode, and at 0 otherwise |
| TimerCore.CommittedSeconds | frontend/src/app/components/PersonalTimer.tsx:143-145 | the credited seconds are the distance the counter moved from its start value, so an untouched counter credits 0 |
| TimerCore.ClockOf | frontend/src/app/components/PersonalTimer.tsx:118-122 | hours, minutes below 60 and seconds below 60 add up to the absolute value |
| TimerCore.TwoDigitField | frontend/src/app/components/PersonalTimer.tsx:123 | a field value below 100 is shown with exactly two characters |
| TimerCore.FormatTime | frontend/src/app/components/PersonalTimer.tsx:118-124 | `formatTime` ends in `:MM:SS`, is at least 8 long, and is exactly 8 long below 100 hours |
| TimerCore.FormatTimeReadsBack | frontend/src/app/components/PersonalTimer.tsx:118-124 | `formatTime(x)` is `HH:MM:SS`; its three fields parse back to hours, minutes below 60 and seconds below 60 that add up to `abs(x)` |
| PersonalTimer.DayRollover | frontend/src/app/components/PersonalTimer.tsx:25-45 | a stored `null` throws before anything is set or written; a stored record of today is loaded as it is; a record of another day, or a value that is no record, resets the total to 0 and writes `{today, 0}`; with no record, `{today, 0}` is written and the total is kept; the rest counter is read from the settings |
| PersonalTimer.NewDayStartsAtZero | frontend/src/app/components/PersonalTimer.tsx:33-37 | loading on a new day succeeds, shows 0 and stores `{today, 0}`, whatever yesterday's total was |
| PersonalTimer.RunCountsUp | frontend/src/app/components/PersonalTimer.tsx:52-63 | counting up, `n` ticks add `n` to the counter and nothing to the total |
| PersonalTimer.RunCountsDown | frontend/src/app/components/PersonalTimer.tsx:52-63 | counting down, ticks before zero only lower the counter |
| PersonalTimer.CountUpSessionCommits | frontend/src/app/components/PersonalTimer.tsx:126-155 | start, `n` ticks and end credit exactly `n` seconds and store the new total under today |
| PersonalTimer.CountdownSessionCommitsSpent | frontend/src/app/components/PersonalTimer.tsx:139-155 | ending a pomodoro early credits the seconds spent: the duration minus what was left |
| PersonalTimer.PomodoroRunsOut | frontend/src/app/components/PersonalTimer.tsx:52-116 | after exactly its duration, a pomodoro is counted and credited in full, and the break starts; it is long exactly on a multiple of the interval |
| PersonalTimer.FocusTickKeepsTotal | frontend/src/app/components/PersonalTimer.tsx:52-63 | a focusing tick that does not complete a pomodoro changes only the counter, by one |
| PersonalTimer.RestNeverCommits | frontend/src/app/components/PersonalTimer.tsx:66-80 | a break never credits anything; it counts down and, when over, is idle with the long-break flag cleared |
| PersonalTimer.BreakEndsOnTime | frontend/src/app/components/PersonalTimer.tsx:66-80 | a break of `b` seconds ends after exactly `b` ticks, with the rest counter reset from the current settings |
| PersonalTimer.EndRestCommitsNothing | frontend/src/app/components/PersonalTimer.tsx:176-181 | end-rest credits nothing, and a second press changes nothing |
| PersonalTimer.EveryFourthBreakIsLong | frontend/src/app/components/PersonalTimer.tsx:108-114 | with the default interval of 4, only the fourth pomodoro gives the long break |
| PersonalTimer.CommitsAreStored | frontend/src/app/components/PersonalTimer.tsx:95-181 | end, rest and completion write `{today, total}`; start and end-rest leave the store and the total alone |
| PersonalTimer.CommitAfterMidnight | frontend/src/app/components/PersonalTimer.tsx:25-155 | as written, the total is reset only on load, so a session ended after midnight stores yesterday's total plus the session under the new date |
| PersonalTimer.IntendedCommitKeepsDaysApart | frontend/src/app/components/PersonalTimer.tsx:139-155 | with the corrected commit, a session ended on the day of the loaded record commits as before, and one ended after midnight stores only its own seconds under the new date |
| PersonalTimer.Timer.constructor | frontend/src/app/components/PersonalTimer.tsx:16-21 | the initial values: idle, 0, 600, 0, 0, false |
| PersonalTimer.Timer.Mount | frontend/src/app/components/PersonalTimer.tsx:25-45 | the load effect performs the rollover step and then the store holds today's total; on a stored `null` it fails and nothing changes |
| PersonalTimer.Timer.HandleStart | frontend/src/app/components/PersonalTimer.tsx:126-137 | the counter starts at the pomodoro duration or at 0, and the state is focusing |
| PersonalTimer.Timer.HandleEnd | frontend/src/app/components/PersonalTimer.tsx:139-155 | the focused seconds are credited and stored under today, and the timer is idle |
| PersonalTimer.Timer.HandleRest | frontend/src/app/components/PersonalTimer.tsx:157-174 | the focused seconds are credited and stored, and a rest of `restDuration` starts |
| PersonalTimer.Timer.HandleEndRest | frontend/src/app/components/PersonalTimer.tsx:176-181 | the timer is idle, the long-break flag is cleared, and the rest counter is reset |
| PersonalTimer.Timer.HandlePomodoroComplete | frontend/src/app/components/PersonalTimer.tsx:95-116 | the count rises by one, the duration is credited and stored, and a short or long break starts |
| PersonalTimer.Timer.Tick | frontend/src/app/components/PersonalTimer.tsx:48-93 | one interval callback performs the tick step |
| GroupFocusRoom.FindRoom | frontend/src/app/components/GroupFocusRoom.tsx:40 | `rooms.find` returns the first room with the code, or none exactly when no room has it |
| GroupFocusRoom.MountFindsRoom | frontend/src/app/components/GroupFocusRoom.tsx:38-47 | loading takes the name of the first stored room with the code, and the rest duration from the settings |
| GroupFocusRoom.StatusText | frontend/src/app/components/GroupFocusRoom.tsx:234-243 | focusing is labelled 집중, resting 휴식 and idle 대기, and each label belongs to that state alone |
| GroupFocusRoom.StatusTextDistinct | frontend/src/app/components/GroupFocusRoom.tsx:234-243 | different states get different labels |
| GroupFocusRoom.RunCountsUp | frontend/src/app/components/GroupFocusRoom.tsx:53-67 | counting up, each tick adds one to the counter and one to `myTotalTime` |
| GroupFocusRoom.RunCountsDown | frontend/src/app/components/GroupFocusRoom.tsx:53-67 | counting down, ticks before zero only lower the counter |
| GroupFocusRoom.CountUpSessionCountsTwice | frontend/src/app/components/GroupFocusRoom.tsx:53-157 | as written, start, `n` ticks and then end or rest raise `myTotalTime` by `2n` |
| GroupFocusRoom.PomodoroCreditsOnce | frontend/src/app/components/GroupFocusRoom.tsx:53-112 | in pomodoro mode, ticks credit nothing until the countdown runs out; then the full duration is credited once, the count rises and the break starts |
| GroupFocusRoom.EndRestKeepsTotals | frontend/src/app/components/GroupFocusRoom.tsx:159-164 | end-rest leaves `myTotalTime` and the count alone, and clears the long-break flag |
| GroupFocusRoom.RestCreditsNothing | frontend/src/app/components/GroupFocusRoom.tsx:69-84 | a break never credits anything |
| GroupFocusRoom.IntendedSessionCountsOnce | frontend/src/app/components/GroupFocusRoom.tsx:53-157 | with the corrected commit, a session of `k` focused seconds credits exactly `k`, counting up or down |
| GroupFocusRoom.FocusRoom.constructor | frontend/src/app/components/GroupFocusRoom.tsx:24-36 | the initial values, with an empty room name |
| GroupFocusRoom.FocusRoom.Mount | frontend/src/app/components/GroupFocusRoom.tsx:38-47 | the load effect names the room and reads the rest duration; it fails when the stored value is not a list, and then nothing has changed |
| GroupFocusRoom.FocusRoom.HandleStart | frontend/src/app/components/GroupFocusRoom.tsx:122-132 | the counter starts at the pomodoro duration or at 0, and the state is focusing |
| GroupFocusRoom.FocusRoom.HandleEnd | frontend/src/app/components/GroupFocusRoom.tsx:134-144 | the focused seconds are added to `myTotalTime`, and the timer is idle |
| GroupFocusRoom.FocusRoom.HandleRest | frontend/src/app/components/GroupFocusRoom.tsx:146-157 | the focused seconds are added, and a rest of `restDuration` starts |
| GroupFocusRoom.FocusRoom.HandleEndRest | frontend/src/app/components/GroupFocusRoom.tsx:159-164 | the timer is idle, the long-break flag is cleared, and the rest counter is reset |
| GroupFocusRoom.FocusRoom.HandlePomodoroComplete | frontend/src/app/components/GroupFocusRoom.tsx:98-112 | the count rises by one, the duration is credited, and a short or long break starts |
| GroupFocusRoom.FocusRoom.Tick | frontend/src/app/components/GroupFocusRoom.tsx:49-96 | one interval callback performs the tick step |
| Statistics.FindDay | frontend/src/app/components/Statistics.tsx:62 | `find` returns the first entry for the date, or none exactly when no entry has it |
| Statistics.TotalOn | frontend/src/app/components/Statistics.tsx:60-64 | a day's total (`getTodayTotal`, `getDayTotal`) is the total of the first entry for that day, or 0 when there is none |
| Statistics.TotalOfFoundDay | frontend/src/app/components/Statistics.tsx:62-63 | the total shown is the total of the entry `find` returns, and 0 when `find` returns nothing |
| Statistics.MondayFirstOffset | frontend/src/app/components/Statistics.tsx:131 | the Monday-first column is in 0..6; Monday is 0 and Sunday is 6 |
| Statistics.DaysInMonth | frontend/src/app/components/Statistics.tsx:125-144 | the month is that many blanks followed by the days 1..n in order |
| Statistics.PadToGrid | frontend/src/app/components/Statistics.tsx:163-165 | blanks are appended up to 42 cells, and what was there is kept |
| Statistics.CalendarGrid | frontend/src/app/components/Statistics.tsx:125-165 | a month of up to 31 days fills exactly 42 cells, with each day in its weekday's column and nothing else numbered |
| Statistics.DayTotal | frontend/src/app/components/Statistics.tsx:146-153 | a blank cell counts 0, and a day of the shown month counts that day's total |
| Statistics.IntensityOfTotal | frontend/src/app/components/Statistics.tsx:182-186 | none exactly at 0; low below 1800; mid from 1800 to below 3600; high from 3600 |
| Statistics.IntensityClass | frontend/src/app/components/Statistics.tsx:177-187 | a blank cell, and only a blank cell, is transparent; a day's shade is the shade of its total |
| Statistics.IntensityMonotone | frontend/src/app/components/Statistics.tsx:182-186 | more focused time never gives a lighter shade |
| Statistics.FormatTimeShortParts | frontend/src/app/components/Statistics.tsx:54-58 | `formatTimeShort` shows whole hours and the remaining whole minutes below 60, with hours from one hour on |
| Statistics.FormatTimeShort | frontend/src/app/components/Statistics.tsx:54-58 | from one hour on, the label is the whole hours, `h `, the remaining whole minutes and `m`; below one hour it is the whole minutes and `m` |
| Statistics.DaysFromMonday | frontend/src/app/components/Statistics.tsx:94 | the week average divides by 1..7 days |
| Statistics.WeekTotal | frontend/src/app/components/Statistics.tsx:66-77 | the week total of non-negative entries is non-negative |
| Statistics.MonthTotal | frontend/src/app/components/Statistics.tsx:79-89 | the month total of non-negative entries is non-negative |
| Statistics.WeekAverage | frontend/src/app/components/Statistics.tsx:91-96 | the week average is the week total divided by the number of days from Monday to today, rounded down, and lies between 0 and the total |
| Statistics.MonthAverage | frontend/src/app/components/Statistics.tsx:98-103 | the month average is the month total divided by the day of the month, rounded down, and lies between 0 and the total |
| Statistics.FlooredAverage | frontend/src/app/components/Statistics.tsx:91-103 | `Math.floor(total / days)` is the largest whole number whose multiple fits in the total |
| Statistics.MonthCountsItsDays | frontend/src/app/components/Statistics.tsx:79-89 | an entry counts in the month total exactly when its day lies between the first of the month and today |
| Statistics.WeekCountsItsDays | frontend/src/app/components/Statistics.tsx:66-77 | as written, an entry counts in the week total exactly when its day lies from `weekStart` to today, with `weekStart`'s own day left out once the time of day is past midnight |
| Statistics.ChartFrom | frontend/src/app/components/Statistics.tsx:110-122 | seven bars from the given Monday; bar `i` is named for the `i`-th weekday from Monday and shows the minutes of day `monday + i` |
| Statistics.MinutesOn | frontend/src/app/components/Statistics.tsx:120 | `Math.floor(total / 60)`: the whole minutes of a day's total, rounded down, and 0 for a day with no entry |
| Statistics.WeeklyChart | frontend/src/app/components/Statistics.tsx:105-123 | as written, the seven bars start from `getDate() - getDay() + 1`; bar `i` is named for the `i`-th weekday from Monday and shows the minutes of the `i`-th day from that start |
| Statistics.WeekTotalOnSundayIsZero | frontend/src/app/components/Statistics.tsx:66-96 | as written, on a Sunday the week total and average are 0 whatever was recorded |
| Statistics.WeekTotalDropsMonday | frontend/src/app/components/Statistics.tsx:68-74 | as written, Monday's entry is not counted in the week total after midnight |
| Statistics.ChartOnSundayMissesToday | frontend/src/app/components/Statistics.tsx:105-122 | as written, on a Sunday the chart shows the seven days after today, so today's time never shows |
| Statistics.WeekStartIntended | frontend/src/app/components/Statistics.tsx:94 | the corrected week start is the Monday that `daysFromMonday` counts from, and today lies within its week |
| Statistics.IntendedWeekCountsItsDays | frontend/src/app/components/Statistics.tsx:66-77 | with the corrected start, an entry counts exactly when its day lies between this Monday and today |
| Statistics.WeekTotalIntended | frontend/src/app/components/Statistics.tsx:66-77 | with the corrected start, the week total of non-negative entries is non-negative |
| Statistics.WeekAverageIntended | frontend/src/app/components/Statistics.tsx:91-96 | with the corrected start, the average divides the week total by exactly the days from this Monday to today, rounded down |
| Statistics.IntendedChartShowsToday | frontend/src/app/components/Statistics.tsx:105-122 | with the corrected start, today's bar is in its weekday's column and shows today's total |
| App.Start | frontend/src/app/App.tsx:11-12 | the app starts on the home page with the history `[home]`, which is valid |
| App.Navigate | frontend/src/app/App.tsx:14-17 | the page is shown and pushed; the history grows by exactly one and keeps its older entries |
| App.Back | frontend/src/app/App.tsx:19-27 | with more than one entry, the top entry is dropped and the new top is shown; otherwise nothing changes; validity is preserved |
| App.BackUndoesNavigate | frontend/src/app/App.tsx:14-27 | back right after a navigation restores the previous state |
| App.BackRetracesNavigation | frontend/src/app/App.tsx:14-27 | after navigating through `k` pages, the history is the old one plus those pages, and `k` presses of back return to the start |
| App.BackAtStartDoesNothing | frontend/src/app/App.tsx:20 | back on the lone home page changes nothing |
| App.Navigator.constructor | frontend/src/app/App.tsx:11-12 | the initial state |
| App.Navigator.HandleNavigate | frontend/src/app/App.tsx:14-17 | performs the navigate step |
| App.Navigator.HandleBack | frontend/src/app/App.tsx:19-27 | performs the back step, by copy and pop |
| App.Navigator.HandleHome | frontend/src/app/App.tsx:29-32 | the state returns to home with the history `[home]` |

## Left out

- **Rendering.** JSX, CSS classes, animations, icons and labels are presentation and are not modelled. Labels are left out except `getStatusText`, whose Korean strings are kept.
- **Interval scheduling and React semantics.**
  - `setInterval` and `clearInterval` are not modelled. A tick is an explicit `Tick` call, made only while focusing or resting. `Run` iterates ticks with unchanged settings.
  - React's batching and stale closures are not modelled.
  - The StrictMode double run of state updaters is not modelled.
  - Each handler reads the state at the moment it is called. During a focus session, the total and the count that the completion handler's closure captured are the current ones, because nothing changes them while focusing.
- **Errors thrown in effects.** When the personal timer's load effect throws on a stored `null`, what React does next (the error boundary, the unmounted tree) is not modelled; the load is modelled as failing with the state unchanged.
- **Handler guards.** The UI only shows the buttons that fit the state; this is not modelled. The handlers themselves have no guard, so they are modelled without preconditions on the state.
- **Clocks and dates.** `new Date()`, `toDateString`, `getDay` and `getDate` become parameters.
  - A day is an integer.
  - The time of day is in seconds since midnight. Days are taken as 86400 seconds, so daylight-saving changes are not modelled.
  - The month start and the number of days in a month are parameters, not calendar computations.
- **JSON typing.** A stored value is one of the three record shapes, `null`, or "other". The model does not cover a record holding fields of the wrong JSON type, or `JSON.parse` of text that is not JSON.
- **Numbers.** Numbers are unbounded integers. The model does not cover floating point, `NaN` totals, or precision loss beyond 2^53.
- Settings.SettingsPage.EditRestDuration: the minute value `restDuration / 60` is a float division in the source. It is taken as integer division, which is exact only when `restDuration` is a multiple of 60. Every value the page itself saves is such a multiple.
- Text.IsJsSpace: only the common whitespace characters are recognised. The model does not cover every Unicode space separator `parseInt` skips.
- `loadStatistics` (random demo data for the 59 earlier days) is not modelled. The statistics functions take the list of daily totals as a parameter.
- `handlePrevMonth` and `handleNextMonth` are not modelled. The shown month is a parameter (its first weekday and its length).
- `copyRoomCode` (clipboard) is not modelled.
- The participants list is a constant of placeholder data with no behaviour, and is not modelled beyond that constant.
- `getStateLabel` is not modelled.
- The other components (`Home`, `GroupFocus`, `GroupRoomList`) are not part of this model.

## Findings

| source | as written | input that shows it | evidently intended | confidence | as-written member | corrected member |
|---|---|---|---|---|---|---|
| frontend/src/app/components/Statistics.tsx:69 | `weekStart` is `getDate() - getDay() + 1`, and `getDay()` is 0 on a Sunday | any Sunday: the week starts the next day, so the week total is 0 while the average divides by 7 | the week starts on this week's Monday, `(getDay() + 6) % 7` days back | high (not executed) | Statistics.WeekTotalOnSundayIsZero | Statistics.IntendedWeekCountsItsDays |
| frontend/src/app/components/Statistics.tsx:68-74 | `weekStart` is a copy of `new Date()` and keeps the current time of day | a Monday at 10:00 with 3600 s recorded today: the week total is 0 | the week starts at midnight of Monday | high (not executed) | Statistics.WeekTotalDropsMonday | Statistics.IntendedWeekCountsItsDays |
| frontend/src/app/components/Statistics.tsx:108 | the chart's `weekStart` has the same Sunday rule | any Sunday with time recorded today: all seven bars are 0 | the chart shows this week's Monday to Sunday, today included | high (not executed) | Statistics.ChartOnSundayMissesToday | Statistics.IntendedChartShowsToday |
| frontend/src/app/components/GroupFocusRoom.tsx:53-144 | counting up, every tick adds 1 to `myTotalTime`, and end or rest add the whole elapsed time again | start, 10 ticks, end: `myTotalTime` rises by 20 | each focused second is credited once | medium (not executed) | GroupFocusRoom.CountUpSessionCountsTwice | GroupFocusRoom.IntendedSessionCountsOnce |
| frontend/src/app/components/PersonalTimer.tsx:139-155 | `handleEnd` adds the session to `todayTotal`, which is only reset when the component loads | load on a day with 3600 s stored, focus across midnight for 60 s, end: `{next day, 3660}` is stored | a new day's record holds only that day's focused time | medium (not executed) | PersonalTimer.CommitAfterMidnight | PersonalTimer.IntendedCommitKeepsDaysApart |

The timer classes keep the source's behaviour, the double count and the carry-over past midnight included. The corrected functions stand beside them.
