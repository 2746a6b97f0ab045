# AquaHora hydration tracker: a verified model of its state logic

AquaHora is a single-page hydration tracker. The user completes a short
onboarding (language, name, weight). That yields a daily goal of 35 ml per kg.
The user then logs drinks, sees today's total against the goal, and reads a
7-day history. This project models the logic inside the `App` component
(`src/App.tsx`), separated from its rendering:

- `types.dfy` (module `Types`): the records of `src/types.ts`: `UserProfile`,
  `WaterEntry` and `DailyHistory`, plus `Language` and `Option`.
- `day_key.dfy` (module `DayKeys`): the history's date key. A calendar day is
  an integer index. Its key is that index written in decimal, which stands in
  for the `yyyy-MM-dd` string. Distinct days get distinct keys, and this is
  proved.
- `ledger.dfy` (module `Ledger`): the drink log and the daily history as pure
  list transformations. It covers the `reduce` total, the `find` lookup, the
  `map`-or-append upsert, one `addWater` step (`Log`) and sessions of steps
  (`LogAll`).
- `profiles.dfy` (module `Profiles`): `handleOnboarding`'s new profile and the
  three settings updaters. Each updater maps a missing profile to a missing
  profile.
- `onboarding_flow.dfy` (module `OnboardingFlow`): the two-step `Onboarding`
  screen as a state machine over user events. Next is disabled while the name
  is empty, and the slider ranges over 30..150 kg.
- `views.dfy` (module `Views`): the read-only derivations. These are the
  load-time entry filter, `progress` and its `>= 100` test, the ProgressBar
  clamp, and the 7-day history rows.
- `tracker.dfy` (module `Tracker`): class `App`. It holds the four state slots
  `profile`, `entries`, `history` and `showOnboarding`. Its methods are the
  load effect and the handlers, and each states the new state in terms of the
  functions above.

Inputs the browser supplies are parameters:
- the current instant (`now`) and the current day index (`today`);
- the start of today in milliseconds (`startOfToday`);
- the entry id;
- the already-decoded saved records (`Option`, absent when nothing was
  stored).

The history record for today is updated by adding the amount to the stored
total, as the code does (src/App.tsx:175). It is not recomputed from the
entries. `Ledger.SessionKeepsConsistent` shows what this addition still
guarantees. If today's record equals the sum of the entries, it stays equal
through any session of drinks. Starting from nothing, both equal the sum of
the drinks logged.

The entries are cut to today only when the saved data is loaded
(src/App.tsx:102-104). `totalToday` sums every entry in memory. The model does
the same.

## Model

| member | source | states |
|---|---|---|
| `DayKeys.Decimal` | src/App.tsx:171 | the decimal digits of n under the day key: non-empty, all digits, one digit exactly for n < 10 |
| `DayKeys.DecimalInjective` | src/App.tsx:171 | different day numbers are written differently |
| `DayKeys.DayKey` | src/App.tsx:171 | a day's key is non-empty and starts with '-' exactly for a day before day 0 |
| `DayKeys.DayKeyInjective` | src/App.tsx:303-304 | two days with the same history key are the same day |
| `Ledger.Total` | src/App.tsx:181 | with non-negative amounts the sum is non-negative; one entry sums to its amount |
| `Ledger.TotalConcat` | src/App.tsx:181 | the total of two runs of entries is the sum of their totals |
| `Ledger.TotalPositive` | src/App.tsx:181 | with positive amounts the total is non-negative, and positive exactly when something was logged |
| `Ledger.Find` | src/App.tsx:173 | `find` yields the first record with the date, and nothing exactly when no record has it |
| `Ledger.FindSameDates` | src/App.tsx:173 | histories with the same dates in the same places find the same record |
| `Ledger.TotalOn` | src/App.tsx:305 | a day without a record counts 0, and otherwise the total of the first record for that day, as `dayData?.total || 0` reads it |
| `Ledger.AddToDay` | src/App.tsx:175 | the `map` keeps the length and every date, adds the amount to each record for today and leaves the other records as they were |
| `Ledger.Upsert` | src/App.tsx:172-178 | with a record for today, the length and every date are kept and each record for today gains the amount; without one, `{today, amount}` is appended after the unchanged records |
| `Ledger.UpsertDates` | src/App.tsx:172-178 | the dates after the upsert are the old dates plus today's |
| `Ledger.UpsertKeepsUniqueDates` | src/App.tsx:173-177 | the upsert never creates a second record for a date |
| `Ledger.UpsertChangesOneRecord` | src/App.tsx:174-175 | with unique dates, exactly today's record changes, by the amount, and every other record is unchanged |
| `Ledger.UpsertTotalOn` | src/App.tsx:172-178 | as seen by the lookup, today's total gains the amount and every other date's total is unchanged |
| `Ledger.Log` | src/App.tsx:162-168 | addWater appends exactly the new entry at the end, with all earlier entries unchanged |
| `Ledger.LogTotals` | src/App.tsx:162-181 | addWater raises `totalToday` and today's history total by the amount, and leaves other days' totals unchanged |
| `Ledger.SessionEntries` | src/App.tsx:168 | a session of drinks appends exactly those drinks, in order |
| `Ledger.SessionKeepsUniqueDates` | src/App.tsx:172-178 | a session keeps history dates unique |
| `Ledger.SessionEntryTotal` | src/App.tsx:168-181 | after a session, `totalToday` has grown by the sum of the drinks |
| `Ledger.SessionDayTotal` | src/App.tsx:172-178 | after a same-day session, today's record has grown by the sum of the drinks |
| `Ledger.SessionTotals` | src/App.tsx:168-181 | after a same-day session, today's total and today's record have each grown by the sum of the drinks |
| `Ledger.SessionKeepsConsistent` | src/App.tsx:172-181 | adding to the record keeps it equal to the sum of the entries, and from nothing both equal the drinks' sum |
| `Profiles.CompleteOnboarding` | src/App.tsx:184-196 | the new profile keeps the answers, has goal = weight * 35, and has reminders on and onboarded set |
| `Profiles.ToggleReminders` | src/App.tsx:390 | flips `remindersEnabled` only; no profile stays no profile |
| `Profiles.SetLanguage` | src/App.tsx:415 | replaces `language` only; no profile stays no profile |
| `Profiles.SetWeight` | src/App.tsx:442-445 | sets the weight and goal = weight * 35 together and nothing else; no profile stays no profile |
| `Profiles.ToggleRemindersTwice` | src/App.tsx:390 | toggling twice restores the profile |
| `Profiles.SettingsKeepGoalFollowingWeight` | src/App.tsx:390-444 | no settings edit breaks goal = weight * 35, and a weight edit restores it |
| `Profiles.LastEditWins` | src/App.tsx:415-444 | a later weight or language edit overrides an earlier one |
| `OnboardingFlow.SliderValue` | src/App.tsx:610-615 | the slider's weight lies in 30..150 and equals the chosen value when that is in range |
| `OnboardingFlow.Step` | src/App.tsx:566-630 | the step changes to the weight screen only through Next with a non-empty name; the weight screen keeps the name and language; the name screen keeps the weight; a changed weight lies in 30..150 |
| `OnboardingFlow.Finish` | src/App.tsx:630 | Start exists only on the weight step and hands over the name, weight and language, with goal = weight * 35 |
| `OnboardingFlow.RunStaysReachable` | src/App.tsx:551-635 | every reachable screen state has a weight in 30..150 and, on the weight step, a non-empty name |
| `OnboardingFlow.CompletedProfileIsValid` | src/App.tsx:591-630 | any completed onboarding has a non-empty name, a weight in 30..150 and a goal in 1050..5250 equal to weight * 35 |
| `OnboardingFlow.EveryValidAnswerCompletes` | src/App.tsx:559-630 | every non-empty name, slider weight and language can be entered and completed |
| `Views.KeepFrom` | src/App.tsx:99-105 | the load filter keeps exactly the entries with `timestamp >= startOfToday` |
| `Views.KeepFromConcat` | src/App.tsx:103 | the filter distributes over concatenation, so the kept entries stay in their original order |
| `Views.KeepFromLater` | src/App.tsx:101-104 | filtering from an earlier and then a later start of day is filtering from the later one |
| `Views.EarlierDrinkNotCounted` | src/App.tsx:102-104 | after a reload, a drink logged before the start of today, anywhere in the saved list, does not count in today's total |
| `Views.PercentIsQuotient` | src/App.tsx:182 | for a non-zero goal the kept fraction is exactly `(total / goal) * 100` |
| `Views.Percent` | src/App.tsx:182 | `(total / goal) * 100` is finite exactly when the goal is non-zero, with a positive denominator |
| `Views.Progress` | src/App.tsx:182 | `progress` is 0 without a profile and `Percent(total, goal)` with one, which for a positive goal is the fraction (total * 100) / goal |
| `Views.AtLeast100` | src/App.tsx:270 | for a finite percentage, `>= 100` holds exactly when its real value is at least 100 |
| `Views.GoalReachedIff` | src/App.tsx:182 | `progress >= 100` iff total >= goal for a positive goal; iff total <= goal for a negative goal; iff total > 0 for a zero goal |
| `Views.GoalReachedMonotone` | src/App.tsx:270 | with a positive goal, logging more never removes the goal-reached card |
| `Views.ProgressMonotone` | src/App.tsx:182 | with a positive goal, logging more never lowers `progress`: same denominator, numerator not smaller |
| `Views.ClampedProgressMonotone` | src/App.tsx:38 | with a positive goal, logging more never lowers the clamped ring value |
| `Views.Clamp` | src/App.tsx:38 | the displayed percentage is never infinite: it is NaN exactly when progress is NaN (zero goal, nothing logged) and otherwise a fraction in [0,100], 0 for −Infinity; it equals progress when progress is in range, and is 100 exactly when the goal is reached |
| `Views.CapAt100` | src/App.tsx:322 | a history bar's width is never +Infinity and a finite width is at most 100; −Infinity and NaN pass through; it is 100 exactly when that day's progress reaches 100 |
| `Views.RowFor` | src/App.tsx:303-325 | a row shows its day's recorded total; below a positive goal its bar is exactly (total * 100) / goal; the bar is never +Infinity and a finite bar is at most 100; it is marked reached iff the bar is 100; without a profile the bar is 0 and nothing is reached; with a positive goal it is reached iff the total reaches the goal |
| `Views.Week` | src/App.tsx:302-325 | exactly 7 rows, for day offsets 0..6 counted back from today, row i keyed by the day i days before today; every bar is at most 100, is exactly (total * 100) / goal below a positive goal, and a row is reached iff its bar is 100 |
| `Views.WeekRowTotals` | src/App.tsx:305-316 | a row shows the first matching record's total, or 0 when the day has no record |
| `Views.SevenDistinctDays` | src/App.tsx:302-304 | the 7 rows' days (today and the six before it) have 7 different keys |
| `Views.WeekReached` | src/App.tsx:307-325 | a row is marked reached iff its total reaches a positive goal; without a profile no row is |
| `Views.TodayRowAfterLog` | src/App.tsx:172-178 | logging a drink raises today's row by the amount |
| `Views.EarlierRowAfterLog` | src/App.tsx:172-178 | logging a drink today leaves an earlier day's row unchanged |
| `Views.SameTotalSameRow` | src/App.tsx:305-325 | a row depends on the history only through its day's total |
| `Views.WeekAfterLog` | src/App.tsx:162-178 | logging a drink raises today's row by the amount and leaves the six earlier rows unchanged |
| `Tracker.App.constructor` | src/App.tsx:63-68 | initial state: no profile, no entries, no history, onboarding shown |
| `Tracker.App.TotalToday` | src/App.tsx:181 | with non-negative amounts `totalToday` is non-negative |
| `Tracker.App.GoalReached` | src/App.tsx:270 | no profile never shows the card; with a positive goal it shows iff `totalToday` reaches the goal |
| `Tracker.App.DisplayedProgress` | src/App.tsx:38 | the ring's percentage is exactly (totalToday * 100) / goal while 0 <= totalToday < goal; it is never infinite: NaN exactly when the goal is 0 and the total is 0, otherwise a fraction in [0,100], and 100 exactly when the goal-reached card shows |
| `Tracker.App.LastSevenDays` | src/App.tsx:302-316 | 7 rows, the first for today, showing today's recorded total |
| `Tracker.App.Load` | src/App.tsx:87-114 | a saved profile replaces the profile and sets `showOnboarding = !onboarded`; saved entries are cut to `timestamp >= startOfToday`; saved history replaces the history; absent records leave their slot alone |
| `Tracker.App.AddWater` | src/App.tsx:162-179 | appends the entry and upserts today's record; the total and today's record each grow by the amount; unique dates and ledger consistency are preserved; with a positive goal and a non-negative amount the ring value does not go down; profile and gate unchanged |
| `Tracker.App.HandleOnboarding` | src/App.tsx:184-196 | stores the onboarding profile with goal = weight * 35 and hides onboarding; entries and history unchanged |
| `Tracker.App.ToggleReminders` | src/App.tsx:390 | only the profile changes, through the reminders updater |
| `Tracker.App.SetLanguage` | src/App.tsx:415 | only the profile changes, through the language updater |
| `Tracker.App.SetWeight` | src/App.tsx:442-445 | only the profile changes, through the weight updater |
| `Tracker.FirstSession` | src/App.tsx:181-196 | onboarding at 70 kg gives 2450 ml; 250 ml then 500 ml make 750 ml, short of the goal, and the ring shows 75000/2450 (about 30.6%) |

## Left out

- Browser storage is not modelled. This covers `localStorage` reads and writes, `JSON.parse`/`JSON.stringify`, and the save effects (src/App.tsx:88-136). `Load` takes the already-decoded records, and a malformed record is not modelled.
- The reset button (`localStorage.clear()` and `window.location.reload()`, src/App.tsx:457-461) is browser I/O and is not modelled.
- Hourly reminder notifications (`Notification`, `setInterval`/`clearInterval`, src/App.tsx:139-160) are timers and browser APIs. Only the `remindersEnabled` flag they read is modelled.
- `Math.random` is replaced by parameters: ids are passed in, and the motivational message choice is left out.
- date-fns `format`, `subDays` and `startOfDay` and the locales (src/App.tsx:22-23, 77-84) are replaced by integer day indices, `DayKeys.DayKey` and a `startOfToday` parameter. The model does not tie a timestamp to its calendar day.
- Weights and milliliters are integers. A fractional or non-numeric weight typed into the settings field (`Number(e.target.value)`) is not modelled. The zero weight of an emptied field is modelled.
- `Views.Percent` keeps a finite quotient as an exact fraction. Double-precision rounding of `(total / goal) * 100` is not modelled, and neither is `Math.round` in the ring's label.
- The rendering is not modelled: JSX, `motion` animations, `NavButton`, tab switching, the dark-mode theme and its class toggling.
- The `TRANSLATIONS` and `MOTIVATIONAL_MESSAGES` tables and the `t` and `getLocale` lookups are string tables and are not modelled.
- `cn` (src/types.ts:4-6) and src/main.tsx are styling and mounting code.
- Recomputing a day's total from its entries, and rejecting an empty name or a non-positive weight in the onboarding and weight handlers, would be sturdier designs. The code instead adds to the stored total, and its handlers do not validate. The model follows the code. The onboarding screen's own guards are modelled in `OnboardingFlow`.
