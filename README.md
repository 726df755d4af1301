# FemCycle core in Dafny

A Dafny model of the logic of a menstrual-cycle tracker that runs as a
Telegram web app. The user keeps one log per day (flow, moods, symptoms,
sleep, notes and more) and a small settings record (last period date,
average cycle and period lengths, goal). From these the app derives:

- the current cycle phase and the fertile window;
- calendar predictions (predicted period, ovulation, fertile, luteal and
  follicular days);
- a mood frequency chart;
- a filtered list of articles.

The model is organised by source file:

| module | file | models |
|---|---|---|
| `Types` | types.dfy | the log, settings and phase records, the enums, translation tables and symptom catalogue (`types.ts`) |
| `Sequences` | sequences.dfy | the subsequence relation the two list filters are specified with |
| `Utils` | utils.dfy | date helpers, the JavaScript remainder, `calculateCyclePhase`, the two predictors (`utils.ts`) |
| `App` | app.dfy | the global store (`updateSettings`, `addLog` with cycle-start detection, `resetData`) as a class, and `getActiveTab` (`App.tsx`) |
| `Calendar` | calendar.dfy | `getDayStatus`, `getMoods`, `getSexLabel` (`pages/CalendarPage.tsx`) |
| `Onboarding` | onboarding.dfy | the six-step wizard as a class: validation, next/back, the clamped steppers (`pages/OnboardingPage.tsx`) |
| `LogForm` | logform.dfy | the day-log editor as a class: default form, `update`, `toggleSymptom`, guarded save (`pages/LogPage.tsx`) |
| `Insights` | insights.dfy | `moodData` as a method with nested loops over a counting dictionary, proved equal to a specification function; the constant `cycleData` (`pages/InsightsPage.tsx`) |
| `Advice` | advice.dfy | the category filter over the fixed article list (`pages/AdvicePage.tsx`) |

Dates are whole day numbers (`Day = int`). With them, `addDays` is addition
and the millisecond-based `Math.floor`/`Math.ceil` day differences are exact
subtractions. An empty date string is `None`. The current day is a
parameter (`today`). So is the day the pregnancy branch falls back to
(`clockDay`).

JavaScript's `%` truncates toward zero and Dafny's is Euclidean, so the
cycle arithmetic uses `Utils.JsRem`. Its contract pins the JavaScript
result: it has the sign of the dividend, is smaller than the divisor in
magnitude, and differs from the dividend by a multiple of it.

Facts about the code that shape the model:

- The cycle day uses JavaScript's truncating `%`. A last period date in the
  future gives a raw day of 1 or less, which is clamped to 1 for display
  only; the phase and the days until the next period still come from the
  unclamped value (`Utils.FutureLastPeriod`).
- The symptom catalogue has 17 entries (4 + 6 + 4 + 3) (`Types.SymptomsList`).
- The log page writes the legacy single `mood` field, not `moods`
  (`pages/LogPage.tsx:161`). It also writes a boolean `sex` through its
  switch. `DayLog` keeps both legacy shapes (`mood`, and
  `SexField.LegacyBool`), and the readers normalise them as the calendar
  and insights pages do.

## Model

| member | source | states |
|---|---|---|
| Types.SymptomsList | types.ts:115-132 | the flat catalogue is General, GI, Skin, Breasts in that order (each slice named), 17 entries |
| Types.FlowOrder | types.ts:2-7 | flow values are ordered None < Light < Medium < Heavy; "flow > None" is "flow >= Light" and "flow value > 0" is "not None" |
| Types.MoodTranslationTotal | types.ts:9-29 | every mood has a translation entry, and the eight mood names are distinct |
| Types.DischargeTranslationTotal | types.ts:38-54 | every discharge type has a translation entry |
| Types.PhaseTranslationTotal | types.ts:97-112 | every phase has a translation entry |
| Utils.JsRem | utils.ts:66 | JavaScript `%`: strictly between -abs(b) and abs(b), sign of the dividend (zero allowed), and dividend minus result divisible by the divisor |
| Utils.JsRemPeriodic | utils.ts:66 | for a non-negative dividend and positive divisor, adding one divisor leaves the remainder unchanged |
| Utils.AddDays | utils.ts:10-14 | the result lies exactly `n` days after `d` (negative `n` goes back) |
| Utils.GetDayDiff | utils.ts:16-21 | a non-negative count of days that takes one date to the other in some direction |
| Utils.IsFutureDate | utils.ts:23-28 | a date is in the future exactly when it lies a positive number of days after today |
| Utils.AddDaysCompose | utils.ts:10-14 | adding `a` then `b` days is adding `a + b` days |
| Utils.DayDiffSymmetric | utils.ts:16-21 | the day difference is symmetric, zero for equal dates, and abs(n) between `d` and `d + n` |
| Utils.PredictNextPeriod | utils.ts:95-97 | the predicted next period lies abs(cycle length) days from the last one, and after it for a positive length |
| Utils.PredictOvulation | utils.ts:99-104 | predicted ovulation is exactly 14 days before the given next period |
| Utils.PredictionRoundTrip | utils.ts:95-104 | ovulation predicted from the next period of `d` with cycle `n` is `d + n - 14` |
| Utils.RawDayInCycle | utils.ts:60-66 | on or after the last period date the raw cycle day lies in 1..abs(cycle length); on or before it, it is at most 1 |
| Utils.CalculateCyclePhase | utils.ts:32-93 | special phases exactly for the pregnancy/postpartum/menopause goals; pregnancy day = days since the last period (or the clock day) + 1; postpartum and menopause day 0; special goals have 0 days left and are not fertile; otherwise the day shown is at least 1; no last period date gives Follicular, day 1, 28 days left, not fertile |
| Utils.CycleDayWithinCycle | utils.ts:60-89 | from the last period date on, with a positive cycle length: 1 <= day <= cycle length and day + days left == cycle length |
| Utils.FertileWindow | utils.ts:72-85 | fertile exactly when the unclamped cycle day is in 10..17, whatever the phase |
| Utils.PhaseOfDay | utils.ts:69-80 | the phase label of a cycle day: Menstruation iff within the period length; past it, Ovulation iff 12..16, Luteal iff above 16, Follicular iff below 12 |
| Utils.PhasePrecedence | utils.ts:69-80 | each phase holds exactly under its precedence condition: up to the period length Menstruation, else 12..16 Ovulation, else above 16 Luteal, else Follicular |
| Utils.FutureLastPeriod | utils.ts:66-89 | a last period date after today shows day 1, leaves at least cycle length - 1 days, and is labelled Menstruation for a positive period length |
| Utils.PhasePeriodic | utils.ts:60-93 | from the last period date on, the whole phase result repeats every cycle length days |
| Utils.OvulationExample | utils.ts:60-93 | cycle 28, period 5, 14 days after the last period: day 15, Ovulation, 13 days left, fertile |
| App.Merge | App.tsx:70-72 | `{ ...prev, ...patch }`: for each of the ten fields, a supplied value overwrites and an absent one keeps the old value; the empty patch changes nothing |
| App.MergeLaws | App.tsx:70-72 | merging the same patch twice is merging it once; two merges equal one merge of the combined patch |
| App.MergeFullPatch | App.tsx:70-72 | a patch supplying every field determines the result regardless of the prior settings |
| App.NextLastPeriodDate | App.tsx:80-96 | a log without flow never changes the last period date |
| App.CycleStartRule | App.tsx:80-96 | a flow log replaces a known last period date exactly when it is at least 21 days later (or the same day); a flow log less than 21 days after it, or before it, keeps it; with no date known, the flow day becomes it |
| App.LastPeriodMonotone | App.tsx:80-96 | a known last period date is never cleared and never moves backward; the new value is the old one or the log date |
| App.LastPeriodMonotoneOverLogs | App.tsx:74-97 | over any sequence of logs the known last period date only moves forward |
| App.AppStore.constructor | App.tsx:33-43 | the store starts from the default settings and no logs |
| App.AppStore.UpdateSettings | App.tsx:70-72 | settings become the merge of the old settings with the patch; logs unchanged |
| App.AppStore.AddLog | App.tsx:74-97 | the log is stored under its date and every other date keeps its entry; the settings change only in the last period date, by the cycle-start rule; no-flow logs leave settings alone; a known last period date never decreases |
| App.AppStore.ResetData | App.tsx:99-104 | default settings (not onboarded, cycle 28, period 5, no last period date, not pro) and no logs |
| App.AppStore.CurrentPhase | App.tsx:106 | the phase shown for today; for non-special goals its day is at least 1 |
| App.GetActiveTab | App.tsx:146-149 | the path without its first character, or `home` when that leaves nothing; never empty |
| Calendar.CycleDay | pages/CalendarPage.tsx:38 | for a date after the last period start, the predicted cycle day lies in 1..abs(cycle length) |
| Calendar.GetDayStatus | pages/CalendarPage.tsx:21-48 | a logged day shows `period` with its flow or `logged`, never a prediction; an unlogged day shows a prediction or nothing; nothing without a last period date or on/before it |
| Calendar.PredictForCycleDay | pages/CalendarPage.tsx:39-45 | every whole cycle day gets a prediction: period iff within the period length; past it, ovulation iff day 14, fertile iff 10..17 but not 14, luteal iff above 17, follicular iff below 10 |
| Calendar.PredictionAfterStart | pages/CalendarPage.tsx:37-46 | an unlogged day after the last period start always gets a prediction; its cycle day is in 1..cycle length; predicted period iff day <= period length; otherwise ovulation iff day 14, fertile iff 10..17 and not 14, luteal iff above 17, follicular iff below 10 |
| Calendar.LogsTakePrecedence | pages/CalendarPage.tsx:23-27 | a logged day's status does not depend on the settings |
| Calendar.PredictionPeriodic | pages/CalendarPage.tsx:34-46 | unlogged days `d` and `d + cycle length` after the last period start get the same status |
| Calendar.LogMoods | pages/CalendarPage.tsx:113-116 | `moods` when present, else the legacy single `mood` as a list, else none |
| Calendar.GetMoods | pages/CalendarPage.tsx:110-117 | an unlogged date has no moods; a logged one has its log's normalised moods |
| Calendar.GetSexLabel | pages/CalendarPage.tsx:120-127 | a label exactly for a logged Protected, Unprotected or legacy `true`, null otherwise; labels are non-empty |
| Calendar.SexLabelsDistinct | pages/CalendarPage.tsx:123-125 | equal labels come from equal sex states |
| Onboarding.Trim | pages/OnboardingPage.tsx:26 | `trim`: a slice of the input between two runs of JavaScript white space, starting and ending with a non-white-space character, empty exactly for an all-white-space input |
| Onboarding.StepValidity | pages/OnboardingPage.tsx:24-34 | step 1 valid iff the name has a non-white-space character and age is in 13..55; step 2 iff a last period date is set and not after today; 3 iff cycle in 21..45; 4 iff period in 1..8; 5 always (a goal is always chosen); 6 iff consent; no other step is valid |
| Onboarding.Wizard.IsValid | pages/OnboardingPage.tsx:24-34 | only steps 1..6 can be valid; the goal step always is; while the steppers keep their ranges, the cycle and period steps always are (each step's rule in full: `StepValidity`) |
| Onboarding.Wizard.constructor | pages/OnboardingPage.tsx:11-21 | step 1, empty name, age and date, cycle 28, period 5, goal track, no consent |
| Onboarding.Wizard.FinishPatch | pages/OnboardingPage.tsx:49-58 | the final patch supplies the name, the age as `Number(age)` (0 for an empty age), the last period date, the lengths, the goal, consent and `isOnboarded = true`, and nothing else |
| Onboarding.Wizard.HandleNext | pages/OnboardingPage.tsx:37-60 | an invalid step changes nothing; a valid step below 6 advances by one; the valid last step merges the finish patch into the settings, marking the user onboarded; the form and the logs never change; step stays in 1..6 |
| Onboarding.Wizard.HandleBack | pages/OnboardingPage.tsx:62-65 | one step back, never below 1 |
| Onboarding.Wizard.DecCycleLen | pages/OnboardingPage.tsx:192 | cycle length minus one, not below 21: one press of the clamped stepper (`Press`) |
| Onboarding.Wizard.IncCycleLen | pages/OnboardingPage.tsx:197 | cycle length plus one, not above 45: one press of the clamped stepper (`Press`) |
| Onboarding.Wizard.DecPeriodLen | pages/OnboardingPage.tsx:213 | period length minus one, not below 1: one press of the clamped stepper (`Press`) |
| Onboarding.Wizard.IncPeriodLen | pages/OnboardingPage.tsx:218 | period length plus one, not above 8: one press of the clamped stepper (`Press`) |
| Onboarding.Wizard.SetName | pages/OnboardingPage.tsx:145 | the name input sets the name |
| Onboarding.Wizard.SetAge | pages/OnboardingPage.tsx:155 | the age input sets the age (empty as none) |
| Onboarding.Wizard.SetLastPeriod | pages/OnboardingPage.tsx:176 | the date input sets the last period date (empty as none) |
| Onboarding.Wizard.SetGoal | pages/OnboardingPage.tsx:242 | a goal card sets the goal |
| Onboarding.Wizard.SetConsent | pages/OnboardingPage.tsx:276 | the checkbox sets consent |
| Onboarding.StepperClamp | pages/OnboardingPage.tsx:192-218 | any run of the single presses the four stepper methods make, from a value in range, stays in range |
| LogForm.SetField | pages/LogPage.tsx:76-79 | `{ ...prev, [field]: value }`: the named property holds the given value, and every other property agrees with the old log |
| LogForm.SetFieldIdle | pages/LogPage.tsx:76-79 | writing a property's current value back changes nothing |
| LogForm.SetFieldOverride | pages/LogPage.tsx:76-79 | a second write to the same property overrides the first |
| LogForm.SetFieldCommute | pages/LogPage.tsx:76-79 | writes to two different properties commute |
| LogForm.DefaultLog | pages/LogPage.tsx:16-30 | the form for an unlogged date: its date, no flow, no symptoms, sleep 8, water 4, pain 0, empty notes, no moods, sex off |
| LogForm.ExistingLog | pages/LogPage.tsx:16-30 | a logged date starts from its log, an unlogged one from the default form |
| LogForm.RemoveAll | pages/LogPage.tsx:70 | every occurrence of the symptom is gone, every other element keeps its count and order; an absent symptom leaves the list as it was |
| LogForm.Toggle | pages/LogPage.tsx:69-71 | a present symptom is removed everywhere, order kept; an absent one is appended at the end |
| LogForm.ToggleLaws | pages/LogPage.tsx:69-71 | toggling an absent symptom twice restores the list; toggling keeps a duplicate-free list duplicate-free |
| LogForm.RemoveAllAppend | pages/LogPage.tsx:69-71 | removing a symptom just appended to a list without it restores the list |
| LogForm.SaveAllowed | pages/LogPage.tsx:51-58 | a form may be saved exactly when its notes have at most 500 characters and its sleep is at most 24 hours |
| LogForm.SexSwitch | pages/LogPage.tsx:326 | the switch writes a boolean, the negation of the current value's truthiness |
| LogForm.LogEditor.constructor | pages/LogPage.tsx:14-34 | the form starts from the existing log or the default, not dirty, quick view |
| LogForm.LogEditor.Update | pages/LogPage.tsx:76-79 | the form becomes the old form with the one property set: that property holds the given value, every other one keeps its old value; the form is dirty |
| LogForm.LogEditor.ToggleSymptom | pages/LogPage.tsx:65-74 | only the symptom list changes, by the toggle; the form is dirty |
| LogForm.LogEditor.SetViewMode | pages/LogPage.tsx:94-100 | the view switch sets the mode |
| LogForm.LogEditor.HandleSave | pages/LogPage.tsx:51-63 | nothing is stored when the notes exceed 500 characters or sleep exceeds 24 hours; otherwise the form is stored under the page's date through `addLog`, with its cycle-start rule |
| Insights.CycleChart | pages/InsightsPage.tsx:12-20 | five entries |
| Insights.CycleChartIgnoresLogs | pages/InsightsPage.tsx:12-20 | the cycle chart is the same constant whatever the logs |
| Insights.AllMoodsCounts | pages/InsightsPage.tsx:25-31 | every mood entry of every log (legacy single mood included) is counted, as often as it occurs |
| Insights.AllMoodsFrom | pages/InsightsPage.tsx:25-31 | a mood is counted only when some log carries it |
| Insights.MoodChart | pages/InsightsPage.tsx:22-40 | the specification of `moodData`: with a mood logged, one bar per distinct mood, each naming a logged mood (counts and totals in `MoodChartCounts`) |
| Insights.Dedup | pages/InsightsPage.tsx:30-39 | the dictionary's key order: exactly the moods of the input, each once |
| Insights.CountMoods | pages/InsightsPage.tsx:29-31 | counting one log's moods extends the tally: the dictionary holds each mood counted so far with its number of occurrences, and the key order is first occurrence |
| Insights.MoodData | pages/InsightsPage.tsx:22-40 | the nested counting loops produce exactly the specification chart: the mock when nothing is counted, else one bar per distinct mood in first-occurrence order with its count |
| Insights.TallyBars | pages/InsightsPage.tsx:39 | on a tally, the bars read from the dictionary in key order are the specification bars: one per distinct counted mood with its number of occurrences |
| Insights.MoodChartCounts | pages/InsightsPage.tsx:24-39 | with a mood logged: each bar's value is the number of times its mood occurs across all logs (legacy moods included), positive, colour `#B9A2E1`; bars name distinct moods, every logged mood has a bar; values sum to the number of mood entries |
| Insights.MoodChartEmpty | pages/InsightsPage.tsx:27-38 | when no log carries a mood, the chart is the mock (Happy 5, Sad 2, Irritable 3) |
| Insights.TotalAdd | pages/InsightsPage.tsx:30-39 | counting one more entry raises the sum of the bars over distinct keys by one exactly when the entry is a key |
| Insights.TotalOfDedup | pages/InsightsPage.tsx:30-39 | bars over the distinct moods of a list count every entry once: their values sum to its length |
| Advice.OfCategory | pages/AdvicePage.tsx:20 | exactly the articles of the category, as a subsequence of the list (order kept) |
| Advice.OfCategoryCounts | pages/AdvicePage.tsx:20 | each article of the category is kept as often as it occurs, every other article is dropped; with the order kept this fixes the result |
| Advice.Filtered | pages/AdvicePage.tsx:7-20 | the "all" chip gives the whole list in order; a mapped chip gives exactly the articles of its category, order kept; an unmapped chip gives nothing |
| Advice.PmsChip | pages/AdvicePage.tsx:6-20 | the PMS chip lists articles 1 and 5 |
| Advice.NutritionChip | pages/AdvicePage.tsx:6-20 | the nutrition chip lists article 4 |
| Advice.FitnessChip | pages/AdvicePage.tsx:6-20 | the sport chip lists article 2 |
| Advice.SleepChip | pages/AdvicePage.tsx:6-20 | the sleep chip lists article 3 |
| Advice.ArticleUnderOwnChip | pages/AdvicePage.tsx:6-20 | each article's label chip maps to its category and lists it |
| Advice.ChipsPartitionArticles | pages/AdvicePage.tsx:6-20 | the four category chips together list as many articles as the "all" chip, so with the lemma above they partition it |

## Left out

- The cycle-reconstruction and analytics engine: only its result types are in the code (`types.ts:134-156`), so there is nothing to model.
- The clock and time zones. `new Date()` becomes the `today` and `clockDay` parameters. The local-time `setDate` versus UTC `toISOString` mismatch in the date helpers is not modelled, and neither is the parsing of invalid date strings (`Invalid Date`, `NaN`).
- Utils.CalculateCyclePhase: requires a non-zero cycle length on the branch that divides by it; the source then computes with `NaN`, which the model does not represent.
- App.AppStore.CurrentPhase: requires the same non-zero cycle length, although the settings page can store 0 (`Number('')` of a cleared field, `pages/SettingsPage.tsx:59`) and the app then shows Follicular, day 1 and `NaN` days left; that state is not modelled.
- Utils.CalculateCyclePhase: the pregnancy fallback uses a whole clock day. The source measures from the current instant and floors, which can give one day less.
- Telegram integration and haptics (main/back buttons, alerts, haptic feedback): calls into the host app.
- `localStorage` persistence, the load on mount, the save effects, and the `localStorage.clear()`/`reload()` in `resetData`: I/O. `resetData` is modelled on the in-memory state only.
- React batching and stale closures: `addLog` reads `settings` from its render closure. The model applies every update at once and in order.
- `parseFloat` of sleep, temperature and weight, and `NaN` inputs: these are modelled as `real` values already parsed. `parseInt` of the age is modelled as an optional integer.
- LogForm.SaveAllowed: counts the notes in characters; the source's `length` counts UTF-16 code units.
- Onboarding.Wizard.FinishPatch: `Number('')` for an empty age is modelled as age 0, and an age that is not an integer is not modelled.
- The calendar's month grid (`renderDays`) and month/year navigation: markup and `Date` construction from the clock, with no logic beyond `getDayStatus`.
- The settings page, `components/CycleRing.tsx` (floating-point geometry; its 10–16 fertile arc is not reconciled with the 10–17 window), the home page rendering, the charts and locale date formatting: presentation.
- The article images, read times and lock badges are carried as data only.
- Insights.MoodData: the order of the logs is a parameter (`Object.values(logs)`); the store's key-insertion order, which decides the order of the bars, is not modelled, since `AppStore.logs` is an unordered map.
- Object key order in `moodData` is modelled as first-insertion order, which is what JavaScript uses for keys that are not array indices, as mood names are not.
