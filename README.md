# GlowUp 30-day programme — a Dafny model

GlowUp is a skincare coaching web application. A user signs in and uploads a
photo. The app shows a simulated skin analysis and then guides the user
through a 30-day routine. This project models the logic of the app's single
page component, `GlowUpApp`, and proves properties of it:

- **Start date.** The start date lives in the browser's local storage under
  `glowup_start_date`. The first write wins: a stored date is kept and used.
  If no date is stored, today's date is written.
- **Current day.** The day effect computes
  `min(ceil(|now − start| / 86 400 000), 30)` from integer millisecond
  timestamps.
- **Unlocking and navigation.** A day is unlocked when it is `<= currentDay`.
  There are three controls: "Dia Anterior" (previous day), "Próximo Dia"
  (next day) and the week-overview tiles.
- **Catalogue indexing.** This covers the week number `ceil(currentDay / 7)`,
  the week slice of the catalogue, and the lookup `routines[currentDay - 1]`.
  The shipped catalogue holds two entries.
- **Analysis stages.** The run goes `upload → analyzing → results`. The
  progress bar goes 0, 20, 40, 60, 80, 100. An exception sends the step back
  to `upload`.
- **Badges.** Four badges have thresholds on the number of completed days.

Files and modules:

- `js.dfy` (`Js`): the JavaScript built-ins the code relies on, over
  unbounded integers.
- `calendar.dfy` (`Calendar`): the day calculation.
- `catalogue.dfy` (`Catalogue`): the routine table, the week number and the
  week tiles.
- `navigation.dfy` (`Navigation`): the unlock predicate, and the navigation
  handlers as functions of `currentDay`.
- `analysis.dfy` (`Analysis`): the stage and progress sequence.
- `badges.dfy` (`Badges`): the badge thresholds.
- `app.dfy` (`App`): a class `GlowUpApp`. It holds the React state that the
  effects and handlers update: the storage map, `startDate`, `currentDay`,
  `step`, `progress`, `analysis` and `userId`. Each method is proved against the
  specification functions of the other modules.

Inputs from outside the component are parameters:

- the clock, as `nowMs`, and the ISO date string `today`;
- the parsed start date, as `startMs`;
- the contents of local storage, as a map;
- the saved analysis that the database returns;
- the point at which `analyzeImage` throws, as a `Fault`.

### What the code does at its edges

The model follows the code as written. Five behaviours stand out against the
intent the page itself states. That intent is a 30-day routine (the comment
"Rotina de 30 dias" at `src/app/page.tsx:189`), days shown as
"Dia {currentDay} de 30" (`:554`), and weeks shown as "Semana {weekNumber} de 4" (`:553`).

- **Day 0 at the start instant.** The day is the rounded-up number of elapsed
  days, with no `+ 1`. So the exact start instant gives day 0, on which the
  routine screen cannot render (see "Two catalogue entries"). Every later
  instant of the first day gives day 1. The stored
  date is parsed as UTC midnight, so day 0 occurs only at that exact
  millisecond (`Calendar.ResolveDayCalendarDays`).
- **Clock before the start.** The elapsed time goes through `Math.abs`. An
  instant before the start therefore resolves to the same day as the equally
  distant instant after it (`Calendar.ResolveDayMirror`).
- **"Próximo Dia" never acts.** Its guard tests `currentDay + 1 <= currentDay`,
  so the button is always disabled and its handler never changes the day.
  From day 1 or above, no control raises the current day
  (`Navigation.NextNeverFires`, `Navigation.ReachableDays`).
- **Weeks.** Days 29 and 30 fall in week 5, although the header says "de 4"
  (`Catalogue.CurrentWeekRange`).
- **Two catalogue entries.** The routine table holds only days 1 and 2. So
  `routines[currentDay - 1]` is `undefined` on day 0 and from day 3 on
  (`Catalogue.ShippedLookupDefinedExactly`). The routine screen opens on its
  `"routine"` tab (`:79`, `:613`), and that tab reads `currentRoutine.title`
  (`:620`). On those days the render therefore throws a `TypeError`, and the
  routine screen, which carries all three navigation controls (`:679-745`),
  does not appear. `currentDay` is computed once per mount, and no control
  can raise it. So on those days the user never sees the controls.
  `Navigation.RunStaysInRange` and `Navigation.ReachableDays` state what the
  handlers do from any day. From day 3 on, they describe handlers the real
  screen never shows.

## Model

| member | source | states |
|---|---|---|
| `Js.Abs` | src/app/page.tsx:173 | `Math.abs(x)` is a non-negative value equal to `x` or `-x` |
| `Js.Min` | src/app/page.tsx:175 | `Math.min(a, b)` is at most both arguments and equal to one of them |
| `Js.Max` | src/app/page.tsx:681 | `Math.max(a, b)` is at least both arguments and equal to one of them |
| `Js.CeilDiv` | src/app/page.tsx:174 | `Math.ceil(n / d)` is the least `q` with `n <= d*q`: `d*(q-1) < n <= d*q` |
| `Js.Slice` | src/app/page.tsx:716 | `slice` normalises both bounds as JavaScript does (a negative bound counts from the end; both are clamped to the length). The result holds `max(0, e - b)` elements, namely `s[b], s[b+1], ...`. For in-range bounds it equals `s[begin..end]` |
| `Calendar.ElapsedDays` | src/app/page.tsx:171-174 | elapsed days are 0 exactly when now equals start, and otherwise lie in the window `((days-1)·86400000, days·86400000]` of `|now − start|` |
| `Calendar.ResolveDay` | src/app/page.tsx:169-178 | the resolved day never exceeds 30 |
| `Calendar.ResolveDayZeroOnlyAtStart` | src/app/page.tsx:173-175 | the resolved day is 0 exactly when now equals start, and at least 1 otherwise |
| `Calendar.ResolveDayWindow` | src/app/page.tsx:173-175 | below the cap, the resolved day `d` is the one whose window `((d-1) days, d days]` holds the elapsed time |
| `Calendar.ResolveDayMirror` | src/app/page.tsx:173 | an instant `e` ms before the start resolves to the same day as the instant `e` ms after it |
| `Calendar.ResolveDayMonotone` | src/app/page.tsx:171-175 | for `start <= now1 <= now2`, the day at `now1` is at most the day at `now2` |
| `Calendar.ResolveDayCapped` | src/app/page.tsx:175 | the day is 30 if and only if more than 29 days have elapsed, in either direction |
| `Calendar.ResolveDayCalendarDays` | src/app/page.tsx:171-175 | for `now >= start`, the day is `min(k+1, 30)` strictly inside calendar day `k+1`, and only `min(k, 30)` at the exact instant `k` whole days have elapsed |
| `Calendar.ResolveDayExamples` | src/app/page.tsx:169-178 | start → 0; start+1 ms → 1; 14 days → 14; 14 days + 1 ms → 15; 45 days → 30; one day before → 1 |
| `Catalogue.Routines` | src/app/page.tsx:190-274 | the shipped catalogue has exactly two entries |
| `Catalogue.RoutinesWellIndexed` | src/app/page.tsx:190-274 | entry `i` of the shipped catalogue describes day `i + 1` |
| `Catalogue.RoutineAt` | src/app/page.tsx:544 | `routines[currentDay - 1]` is defined if and only if `1 <= currentDay <= length`; the value is a catalogue entry, and in a well-indexed catalogue it is the entry for `currentDay` |
| `Catalogue.ShippedLookupDefinedExactly` | src/app/page.tsx:544 | over the shipped catalogue, the lookup is defined for days 1 and 2 and for no other day |
| `Catalogue.CurrentWeek` | src/app/page.tsx:349 | the week `w` satisfies `7(w-1) < currentDay <= 7w` |
| `Catalogue.CurrentWeekRange` | src/app/page.tsx:349 | for days 1..30 the week is in 1..5, and it is 5 exactly for days 29 and 30, although the header reads "de 4" |
| `Catalogue.CurrentWeekOfDay` | src/app/page.tsx:349 | a day lies in week `w` if and only if it is in `(7(w-1), 7w]` |
| `Catalogue.WeekTiles` | src/app/page.tsx:716 | the week overview shows at most 7 tiles, each one a catalogue entry |
| `Catalogue.WeekTilesAreTheWeek` | src/app/page.tsx:716 | in a well-indexed catalogue, every tile shown is a catalogue day of the current week, and every catalogue day of that week is shown |
| `Catalogue.ShippedWeekTiles` | src/app/page.tsx:716 | with the shipped catalogue, week 1 shows both entries and weeks 2 to 5 show none |
| `Navigation.UnlockBoundary` | src/app/page.tsx:357-359 | `isDayUnlocked(d)` holds if and only if `d <= currentDay`; the current day is unlocked and the next one never is |
| `Navigation.IsDayUnlocked` | src/app/page.tsx:357-359 | a day is unlocked when it is not after the current day (stated by `Navigation.UnlockBoundary`) |
| `Navigation.PreviousDisabled` | src/app/page.tsx:682 | "Dia Anterior" is disabled exactly on day 1 |
| `Navigation.NextDisabled` | src/app/page.tsx:695 | "Próximo Dia" is disabled on day 30 or when the next day is locked (always, by `Navigation.NextNeverFires`) |
| `Navigation.PreviousEnabledMoves` | src/app/page.tsx:681-682 | where "Dia Anterior" is disabled, its handler would change nothing; where it is enabled above day 1, it steps back one day; on day 0 it is enabled and raises the day to 1 |
| `Navigation.NextNeverFires` | src/app/page.tsx:688-709 | "Próximo Dia" is disabled in every state, and its handler leaves `currentDay` unchanged |
| `Navigation.PreviousStepsBack` | src/app/page.tsx:680-682 | "Dia Anterior" moves from `d > 1` to `d - 1`, and from any `d <= 1` (including 0) to 1 |
| `Navigation.Navigate` | src/app/page.tsx:679-722 | the handlers of "Dia Anterior" (`:681`), "Próximo Dia" (`:689-694`) and a week tile (`:721`). "Próximo Dia" leaves the day unchanged. From a day `>= 1`, no control raises the current day or takes it below 1 |
| `Navigation.RunStaysInRange` | src/app/page.tsx:679-722 | from a day `>= 1`, no sequence of clicks ends above the starting day or below 1 |
| `Navigation.RunPrevious` | src/app/page.tsx:681 | pressing "Dia Anterior" `k` times from day `d >= 1` ends on `max(1, d - k)` |
| `Navigation.ReachableDays` | src/app/page.tsx:679-722 | from day `d >= 1`, the days some sequence of clicks reaches are exactly 1..`d` |
| `Analysis.SimulatedResult` | src/app/page.tsx:299-302 | the fixed analysis payload has a score within 0..10 (held in tenths) |
| `Analysis.Intervals` | src/app/page.tsx:293 | there are five checkpoints, `20·(i+1)` for `i` in 0..4, ending at 100 |
| `Analysis.ProgressWrites` | src/app/page.tsx:291-296 | the progress writes are a reset to 0 followed by one write per checkpoint reached, the `i`-th being `20·i` |
| `Analysis.CompletesStores` | src/app/page.tsx:323-338 | every run ending in `results` has stored the result first; the only run that stores and still ends in `upload` is one whose save throws while a user is signed in |
| `Analysis.StepWrites` | src/app/page.tsx:288-343 | a run writes `analyzing` and then `results` if it completes; if it throws, it writes `upload`. A throwing save (`:327-335`) counts only when a user is signed in (`:326`) |
| `Analysis.ProgressWritesShape` | src/app/page.tsx:291-297 | progress is reset to 0 and then rises strictly within 0..100. It ends at 100 exactly when every checkpoint is reached. A run that gets as far as storing the result writes 0, 20, 40, 60, 80, 100 |
| `Badges.Threshold` | src/app/page.tsx:878-892 | each badge threshold lies in 7..30 |
| `Badges.Earned` | src/app/page.tsx:878-892 | a badge depends on `completedDays` alone: none is earned below 7 days and all are earned from 30 |
| `Badges.AllBadges` | src/app/page.tsx:877-893 | the grid lists four badges in strictly increasing threshold order |
| `Badges.EarnedBadges` | src/app/page.tsx:878-892 | a badge is lit if and only if `completedDays` reaches its threshold; the lit badges are a prefix of the grid |
| `Badges.BadgesNested` | src/app/page.tsx:878-892 | the 30-day badge implies the 21-day badge, which implies the 15-day badge, which implies the first-week badge |
| `Badges.EarnedMonotone` | src/app/page.tsx:878-892 | more completed days never remove a badge |
| `App.InitStore` | src/app/page.tsx:157-166 | the key then holds the date used; a missing or empty stored date is replaced by today; a non-empty stored date leaves the store unchanged; no other key changes |
| `App.StartDateMissing` | src/app/page.tsx:158-159 | a start date counts as missing when the key is absent or holds the empty string, as `!savedStartDate` does (used by `App.InitStore`) |
| `App.InitStoreFirstWriteWins` | src/app/page.tsx:158-165 | after one start-up, a later start-up with any date changes neither the store nor the date used |
| `App.GlowUpApp.constructor` | src/app/page.tsx:70-81 | the initial state: step `upload`, progress 0, no analysis, day 1, no start date, no user, and the store as found |
| `App.GlowUpApp.InitStartDate` | src/app/page.tsx:157-166 | the new store and start date are those given by `InitStore`; the stored date and `startDate` stay in agreement |
| `App.GlowUpApp.RecalculateDay` | src/app/page.tsx:169-178 | when a start date is set, `currentDay` becomes `ResolveDay(startMs, nowMs)`; otherwise it is unchanged; it stays in 0..30 |
| `App.GlowUpApp.CurrentRoutine` | src/app/page.tsx:544 | the current routine exists if and only if `currentDay` is 1 or 2, and its `day` is `currentDay` |
| `App.GlowUpApp.PreviousDay` | src/app/page.tsx:680-682 | `currentDay` becomes `max(1, currentDay - 1)`; nothing else changes |
| `App.GlowUpApp.NextDay` | src/app/page.tsx:688-695 | the handler follows its guard and leaves `currentDay` unchanged |
| `App.GlowUpApp.ClickTile` | src/app/page.tsx:716-722 | a click moves to the tile's day only when it is unlocked; from a day `>= 1` the result lies in 1..old day |
| `App.GlowUpApp.LoadSavedAnalysis` | src/app/page.tsx:107-133 | a saved analysis is installed and the step becomes `results`; with none, nothing changes |
| `App.GlowUpApp.SetUser` | src/app/page.tsx:98-99 | the authentication effect records the user's id |
| `App.GlowUpApp.AnalyzeImage` | src/app/page.tsx:288-343 | the progress and step writes are `ProgressWrites(fault)` and `StepWrites(fault, userId != "")`. Progress ends at the last checkpoint reached. The result is stored exactly when the run gets past `setAnalysis` (`:323`), including when the later save throws and the step returns to `upload`. `results` implies a stored analysis |
| `App.FirstLaunch` | src/app/page.tsx:157-178 | on a first launch, the day effect later on the start's UTC day puts the user on day 1 with its routine. A second start-up with any date keeps the date written |

## Left out

- `Calendar.ResolveDay` and `App.GlowUpApp.RecalculateDay` take `startMs` as a parameter. Parsing the stored date with `new Date(...)` is not modelled, nor is the `NaN` an unparsable stored value would give.
- Timestamps are unbounded integers. `Math.ceil` of a double quotient is exact for realistic timestamps (below 2^53 ms), so the model uses exact integer ceiling division.
- Formatting today's date with `toISOString` is not modelled: `today` is a parameter.
- Local storage is a map. Its persistence across sessions is the map passed to the constructor.
- `App.GlowUpApp.AnalyzeImage` runs atomically. The 800 ms `setTimeout` pauses are not modelled, nor are other handlers interleaving between them.
- `App.GlowUpApp.AnalyzeImage`: the network effect of the best-effort `saveSkinAnalysis` call is not modelled, nor is the stale `selectedImage` that the analysis closure captures. Only a synchronous throw from that call is modelled (`SaveThrows`).
- `App.GlowUpApp.AnalyzeImage`: the `ThrowAfter` faults are exceptions inside the timed loop or at `setAnalysis`. React's setters and the `setTimeout` promise do not throw in practice, so these paths model what the `catch` would do if they did.
- `App.GlowUpApp.SetUser`: the rest of the authentication effect is not modelled (see below).
- Reading the uploaded file with `FileReader` is not modelled. Its completion is the call to `AnalyzeImage`.
- `Catalogue.DayRoutine` omits the product, technique and cleansing texts, which are display content.
- The recommendation texts of the analysis payload are left out, for the same reason.
- `Navigation.Offered` requires only that a tile's day is at least 1. That is what every tile drawn from a well-indexed catalogue carries. `App.GlowUpApp.ClickTile` restricts clicks to the tiles actually shown.
- Authentication, profile creation and sign-out are not modelled: they are calls into an external identity and data service. So are loading the challenges and progress rows, and the completed-day and streak counts. `getCompletedDaysCount` and `getCurrentStreak` are not part of this model, so completion counting and streaks are absent. The badges take `completedDays` as an input.
- The percentage and "expected improvement" displays are not modelled: they use floating-point division and `Math.round`.
- JSX rendering, switching screens and tabs, and the video modal are not modelled. Neither is the login page's mode toggle.
