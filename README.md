# Rollout dashboard: metrics and forecast engine in Dafny

The dashboard tracks a Windows 11 upgrade rollout against a target of 346
machines. Its data is a spreadsheet of dated rows, each marked "SIM" (done)
or "NÃO" (scheduled). From that table it derives several numbers:

- the completed, scheduled and pending counts;
- calendar days since the rollout started;
- business days left until support ends;
- the current and required paces, and the projection at the current pace;
- the paces over the last 7, 14 and 21 days;
- a completion date at any daily throughput;
- the business days of extra effort that would close the remaining gap.

This project models that engine (`app.py`, lines 28-66) and proves what it
promises.

Modules, one per component:

- `BusinessDays` (`business_days.dfy`) covers numpy's `busday_count` and
  `busday_offset` with the default Monday-to-Friday week and no holidays.
  Dates are day numbers counted from 1970-01-01, numpy's `datetime64[D]`
  epoch, which was a Thursday. `busday_count` is signed and never counts
  the day of `end`: it counts `[begin, end)` when `begin <= end`. When
  `end < begin` it counts `(end, begin]` and negates the result, because
  numpy (from version 1.25) swaps the two ends and shifts both one day
  later.
  - `busday_offset` uses numpy's default `roll='raise'`. A start day that is
    not a business day gives the explicit result `NonBusinessDayError`.
  - The model proves several properties of the count:
    - it is exactly the set of Monday-to-Friday days;
    - it is additive over three days taken in one direction;
    - counting backwards differs from the negated forward count by the two
      end days;
    - any 7 days hold 5 business days.
  - The offset is a business day, it is exactly `n` business days away, no
    other business day is, and it undoes the count.
- `Events` (`events.dfy`) holds the cleaned rows (`Event(day, status)` with
  `Status = Done | Scheduled | Other`), the boolean-mask counts, the pending
  clamp and the count of recent completions.
- `Metrics` (`metrics.dfy`) holds the elapsed days, the current and required
  paces, the projection, one `Snapshot` of all of them (`Measure`), and the
  trailing-window loop. That loop is the method `RecentPaces`: it builds a
  map window by window, as the source's `for` loop fills `ritmos_recentes`.
- `Forecast` (`forecast.dfy`) holds `np.ceil` on rationals, the completion
  simulator `simular_data_conclusao_por_produtividade` and the forecast at
  the current pace. It also holds `dias_uteis_extra_para_compensar`, which
  returns `Option<nat>`: `None`, `Some(0)` or `Some(k)`, like Python's
  `None`, `0` or an `int`.
- `Scenarios` (`scenarios.dfy`) holds concrete cases:
  - the shipped calendar, 2025-07-07 to 2025-10-14, has 71 business days;
  - 346 − (100 + 50) = 196 pending;
  - 20 pending at 4 per day takes 5 business days;
  - the boundary cases of each forecast.

Inputs the source reads from outside become parameters:

- `today` is a parameter, where the source reads the wall clock.
- The target, start and end dates are a `Config` value. `Metrics.Shipped` holds
  the source's constants.
- The spreadsheet is a `seq<Event>` that is already cleaned.

The model follows the code as written in four places where a reader might expect otherwise:

- The remaining business days count `[today, end)`. That interval includes
  today and excludes the end date.
- The forecast at the current pace uses the calendar-day pace
  (`completed / elapsed days`) as a per-business-day throughput.
- After the support end date `busday_count(today, end)` is negative. The
  source still multiplies it by the current pace, so the projection falls
  below the completed count; `ProjectedTotal` states this.
- A weekend `today` makes `busday_offset` raise. The source catches nothing
  there, so `SimulateCompletion` and `ForecastAtCurrentPace` return
  `NonBusinessDayStart` whenever the throughput is positive and today is a
  Saturday or Sunday.

## Model

| member | source | states |
|---|---|---|
| `BusinessDays.BusdayCount` | app.py:34 | busday_count is between 0 and the span when end ≥ begin, and between −span and 0 when end < begin; `CountIsBusinessDaysIn` and `BusdayCountReversed` state which days it counts |
| `BusinessDays.CountIsBusinessDaysIn` | app.py:34 | the count over [a, b) equals the number of Monday-to-Friday days in [a, b) |
| `BusinessDays.CountSplit` | app.py:34 | counting [a, c) is counting [a, b) plus [b, c) |
| `BusinessDays.BusdayCountAdditive` | app.py:34 | busday_count(a, c) = busday_count(a, b) + busday_count(b, c) for a ≤ b ≤ c and for c ≤ b ≤ a |
| `BusinessDays.BusdayCountReversed` | app.py:34 | for a < b, busday_count(b, a) is minus the number of business days in (a, b]; it equals −busday_count(a, b), plus 1 if a is a business day, minus 1 if b is one |
| `BusinessDays.WeekHasFiveBusinessDays` | app.py:34 | any 7 consecutive days hold exactly 5 business days |
| `BusinessDays.WeeksHaveFiveBusinessDaysEach` | app.py:34 | k whole weeks hold exactly 5k business days |
| `BusinessDays.FirstBusinessDayFrom` | app.py:42 | the result is the first business day on or after d, at most two days later |
| `BusinessDays.Advance` | app.py:42 | advancing a business day gives a business day no earlier than the start |
| `BusinessDays.AdvanceCount` | app.py:42 | advancing n business days passes exactly n business days |
| `BusinessDays.BusdayOffset` | app.py:42 | busday_offset raises exactly when the start is not a business day; otherwise it returns a business day d' ≥ d with busday_count(d, d') = n |
| `BusinessDays.OffsetIsUnique` | app.py:57 | two business days on or after d with the same count from d are the same day |
| `BusinessDays.OffsetOfCount` | app.py:57 | busday_offset(d, busday_count(d, x)) = x for business days d ≤ x |
| `BusinessDays.AdvanceMonotone` | app.py:57 | more business days to advance give a strictly later date |
| `Events.CountWhere` | app.py:28-29 | a filtered row count never exceeds the number of rows |
| `Events.CountWhereIsRows` | app.py:28-29 | the filtered count is the number of row positions the filter selects |
| `Events.CountWhereMonotone` | app.py:50 | a filter that keeps no more rows counts no more |
| `Events.StatusesPartitionRows` | app.py:28-29 | done + scheduled + other rows = all rows |
| `Events.Completed` | app.py:28 | completed is exactly the number of rows whose status is "SIM" |
| `Events.ScheduledCount` | app.py:29 | scheduled is exactly the number of rows whose status is "NÃO" |
| `Events.Pending` | app.py:30-31 | pending is ≥ 0, brings completed + scheduled up to the target, and is 0 whenever the counts already reach it |
| `Events.CountDoneSince` | app.py:50 | the window count is exactly the number of "SIM" rows dated on or after the limit |
| `Events.DoneSinceMonotone` | app.py:46-51 | an earlier limit counts at least as many completions, and never more than all completions |
| `Metrics.ElapsedDays` | app.py:33 | elapsed days are ≥ 1 and ≥ today − start, and equal one of the two |
| `Metrics.CurrentPace` | app.py:36 | pace × elapsed days = completed; the pace is ≥ 0 and is 0 exactly when nothing is completed |
| `Metrics.RequiredPace` | app.py:37 | with business days left, pace × remaining = pending; with none left the pace is 0, never a division by zero |
| `Metrics.ProjectedTotal` | app.py:38 | with `remaining = 0` the projection is the completed count; with a non-negative pace and runway it never falls below it, and with a positive pace and runway it exceeds it; after the support end date (`remaining < 0`) a positive pace projects less than is already completed |
| `Metrics.ProjectionCoversPendingIffRequiredPace` | app.py:37-38 | with business days left, the projection reaches completed + pending exactly when the pace is at least the required pace |
| `Metrics.Measure` | app.py:28-38 | the snapshot's counts are the exact "SIM"/"NÃO" row counts, pending is the clamp, elapsed days are max(today − start, 1), remaining is busday_count(today, end), and the paces satisfy their defining equations |
| `Metrics.WindowPace` | app.py:49-51 | a window's pace × its length = the "SIM" rows dated on or after today − d |
| `Metrics.RecentPaces` | app.py:46-51 | the map has exactly one key per window, and each entry is that window's pace, independent of the other windows |
| `Metrics.RecentWindowCountsOrdered` | app.py:46-51 | the shipped windows 7, 14 and 21 are all positive, so they meet RecentPaces' requirement, and their counts come in order: 7-day ≤ 14-day ≤ 21-day ≤ all completions |
| `Forecast.Ceil` | app.py:41 | np.ceil: the result n satisfies x ≤ n < x + 1 |
| `Forecast.CeilQuotientCovers` | app.py:56 | ceil(amount / step) steps of a positive size cover the amount |
| `Forecast.CeilQuotientIsFewest` | app.py:56 | one step fewer than ceil(amount / step) falls short of the amount |
| `Forecast.FewestDaysAreUnique` | app.py:56 | at a positive throughput only one day count is the fewest that covers the pending work |
| `Forecast.BusinessDaysNeeded` | app.py:56 | ceil(pending / throughput) is the fewest business days whose output covers the pending work |
| `Forecast.SimulateCompletion` | app.py:53-57 | None exactly when throughput ≤ 0; a raise exactly when throughput > 0 on a non-business day; otherwise a business day on or after today whose business-day distance from today is the fewest that covers the pending work |
| `Forecast.ForecastAtCurrentPace` | app.py:40-44 | no forecast exactly when nothing is completed; otherwise the same date as the simulator at the current pace, or a raise on a weekend |
| `Forecast.ForecastDateIsUnique` | app.py:53-57 | from a business day at a positive throughput, any business day whose distance from today is the fewest that covers the pending work is the forecast date |
| `Forecast.FasterNeedsNoMoreDays` | app.py:56 | a higher throughput needs no more business days |
| `Forecast.FasterFinishesNoLater` | app.py:53-57 | from a business day, a higher throughput never forecasts a later completion date |
| `Forecast.Gap` | app.py:60-61 | the gap, written through the projected capacity, equals pending − pace × remaining business days |
| `Forecast.ExtraBusinessDays` | app.py:59-66 | 0 exactly when gap ≤ 0, whatever the increment; None exactly when gap > 0 and increment ≤ 0; otherwise the k ≥ 1 with k × increment ≥ gap > (k − 1) × increment |
| `Forecast.NoExtraEffortIffPaceSuffices` | app.py:59-66 | no extra effort is needed exactly when the projection reaches completed + pending; with business days left, exactly when the current pace is at least the required pace |
| `Scenarios.PendingOfWorkedExample` | app.py:30-31 | target 346 with 100 completed and 50 scheduled leaves 196 pending |
| `Scenarios.PendingNeverNegative` | app.py:30-31 | counts that reach or exceed the target leave 0 pending |
| `Scenarios.FirstDayPaceIsCompletedCount` | app.py:33-36 | on the start day, elapsed days = 1 and the pace is the completed count |
| `Scenarios.RequiredPaceWithoutRunway` | app.py:37 | 0 business days left and 50 pending give a required pace of 0 |
| `Scenarios.ShippedCalendarWeekdays` | app.py:13-14 | 2025-07-07 is a Monday and 2025-10-14 a Tuesday |
| `Scenarios.ShippedRolloutHas71BusinessDays` | app.py:13-14 | busday_count(2025-07-07, 2025-10-14) = 71 |
| `Scenarios.WeekendAfterSupportEndCountsBackThree` | app.py:34 | from Saturday 2025-10-18 back to Tuesday 2025-10-14, busday_count is −3: the Tuesday is not counted |
| `Scenarios.NothingPendingFinishesToday` | app.py:53-57 | with nothing pending and a positive throughput, the forecast is today |
| `Scenarios.ZeroThroughputHasNoForecast` | app.py:54-55 | a throughput of 0 with 10 pending gives no forecast |
| `Scenarios.TwentyAtFourTakesFiveBusinessDays` | app.py:56-57 | 20 pending at 4 per business day take 5 business days, and the forecast is today advanced 5 business days |
| `Scenarios.FiveBusinessDaysFromAMonday` | app.py:57 | 5 business days after the rollout's first Monday is the next Monday |
| `Scenarios.WeekendStartRaises` | app.py:57 | from the Sunday before the rollout, a positive throughput makes busday_offset raise |
| `Scenarios.NoGapNeedsNoExtraEffort` | app.py:62-63 | when pace × remaining covers pending, the extra effort is 0 for any increment |

## Left out

- The Streamlit page (app.py:71-153) is presentation only. This includes the metrics widgets, the number input and the slider. It also includes the scenario loop over throughputs 4, 5 and 6 and the boosted end date, which only call the simulator and `busday_offset` that are modelled here.
- The matplotlib charts (app.py:111-131) are rendering only.
- Excel ingestion, string normalisation and date coercion (app.py:20-23) are left out. They are I/O and pandas internals. The input is an already-cleaned `seq<Event>` with unparseable dates dropped.
- The wall-clock read `datetime.today()` (app.py:15) is the parameter `today`.
- Metrics.ElapsedDays: works on whole days. In the source `HOJE` carries a time of day and `(HOJE - start).days` truncates. On whole days the two agree.
- Metrics.RecentPaces: a row dated exactly today − d counts here. In the source `HOJE - timedelta(days=d)` keeps `HOJE`'s time of day. Compared with midnight dates, that leaves day today − d out unless the page loads exactly at midnight.
- Forecast.BusinessDaysNeeded: the paces and quotients are exact rationals. They are not IEEE doubles, so a quotient that a double rounds just above an integer is not reproduced.
- Forecast.ExtraBusinessDays: works on exact rationals rather than IEEE doubles.
- The `int(...)` truncation of the projection (app.py:91) is display only.
- numpy's general week masks, holiday lists, other `roll` modes and negative offsets are left out. The source uses only the defaults, and its offsets are never negative.
- Metrics.RecentPaces: requires every window to be positive. The source's windows are the constants 7, 14 and 21; a window of 0 would raise `ZeroDivisionError`, which is not modelled.
