# Laundry analytics: a verified model of the data shaping

This project models the deterministic logic of the two analysis modules of a laundry-service dashboard. The fitted models are not modelled; they enter as parameters.

- `customer_analysis.py` builds a per-customer daily demand series and its features. It then shapes a 90-day random-forest forecast into a banded forecast and derives business report figures, resource averages, projected resource needs and the average gap between orders.
- `laundry_analysis.py` builds a per-facility series of order days and forecasts it with calendar features and an additive band. It then filters forecast days against peak and low-demand thresholds, aggregates daily water and electricity, derives residuals, anomaly labels and high-usage alerts, and computes consumption per order.

How the model represents the source:

- **Dates** are integer day numbers. Day 0 is 1970-01-01, a Thursday, so the weekday (Monday = 0, as in pandas) is `(d + 3) % 7`.
- **Calendar features** are computed from the proleptic Gregorian calendar, with a proved round trip between day numbers and civil dates. This covers month, day of month, day of year and ISO week.
- **Averages and money-like quantities** are exact `real`s. Counts are `int`.
- **Python's `round`** is modelled as `Stats.RoundHalfEven`.
- **`int(n * 0.8)`** is the largest integer not above `4n/5`.
- **Fitted models** are function parameters:
  - The customer forest is a `fit` from the training rows to a prediction function.
  - The facility forest is a `fit` from the full series.
  - The two linear regressions are `Regressor`s from the sample pairs.
  - The isolation forest is a `Detector` from the residual pairs to a ±1 flag per row.
  - Contracts therefore state which rows each model is trained on and where each prediction lands.
- **`datetime.now()`** is the parameter `today`. A forecast day at midnight is after the current moment exactly when its day number is greater than `today`.
- **pandas `groupby("StartDate")`** is `Grouping.GroupByDate`: a fold that keeps the order days strictly increasing, with each day's order count, water sum and electricity sum.

Where the source's state is built up step by step, the model uses methods whose contracts tie the new state to pure functions:

- the columns of `daily_orders` and the `for lag in [1, 7, 14, 28]` loop;
- the `future_data` list;
- the columns added to `data`, `future_df` and `daily_usage`;
- the insight list.

Expression-only code (report rules, filters, the label map, `check_alerts`) is modelled as functions with lemmas.

Modules: `Wrappers` (Option, Result), `Stats` (sums, extrema, filtering, sorting, telescoping differences, rounding), `Calendar`, `Orders` (the order table), `Grouping`, `CustomerFeatures`, `CustomerForecast`, `CustomerReport`, `LaundryForecast`, `LaundryResources`.

### Behaviour worth knowing

- **Threshold filters.** Lines 139 and 163 of `laundry_analysis.py` keep only days strictly above the peak threshold, and line 90 keeps days strictly below the low-demand threshold. A day exactly at the threshold is in neither set (`LaundryForecast.PeakAndLowDisjoint`).
- **Rolling means.** Lines 29-30 of `customer_analysis.py` use `min_periods=1`, so an early day averages the days available rather than being zero or missing (`CustomerFeatures.RollingMeanStart`). Only the lags are zero-filled.
- **Holiday flags.** Lines 35 and 42 take the holidays from the customer's own rows flagged `IsHoliday`, not from a calendar. As a result no future day is ever flagged as a holiday (`CustomerForecast.FutureHolidayNever`).
- **Facility series.** `prepare_laundry_data` (lines 11-17) groups order days and inserts no zero-count days, unlike the customer series (`LaundryForecast.LaundrySeriesCounts`).
- **Customer with a single order day.** `forecast_intermittent_demand` trains on `int(n * 0.8)` rows, which is none for a one-day series, so the fit at line 57 raises; see Findings.
- **Facility without orders.** `laundry_resource_analysis` raises for a facility without orders instead of returning an empty table; see Findings.

## Model

| member | source | states |
|---|---|---|
| Orders.RowsOfTenant | customer_analysis.py:234 | a row is kept exactly when it is in the table and belongs to the customer |
| Orders.RowsOfLaundry | laundry_analysis.py:13 | a row is kept exactly when it is in the table and belongs to the facility |
| Orders.MinDate | customer_analysis.py:13 | the first order day is some row's start date and no row starts earlier |
| Orders.MaxDate | customer_analysis.py:14 | the last order day is some row's start date and no row starts later |
| Orders.HolidayDates | customer_analysis.py:35 | a day is a holiday exactly when some row flagged `IsHoliday == 1` starts on it |
| Orders.CountOnPositive | customer_analysis.py:17 | a day has a positive order count exactly when some order starts on it |
| Orders.OrderDaysInRange | customer_analysis.py:13-15 | every order day lies between the first and the last order day |
| Grouping.GroupByDate | customer_analysis.py:17 | the grouped days strictly increase and are exactly the days on which some order starts |
| Grouping.GroupByDateSpec | laundry_analysis.py:50-54 | the grouped table's days strictly increase, are exactly the order days, and each day holds the count, water sum and electricity sum of that day's rows |
| Grouping.GroupByDateRows | customer_analysis.py:17 | each grouped row has at least one order and the count and sums of its own day's rows |
| Grouping.GroupByDateTotals | laundry_analysis.py:50-54 | the grouped counts add up to the number of rows, and the grouped sums to the total water and electricity |
| Calendar.Weekday | customer_analysis.py:23 | the weekday lies in 0..6 |
| Calendar.CivilFromDays | customer_analysis.py:25-26 | every day number has a valid civil date that maps back to it |
| Calendar.CivilRoundTrip | customer_analysis.py:25-26 | a valid civil date converted to a day number and back is unchanged |
| Calendar.Month | customer_analysis.py:25 | the month lies in 1..12 |
| Calendar.DayOfMonth | customer_analysis.py:26 | the day of the month lies in 1..31 |
| Calendar.DayOfYear | laundry_analysis.py:22 | the day of the year lies in 1..366 |
| Calendar.IsoWeek | laundry_analysis.py:24 | the ISO week lies in 1..53 |
| Stats.RoundHalfEven | customer_analysis.py:166-168 | the result is within one half of the input, and on an exact half it is even |
| Stats.RoundHalfEvenUnique | customer_analysis.py:166-168 | the only integer with those two properties is the rounded value |
| Stats.RoundMonotone | customer_analysis.py:167 | rounding preserves order |
| Stats.Sort | customer_analysis.py:105 | the result is sorted and a permutation of the input |
| Stats.SortedEnds | customer_analysis.py:105 | a sorted permutation starts at the minimum and ends at the maximum |
| Stats.DiffsTelescope | customer_analysis.py:106 | successive differences add up to last minus first |
| Stats.DiffsOfSorted | customer_analysis.py:106 | successive differences of a sorted sequence are non-negative |
| Stats.Filter | laundry_analysis.py:90 | a filter keeps only input elements that satisfy the condition and is no longer than its input |
| Stats.FilterPartition | laundry_analysis.py:90 | three conditions, exactly one of which holds for each element, split the input's length among the three filters |
| CustomerFeatures.CountsFrom | customer_analysis.py:17-21 | day `lo + i` gets the number of orders on that day, zero on idle days |
| CustomerFeatures.DailyCounts | customer_analysis.py:13-21 | the day column holds every day from the first to the last order day, and each day's count is its number of orders |
| CustomerFeatures.LagFrame | customer_analysis.py:32-33 | after the loop the frame has exactly the lag columns 1, 7, 14 and 28, each the count column shifted by its offset and zero-filled |
| CustomerFeatures.PrepareEnhancedData | customer_analysis.py:11-38 | every column of the enhanced frame is the function of the days and counts it should be, and the final `dropna` removes nothing |
| CustomerFeatures.DailySeriesContiguous | customer_analysis.py:13-21 | the series runs from the first to the last order day in steps of one day and covers every order |
| CustomerFeatures.Shift | customer_analysis.py:33 | the shifted column has the input's length, is zero on its first k entries, and from entry k on is the input without its last k entries |
| CustomerFeatures.WindowMean | customer_analysis.py:29-30 | the trailing window at day i holds between 1 and w days, and the mean times that number of days is the window's sum |
| CustomerFeatures.WindowMeanSize | customer_analysis.py:29-30 | a full window holds exactly w days; before day w - 1 the window holds every day so far |
| CustomerFeatures.RollingMean | customer_analysis.py:29-30 | one mean per day: w times the mean is the sum of the last w days once w days exist, and (i + 1) times the mean is the sum of all days so far before that |
| CustomerFeatures.IdleDaysCountZero | customer_analysis.py:21 | a count is non-negative, and it is zero exactly on days without orders |
| CustomerFeatures.CountsFromTotal | customer_analysis.py:17-21 | the daily counts over a range covering every order add up to the number of orders |
| CustomerFeatures.DailyOrdersTotal | customer_analysis.py:17-21 | the series' counts add up to the customer's number of orders |
| CustomerFeatures.LagColumns | customer_analysis.py:32-33 | lag k on day i is the count k days earlier when i ≥ k and zero otherwise, and it is never negative |
| CustomerFeatures.WindowMeanBounds | customer_analysis.py:29-30 | a trailing mean of values in [0, top] lies in [0, top] |
| CustomerFeatures.RollingMeanStart | customer_analysis.py:29-30 | with `min_periods=1` the first day's rolling mean is that day's count |
| CustomerFeatures.RollingMeansBounded | customer_analysis.py:29-30 | both rolling means lie between zero and the largest daily count |
| CustomerFeatures.WeekendFlag | customer_analysis.py:23-24 | the weekend flag is 1 exactly on Saturdays and Sundays and 0 otherwise |
| CustomerFeatures.HolidayFlag | customer_analysis.py:35-36 | the holiday flag is 1 exactly on days on which some holiday-flagged order starts |
| CustomerForecast.TrainSize | customer_analysis.py:47 | the training size is the largest integer not above 80 % of the rows, and it is zero exactly for a series of at most one day |
| CustomerForecast.FitSize | customer_analysis.py:47 | the corrected training size lies between one and the series length, and equals `int(n * 0.8)` for two or more days |
| CustomerForecast.TrainingSet | customer_analysis.py:44-49 | training uses the first `TrainSize` rows, each with its features and its order count |
| CustomerForecast.FitSet | customer_analysis.py:47-49 | the corrected training rows are a non-empty prefix of the series, each with its features and count, and are the source's training rows for two or more days |
| CustomerForecast.LastLag | customer_analysis.py:74-76 | the future lag k is the count k rows from the end when the series has at least k rows, and 0 otherwise |
| CustomerForecast.FutureFeatures | customer_analysis.py:64-78 | a future day's features are its weekday, weekend flag, month and day of month, its time index from the first day, the last row's rolling means, the last count as lag 1, `LastLag` for lags 7, 14 and 28, and its holiday flag |
| CustomerForecast.ClampZero | customer_analysis.py:86-88 | the clamped value is the larger of the input and zero |
| CustomerForecast.PredictedRow | customer_analysis.py:84-89 | a forecast row is clamped at zero, banded at 0.7 and 1.3 of its value, and satisfies 0 ≤ lower ≤ yhat ≤ upper whatever the model predicts |
| CustomerForecast.FutureRows | customer_analysis.py:59-61 | there are 90 forecast rows, for the 90 days right after the last historical day |
| CustomerForecast.HistoricalRows | customer_analysis.py:91 | the historical rows are the series' days with their counts |
| CustomerForecast.FutureFeatureRows | customer_analysis.py:63-79 | the loop builds one feature row per future date, in date order |
| CustomerForecast.PredictFuture | customer_analysis.py:59-89 | the predicted rows are the banded forecast of the 90 days after the series |
| CustomerForecast.ForecastIntermittentDemand | customer_analysis.py:40-94 | corrected: for every non-empty series the forecast is the historical rows followed by the 90 predicted rows of a model fitted on at least one row, and for two or more days on exactly the first 80 % |
| CustomerForecast.ForecastIntermittentDemandAsWritten | customer_analysis.py:40-94 | the forecast fails exactly when the series has at most one day (no training rows); otherwise it is the historical rows followed by the 90 predicted rows of a model fitted on the first 80 % |
| CustomerForecast.FutureDatesFollowHistory | customer_analysis.py:60-61 | every future day is after every historical day |
| CustomerForecast.FirstFutureLags | customer_analysis.py:73-76 | every future row carries the same lag values taken from the end of the history |
| CustomerForecast.FutureRowsShareHistory | customer_analysis.py:71-76 | any two future rows share their rolling means and lags |
| CustomerForecast.FrameEnds | customer_analysis.py:60 | the series' first and last days are the first and last order days |
| CustomerForecast.FutureTimeIndex | customer_analysis.py:70 | the i-th future day's time index is the series length plus i |
| CustomerForecast.FutureHolidayNever | customer_analysis.py:77 | no future day is flagged as a holiday, because holidays come from past orders |
| CustomerForecast.NoHolidayAfter | customer_analysis.py:42 | no day after the last order day is among the customer's holidays |
| CustomerForecast.TrainingIsChronological | customer_analysis.py:47-49 | every training row precedes every held-out row |
| CustomerReport.RowsAfter | customer_analysis.py:156 | a row is in the forecast period exactly when it is dated after the last historical day |
| CustomerReport.Predictions | customer_analysis.py:160-163 | only predicted rows enter the means (pandas skips the missing `yhat` of historical rows) |
| CustomerReport.TopItemCount | customer_analysis.py:165 | the number of top items is three, or fewer when the customer ordered fewer distinct items |
| CustomerReport.MinStock | customer_analysis.py:166 | the minimum stock is at least one and at least the rounded lower average, and equals one of the two |
| CustomerReport.VolatilityOf | customer_analysis.py:193 | "Low" exactly when the upper average is below 1.5 times a positive lower average, above 1.5 times a negative one, or, for a zero lower average, negative (only `-inf` compares below 1.5) |
| CustomerReport.WeekendDemand | customer_analysis.py:201 | weekend demand exactly when the customer has orders and more than 30 % of them fall on a weekend |
| CustomerReport.ReportOf | customer_analysis.py:156-201 | the daily, lower and upper averages are the means of the predicted `yhat`, `yhat_lower` and `yhat_upper`; the projected total is the daily average times the predicted days; minimum stock is `MinStock` of the lower average (at least 1); the weekly range is the rounded 0.8 and 1.2 times a week of the daily average, and the buffer the rounded double upper average; volatility is `VolatilityOf` the two bounds; the top-item count is `TopItemCount` (at most three); the stockout, lean, waste and delivery labels follow their thresholds on the daily average (< 1, < 1, > 0.5, < 2); 70 % allocation exactly with three top items and 100 % exactly with fewer; weekend demand exactly when more than 30 % of the orders fall on a weekend |
| CustomerReport.BusinessReport | customer_analysis.py:154-203 | a report exists exactly when there is history and some predicted row is dated after the last historical day; it is then `ReportOf` the days and predicted rows of the period after the last historical day, with minimum stock ≥ 1 and at most three top items |
| CustomerReport.ForecastRowsBanded | customer_analysis.py:84-89 | every row of a forecast produced by the forecaster is clamped and banded at 0.7/1.3 |
| CustomerReport.BandedPredictions | customer_analysis.py:156 | the forecast period of a banded forecast is banded |
| CustomerReport.BandedMeans | customer_analysis.py:160-163 | on banded rows the lower and upper averages are 0.7 and 1.3 times the daily average |
| CustomerReport.BandedReportIsMedium | customer_analysis.py:193 | on banded rows the upper/lower ratio is 13/7, so volatility is always "Medium" |
| CustomerReport.BandedStockFigures | customer_analysis.py:167-168 | on banded rows the weekly range satisfies 0 ≤ low ≤ high and the buffer is non-negative |
| CustomerReport.ForecastReport | customer_analysis.py:154-203 | a report on the forecaster's output has volatility "Medium", minimum stock ≥ 1, an ordered weekly range and a non-negative buffer |
| CustomerReport.ReportLabels | customer_analysis.py:194-200 | the labels sharing a threshold agree (lean inventory exactly when stockout risk is minimal, then weekly deliveries; bi-weekly deliveries imply low waste); the top items get 70 % exactly when there are at least three distinct items; the projected total is the daily average times the predicted days |
| CustomerReport.ReportPeriodMonths | customer_analysis.py:157-158 | the reported start month is the calendar month containing the period's first day, and the end month the one containing its last day |
| CustomerReport.WeekendDemandShare | customer_analysis.py:201 | weekend demand needs a weekend order, and a customer ordering only on weekends has it |
| CustomerReport.NoWeekendOrders | customer_analysis.py:201 | without weekend orders the demand is mid-week |
| CustomerReport.Resources | customer_analysis.py:211-214 | the usage table has one row per order day with its water and electricity, and the same totals |
| CustomerReport.CustomerUsageDays | customer_analysis.py:211-214 | the usage days strictly increase and each holds the water and electricity sums of its orders |
| CustomerReport.CustomerResourceAnalysis | customer_analysis.py:205-216 | the daily usage totals are the customer's total water and electricity, and each per-order average times the number of orders gives that total |
| CustomerReport.CalculateFutureResource | customer_analysis.py:218-224 | the projection holds, in order, exactly the forecast rows dated after today, and each predicted row needs `yhat` times the per-order water and electricity averages (a historical row, with no `yhat`, needs nothing) |
| CustomerReport.FutureWaterTotal | customer_analysis.py:220-222 | when today is at or after the last historical day, every projected row is predicted and the water needed totals the average times the predicted orders; on a banded forecast with a non-negative average that total is non-negative |
| CustomerReport.AverageGapIsSpan | customer_analysis.py:105-106 | the mean of the sorted successive gaps is the span from first to last divided by n - 1, and it is non-negative |
| CustomerReport.MeanGap | customer_analysis.py:106 | the mean gap is missing exactly for fewer than two days; otherwise it times the number of gaps is last minus first |
| CustomerReport.AverageGap | customer_analysis.py:105-106 | the average gap is missing exactly for at most one order; otherwise it is (latest − earliest day) / (orders − 1), which is non-negative |
| CustomerReport.StartDateExtremes | customer_analysis.py:100 | the extremes of the start-date column are the first and last order days |
| CustomerReport.CustomerAverageGap | customer_analysis.py:105-106 | a customer's average gap is (last order day − first order day) / (orders − 1) |
| CustomerReport.MostFrequentWeekday | customer_analysis.py:109-110 | the chosen weekday has at least one order and no weekday has more |
| CustomerReport.GenerateCustomerInsights | customer_analysis.py:96-111 | the insights hold the days since the last order (no order lies after today minus that), the span-based average gap, and a most frequent weekday |
| LaundryForecast.PrepareLaundryData | laundry_analysis.py:11-17 | the series has one row per grouped day of the facility, carrying that day's order count |
| LaundryForecast.CountsAddUp | laundry_analysis.py:14 | the series' counts add up to the grouped total |
| LaundryForecast.LaundrySeriesCounts | laundry_analysis.py:13-16 | the days strictly increase and each count is that day's number of orders, at least one, so no zero-count days are inserted |
| LaundryForecast.LaundrySeriesDays | laundry_analysis.py:13-14 | the series' days are exactly the facility's order days |
| LaundryForecast.LaundrySeriesTotal | laundry_analysis.py:14 | the counts add up to the facility's number of orders |
| LaundryForecast.LaundrySeriesEmpty | laundry_analysis.py:86 | the series is empty exactly when the facility has no orders |
| LaundryForecast.LaundrySeriesLastDay | laundry_analysis.py:32 | the series' last day is the facility's last order day |
| LaundryForecast.CalendarOf | laundry_analysis.py:22-24 | the features lie in 1..366 (day of year), 0..6 (day of week) and 1..53 (ISO week) |
| LaundryForecast.TrainingRows | laundry_analysis.py:26-30 | the model is fitted on every day of the series, each with its calendar features and count |
| LaundryForecast.PredictedDayOf | laundry_analysis.py:39-42 | a forecast day carries the model's value with a band of exactly ±1.5, so lower ≤ yhat ≤ upper and the width is 3 |
| LaundryForecast.ForecastDaysOf | laundry_analysis.py:32-37 | there are `forecast_days` forecast rows, for the consecutive days right after the last day |
| LaundryForecast.AddCalendarColumns | laundry_analysis.py:22-24 | the three calendar columns hold each day's features |
| LaundryForecast.FutureFrameAfter | laundry_analysis.py:32-42 | the future frame's rows are the banded forecast of the days after the last date |
| LaundryForecast.ForecastDemandLaundry | laundry_analysis.py:19-44 | the returned data holds the series with its features, the model is fitted on all of it, and the future frame covers the requested days after the last one |
| LaundryForecast.LowDemand | laundry_analysis.py:90 | a row is kept exactly when it is a forecast row with a prediction strictly below the threshold, and the result is no longer than the forecast |
| LaundryForecast.PeakDays | laundry_analysis.py:139 | a row is kept exactly when it is a forecast row with a prediction strictly above the threshold, and the result is no longer than the forecast |
| LaundryForecast.PeakAndLowDisjoint | laundry_analysis.py:139 | with one threshold no day is both peak and low, a day at the threshold is neither, and peak, low and at-threshold days account for every row |
| LaundryForecast.PeakAlertRaised | laundry_analysis.py:163-166 | the peak alert appears exactly when some forecast day is strictly above the threshold |
| LaundryForecast.DetectLowDemandDays | laundry_analysis.py:82-92 | the result is nothing exactly when the facility has no orders; otherwise it is the 7-day forecast and its rows strictly below the threshold, in order |
| LaundryForecast.PeakAlertDays | laundry_analysis.py:155-163 | nothing exactly when the facility has no orders; otherwise the rows of the 30-day forecast strictly above the threshold |
| LaundryForecast.ForecastFollowsSeries | laundry_analysis.py:32-33 | the k-th forecast day is the facility's last order day plus k + 1, after every order, consecutive with the next one, and banded with width 3 |
| LaundryForecast.BandNotClamped | laundry_analysis.py:41 | a prediction below 1.5 gives a negative lower bound, because the band is not clamped |
| LaundryResources.LabelOf | laundry_analysis.py:71 | flag 1 maps to "Normal", −1 to "Anomaly", and every other value to nothing |
| LaundryResources.CheckAlert | laundry_analysis.py:73-76 | the alert is raised exactly when the day is anomalous and has fewer than five orders, and "Normal" is returned exactly otherwise |
| LaundryResources.PredictColumn | laundry_analysis.py:63-64 | the expected column is the fitted line's value at each day's order count |
| LaundryResources.Residuals | laundry_analysis.py:66-67 | each actual value is the expected value plus the error |
| LaundryResources.LabelColumn | laundry_analysis.py:71 | each day's label is the label of its flag |
| LaundryResources.AlertColumn | laundry_analysis.py:78 | each day's alert is `check_alerts` of its flag and order count |
| LaundryResources.Alerts | laundry_analysis.py:261 | a row is listed exactly when it is a row of the table whose alert is the high-usage alert, and there are no more alerts than days |
| LaundryResources.LaundryResourceAnalysis | laundry_analysis.py:46-80 | the table's days are the facility's grouped days, and its expected, error, flag, label and alert columns are derived from fits on those days; a facility without orders gets the empty table |
| LaundryResources.FitInput | laundry_analysis.py:63 | fitting is refused exactly when there are no samples |
| LaundryResources.LaundryResourceAnalysisAsWritten | laundry_analysis.py:46-80 | the analysis fails exactly when the facility has no orders; otherwise it returns the non-empty grouped day table with the expected, error, flag, label and alert columns derived from the fits and the detector |
| LaundryResources.UsageAggregation | laundry_analysis.py:50-60 | the table's days strictly increase, and each day has that day's order count (at least one), water sum and electricity sum |
| LaundryResources.UsageMatchesDemand | laundry_analysis.py:50-54 | the table's days and counts are those of the facility's demand series |
| LaundryResources.UsageEmpty | laundry_analysis.py:213 | the table is empty exactly when the facility has no orders |
| LaundryResources.AlertsAreLowOrderAnomalies | laundry_analysis.py:261 | a day is listed among the alerts exactly when it is flagged anomalous with fewer than five orders, and such a day is labelled "Anomaly" |
| LaundryResources.LabelsCoverAllDays | laundry_analysis.py:69-71 | with flags in {1, −1} every day has a label, and the "Normal" and "Anomaly" days together are all the days |
| LaundryResources.ColumnTotals | laundry_analysis.py:271 | the table's columns add up to the grouped totals |
| LaundryResources.EfficiencyIsPerOrderMean | laundry_analysis.py:271-274 | the order counts total the number of orders (positive), and water and electricity per order are the facility's totals divided by that number |
| LaundryResources.WaterPerOrder | laundry_analysis.py:271 | water per order times the total order count is the total water |
| LaundryResources.ElectricityPerOrder | laundry_analysis.py:274 | electricity per order times the total order count is the total electricity |
| LaundryResources.PerOrderColumn | laundry_analysis.py:279-288 | one ratio per day, and each day's ratio times its order count is its consumption |
| LaundryResources.DailyEfficiency | laundry_analysis.py:279-288 | every day has a positive count, so the daily ratio is defined, and it is that day's consumption divided by its number of orders |

## Left out

- Streamlit UI, routing and page layout (`customer_section`, `laundry_section`, the `show_*` functions, `app.py`, `styles.py`) are presentation only.
- Plotting with matplotlib and seaborn is not modelled, including `plot_detailed_forecast`.
- `resources.py` is not part of this model. Its CSV loading and report save/load are file I/O. Its savings functions are bare subtractions.
- The fitted models are opaque function parameters: `RandomForestRegressor`, `LinearRegression` and `IsolationForest`. Their numerics, their hyperparameters and the 5 % contamination rate are not modelled.
- Floating point is modelled as exact reals. Float rounding, `inf` and `nan` are not modelled, except where a `nan` decides a branch:
  - A zero lower average makes the volatility "Medium", unless the upper average is negative (`-inf`, which is below 1.5, gives "Low").
  - An empty forecast period gives no report.
  - A flag outside {1, −1} gets no label.
- Report text, emoji and f-string formatting are not modelled; the model covers only the numbers and labels they print.
- Item and service names are not modelled. This covers the names of the top items (line 165) and the top items and services of the insights (lines 113-117): the order of equal `value_counts` entries is not specified by pandas.
- CustomerReport.MostFrequentWeekday: when several weekdays tie, it picks the earliest one. The source's `idxmax` over `value_counts` picks the tie by pandas' ordering. The model reports the weekday as 0..6, not its name.
- CustomerReport.CustomerResourceAnalysis: requires at least one order, because the source divides by zero (`nan`) for an empty customer. The caller rejects empty customers at customer_analysis.py:236-238.
- CustomerFeatures.PrepareEnhancedData: requires at least one order, because the first and last order days of an empty table do not exist. The caller rejects empty customers first.
- LaundryForecast.ForecastDemandLaundry: requires a non-empty series, because the forest's fit at line 30 raises on zero rows. Every caller checks `daily.empty` first.
- CustomerForecast.ForecastIntermittentDemand: requires a non-empty series, because the caller rejects customers without orders (customer_analysis.py:236-238); `ForecastIntermittentDemandAsWritten` returns the fit's error for it.
- LaundryResources.UsageAggregation: counts every order row of a day. Line 51 counts non-missing `TenantID` values, and every order row carries a tenant, so the two agree; a row without a tenant would count 0 in the source.
- LaundryResources.UsageMatchesDemand: equates the table's counts (line 51, `TenantID` count) with the demand series' row counts (line 14, `size()`), which holds because every order row carries a tenant.
- LaundryResources.DailyEfficiency: relies on each day's count being at least one, which holds because every order row carries a tenant.
- LaundryResources.LabelsCoverAllDays: assumes the detector returns flags in {1, −1}, which is the isolation forest's documented output.
- The training split `int(len * 0.8)` is modelled as the exact ⌊4n/5⌋. The binary value of 0.8 gives the same result for any realistic series length.

## Findings

| source | as written | input that shows it | evidently intended | confidence | as-written member | corrected member |
|---|---|---|---|---|---|---|
| laundry_analysis.py:63 | `laundry_resource_analysis` fits `LinearRegression` on the day table of any facility, including one without orders. The fit refuses zero samples, so the function raises. The `daily_usage.empty` check at line 213 therefore never sees an empty table. | a table in which no row has the requested `LaundryID` | a facility without orders yields the empty table, and the page shows its "no data" message (lines 213-215; `LaundryResources.UsageEmpty` proves the table is empty exactly then) | not executed | LaundryResources.LaundryResourceAnalysisAsWritten | LaundryResources.LaundryResourceAnalysis |
| customer_analysis.py:47 | `train_size = int(len(daily_data) * 0.8)` is 0 for a one-day series, so `model.fit` at line 57 receives no rows and raises. The caller at lines 236-238 rejects only customers without orders. | a customer whose orders all start on the same day, for example a single order | every customer with orders gets a forecast, fitted on at least one day and on the first 80 % whenever that is a day or more | not executed | CustomerForecast.ForecastIntermittentDemandAsWritten | CustomerForecast.ForecastIntermittentDemand |
