/** prepare_laundry_data, forecast_demand_laundry_rf, detect_low_demand_days and
    the peak-day filters of the facility pages: the laundry's order days with
    their counts, the three calendar features, the consecutive forecast days
    with the additive band of 1.5 orders, and the strict threshold filters.
    The random forest is a parameter: `fit` maps the training rows to a
    prediction function. */
module LaundryForecast {
  import opened Wrappers
  import opened Stats
  import opened Calendar
  import opened Orders
  import opened Grouping

  // ------------------------------------------------- daily demand series

  /** One row of `daily_demand`: an order day and its number of orders. */
  datatype DemandRow = DemandRow(ds: int, y: int)

  /** prepare_laundry_data: the rows of one laundry counted per `StartDate`. */
  function PrepareLaundryData(df: seq<OrderRow>, laundryId: string): (daily: seq<DemandRow>)
    ensures var g := GroupByDate(RowsOfLaundry(df, laundryId));
            |daily| == |g| && forall i :: 0 <= i < |g| ==> daily[i] == DemandRow(g[i].date, g[i].count)
  {
    var g := GroupByDate(RowsOfLaundry(df, laundryId));
    seq(|g|, i requires 0 <= i < |g| => DemandRow(g[i].date, g[i].count))
  }

  /** `daily_demand["ds"]`. */
  function DemandDates(daily: seq<DemandRow>): (ds: seq<int>)
    ensures |ds| == |daily|
    ensures forall i :: 0 <= i < |daily| ==> ds[i] == daily[i].ds
  {
    seq(|daily|, i requires 0 <= i < |daily| => daily[i].ds)
  }

  /** `daily_demand["y"]`. */
  function DemandCounts(daily: seq<DemandRow>): (ys: seq<int>)
    ensures |ys| == |daily|
    ensures forall i :: 0 <= i < |daily| ==> ys[i] == daily[i].y
  {
    seq(|daily|, i requires 0 <= i < |daily| => daily[i].y)
  }

  /** The day counts of a grouped table add up to its total count. */
  lemma {:induction false} CountsAddUp(g: seq<DayTotals>, daily: seq<DemandRow>)
    requires |daily| == |g|
    requires forall i :: 0 <= i < |g| ==> daily[i].y == g[i].count
    ensures SumInt(DemandCounts(daily)) == TotalCount(g)
  {
    if |g| > 0 {
      CountsAddUp(g[1..], daily[1..]);
      assert DemandCounts(daily) == [daily[0].y] + DemandCounts(daily[1..]);
    }
  }

  /** The daily series of a laundry is in strictly increasing date order and
      each `y` is the number of that laundry's orders on that day, so at least
      one: no zero-count days are inserted. */
  lemma LaundrySeriesCounts(df: seq<OrderRow>, laundryId: string)
    ensures var daily := PrepareLaundryData(df, laundryId);
      && (forall i, j :: 0 <= i < j < |daily| ==> daily[i].ds < daily[j].ds)
      && (forall i :: 0 <= i < |daily| ==>
            daily[i].y == CountOn(RowsOfLaundry(df, laundryId), daily[i].ds) >= 1)
  {
    var rows := RowsOfLaundry(df, laundryId);
    GroupByDateSpec(rows);
    GroupByDateRows(rows);
  }

  /** The distinct days of a demand series. */
  function SeriesDays(daily: seq<DemandRow>): set<int>
  {
    set x | x in daily :: x.ds
  }

  /** The days of the series are exactly the days on which the laundry has an order. */
  lemma LaundrySeriesDays(df: seq<OrderRow>, laundryId: string)
    ensures SeriesDays(PrepareLaundryData(df, laundryId))
            == OrderDays(RowsOfLaundry(df, laundryId))
    ensures forall d :: d in SeriesDays(PrepareLaundryData(df, laundryId))
                        <==> exists r :: r in df && r.laundryId == laundryId && r.startDate == d
  {
    var rows := RowsOfLaundry(df, laundryId);
    var g := GroupByDate(rows);
    var daily := PrepareLaundryData(df, laundryId);
    GroupByDateSpec(rows);
    forall d | d in SeriesDays(daily)
      ensures d in DatesOf(g)
    {
      var x :| x in daily && x.ds == d;
      var i :| 0 <= i < |daily| && daily[i] == x;
      assert g[i] in g;
    }
    forall d | d in DatesOf(g)
      ensures d in SeriesDays(daily)
    {
      var t :| t in g && t.date == d;
      var i :| 0 <= i < |g| && g[i] == t;
      assert daily[i] in daily;
    }
    forall d | d in OrderDays(rows)
      ensures exists r :: r in df && r.laundryId == laundryId && r.startDate == d
    {
      var r :| r in rows && r.startDate == d;
    }
  }

  /** The counts of the series add up to the laundry's number of orders. */
  lemma LaundrySeriesTotal(df: seq<OrderRow>, laundryId: string)
    ensures SumInt(DemandCounts(PrepareLaundryData(df, laundryId))) == |RowsOfLaundry(df, laundryId)|
  {
    var rows := RowsOfLaundry(df, laundryId);
    GroupByDateTotals(rows);
    CountsAddUp(GroupByDate(rows), PrepareLaundryData(df, laundryId));
  }

  /** `daily.empty` holds exactly when the laundry has no orders. */
  lemma LaundrySeriesEmpty(df: seq<OrderRow>, laundryId: string)
    ensures PrepareLaundryData(df, laundryId) == [] <==> forall r :: r in df ==> r.laundryId != laundryId
  {
    var daily := PrepareLaundryData(df, laundryId);
    LaundrySeriesDays(df, laundryId);
    if daily != [] {
      assert daily[0].ds in SeriesDays(daily);
    }
    if r :| r in df && r.laundryId == laundryId {
      assert r.startDate in SeriesDays(daily);
    }
  }

  /** The last day of the series is the laundry's last order day. */
  lemma LaundrySeriesLastDay(df: seq<OrderRow>, laundryId: string)
    requires PrepareLaundryData(df, laundryId) != []
    ensures RowsOfLaundry(df, laundryId) != []
    ensures MaxOf(DemandDates(PrepareLaundryData(df, laundryId))) == MaxDate(RowsOfLaundry(df, laundryId))
  {
    var rows := RowsOfLaundry(df, laundryId);
    var daily := PrepareLaundryData(df, laundryId);
    var ds := DemandDates(daily);
    LaundrySeriesDays(df, laundryId);
    var m := MaxOf(ds);
    assert m <= MaxDate(rows) by {
      var i :| 0 <= i < |ds| && ds[i] == m;
      assert daily[i] in daily;
      assert m in OrderDays(rows);
      OrderDaysInRange(rows);
    }
    assert MaxDate(rows) <= m by {
      var j :| 0 <= j < |rows| && rows[j].startDate == MaxDate(rows);
      assert rows[j] in rows;
      assert MaxDate(rows) in SeriesDays(daily);
      var x :| x in daily && x.ds == MaxDate(rows);
      var i :| 0 <= i < |daily| && daily[i] == x;
      assert ds[i] == MaxDate(rows);
    }
  }

  // ------------------------------------------------- calendar features

  /** One row of `X`: `DayOfYear`, `DayOfWeek` (Monday is 0) and `WeekOfYear` (ISO week). */
  datatype CalendarFeatures = CalendarFeatures(dayOfYear: int, dayOfWeek: int, weekOfYear: int)

  /** The feature row of day `d`. */
  function CalendarOf(d: int): (x: CalendarFeatures)
    ensures 1 <= x.dayOfYear <= 366
    ensures 0 <= x.dayOfWeek < 7
    ensures 1 <= x.weekOfYear <= 53
  {
    CalendarFeatures(DayOfYear(d), Weekday(d), IsoWeek(d))
  }

  /** A fitted forest's `predict`, one row at a time. */
  type LaundryModel = CalendarFeatures -> real

  /** `RandomForestRegressor(...).fit(X, y)`, taken as given. */
  type LaundryFitter = seq<(CalendarFeatures, int)> -> LaundryModel

  /** The horizon of the peak forecast and peak alert pages. */
  const PeakForecastDays: nat := 30
  /** The horizon of detect_low_demand_days. */
  const LowDemandForecastDays: nat := 7
  /** Half the width of the forecast band, in orders. */
  const BandHalfWidth: real := 3.0 / 2.0

  /** The three feature columns of a date column. */
  predicate HasCalendarColumns(ds: seq<int>, dayOfYear: seq<int>, dayOfWeek: seq<int>, weekOfYear: seq<int>)
  {
    && |dayOfYear| == |ds| && |dayOfWeek| == |ds| && |weekOfYear| == |ds|
    && forall i :: 0 <= i < |ds| ==>
         CalendarFeatures(dayOfYear[i], dayOfWeek[i], weekOfYear[i]) == CalendarOf(ds[i])
  }

  /** `data` of forecast_demand_laundry_rf: the series and its feature columns. */
  datatype HistoryFrame = HistoryFrame(ds: seq<int>, y: seq<int>,
                                       dayOfYear: seq<int>, dayOfWeek: seq<int>, weekOfYear: seq<int>)
  {
    predicate Valid()
    {
      |y| == |ds| && HasCalendarColumns(ds, dayOfYear, dayOfWeek, weekOfYear)
    }

    function FeaturesAt(i: int): CalendarFeatures
      requires Valid() && 0 <= i < |ds|
    {
      CalendarFeatures(dayOfYear[i], dayOfWeek[i], weekOfYear[i])
    }
  }

  /** One row of `future_df`. */
  datatype PredictedDay = PredictedDay(ds: int, features: CalendarFeatures, yhat: real, lower: real, upper: real)

  /** `future_df`: the future dates, their feature columns and the prediction band. */
  datatype FutureFrame = FutureFrame(ds: seq<int>,
                                     dayOfYear: seq<int>, dayOfWeek: seq<int>, weekOfYear: seq<int>,
                                     yhat: seq<real>, yhatLower: seq<real>, yhatUpper: seq<real>)
  {
    predicate Valid()
    {
      && |dayOfYear| == |ds| && |dayOfWeek| == |ds| && |weekOfYear| == |ds|
      && |yhat| == |ds| && |yhatLower| == |ds| && |yhatUpper| == |ds|
    }

    /** The frame read row by row. */
    function Rows(): (rs: seq<PredictedDay>)
      requires Valid()
      ensures |rs| == |ds|
    {
      seq(|ds|, i requires 0 <= i < |ds| =>
        PredictedDay(ds[i], CalendarFeatures(dayOfYear[i], dayOfWeek[i], weekOfYear[i]),
                     yhat[i], yhatLower[i], yhatUpper[i]))
    }
  }

  /** `(X, y)` of the forest: every day of the series, not a training prefix. */
  function TrainingRows(daily: seq<DemandRow>): (t: seq<(CalendarFeatures, int)>)
    ensures |t| == |daily|
    ensures forall i :: 0 <= i < |daily| ==> t[i] == (CalendarOf(daily[i].ds), daily[i].y)
  {
    seq(|daily|, i requires 0 <= i < |daily| => (CalendarOf(daily[i].ds), daily[i].y))
  }

  /** The forecast row of day `date`: the prediction and a band 1.5 orders
      below and above it, with no clamping at zero. */
  function PredictedDayOf(model: LaundryModel, date: int): (r: PredictedDay)
    ensures r.ds == date && r.features == CalendarOf(date)
    ensures r.yhat == model(CalendarOf(date))
    ensures r.lower <= r.yhat <= r.upper && r.upper - r.lower == 3.0
    ensures r.yhat - r.lower == BandHalfWidth && r.upper - r.yhat == BandHalfWidth
  {
    var p := model(CalendarOf(date));
    PredictedDay(date, CalendarOf(date), p, p - BandHalfWidth, p + BandHalfWidth)
  }

  /** The `n` forecast rows after day `last`. */
  function ForecastDaysOf(last: int, n: nat, model: LaundryModel): (r: seq<PredictedDay>)
    ensures |r| == n
    ensures forall k :: 0 <= k < n ==> r[k] == PredictedDayOf(model, last + 1 + k)
  {
    seq(n, k requires 0 <= k < n => PredictedDayOf(model, last + 1 + k))
  }

  /** `data['DayOfYear'] = ...; data['DayOfWeek'] = ...; data['WeekOfYear'] = ...`. */
  method AddCalendarColumns(ds: seq<int>) returns (dayOfYear: seq<int>, dayOfWeek: seq<int>, weekOfYear: seq<int>)
    ensures HasCalendarColumns(ds, dayOfYear, dayOfWeek, weekOfYear)
  {
    dayOfYear := seq(|ds|, i requires 0 <= i < |ds| => DayOfYear(ds[i]));
    dayOfWeek := seq(|ds|, i requires 0 <= i < |ds| => Weekday(ds[i]));
    weekOfYear := seq(|ds|, i requires 0 <= i < |ds| => IsoWeek(ds[i]));
  }

  /** `future_df`: the `forecastDays` dates after `lastDate`, their feature
      columns, and the predictions with the band around them. */
  method FutureFrameAfter(lastDate: int, forecastDays: nat, model: LaundryModel) returns (future: FutureFrame)
    ensures future.Valid()
    ensures future.Rows() == ForecastDaysOf(lastDate, forecastDays, model)
  {
    var futureDates := seq(forecastDays, k requires 0 <= k < forecastDays => lastDate + 1 + k);
    var fdoy, fdow, fwoy := AddCalendarColumns(futureDates);

    var yhat := seq(forecastDays, k requires 0 <= k < forecastDays =>
                      model(CalendarFeatures(fdoy[k], fdow[k], fwoy[k])));
    var yhatLower := seq(forecastDays, k requires 0 <= k < forecastDays => yhat[k] - BandHalfWidth);
    var yhatUpper := seq(forecastDays, k requires 0 <= k < forecastDays => yhat[k] + BandHalfWidth);
    future := FutureFrame(futureDates, fdoy, fdow, fwoy, yhat, yhatLower, yhatUpper);

    forall k | 0 <= k < forecastDays
      ensures future.Rows()[k] == PredictedDayOf(model, lastDate + 1 + k)
    {
      assert CalendarFeatures(fdoy[k], fdow[k], fwoy[k]) == CalendarOf(futureDates[k]);
    }
  }

  /** forecast_demand_laundry_rf. Every caller first checks that `daily_data`
      is not empty; a forest cannot be fitted on no rows. */
  method ForecastDemandLaundry(daily: seq<DemandRow>, forecastDays: nat, fit: LaundryFitter)
    returns (data: HistoryFrame, model: LaundryModel, future: FutureFrame)
    requires |daily| > 0
    ensures data.Valid() && data.ds == DemandDates(daily) && data.y == DemandCounts(daily)
    ensures model == fit(TrainingRows(daily))
    ensures future.Valid()
    ensures future.Rows() == ForecastDaysOf(MaxOf(DemandDates(daily)), forecastDays, model)
  {
    var ds := DemandDates(daily);
    var doy, dow, woy := AddCalendarColumns(ds);
    data := HistoryFrame(ds, DemandCounts(daily), doy, dow, woy);

    var x := seq(|ds|, i requires 0 <= i < |ds| => (data.FeaturesAt(i), data.y[i]));
    forall i | 0 <= i < |ds|
      ensures x[i] == TrainingRows(daily)[i]
    {
      assert data.FeaturesAt(i) == CalendarOf(ds[i]);
    }
    assert x == TrainingRows(daily);
    model := fit(x);

    future := FutureFrameAfter(MaxOf(ds), forecastDays, model);
  }

  // ------------------------------------------------- threshold filters

  /** `forecast["yhat"] < threshold`. */
  function Below(threshold: int): PredictedDay -> bool
  {
    (r: PredictedDay) => r.yhat < threshold as real
  }

  /** `forecast["yhat"] > threshold`. */
  function Above(threshold: int): PredictedDay -> bool
  {
    (r: PredictedDay) => r.yhat > threshold as real
  }

  /** A forecast exactly at the threshold. */
  function AtThreshold(threshold: int): PredictedDay -> bool
  {
    (r: PredictedDay) => r.yhat == threshold as real
  }

  /** `forecast[forecast["yhat"] < threshold]`: exactly the forecast rows
      strictly below the threshold, in forecast order. */
  function LowDemand(forecast: seq<PredictedDay>, threshold: int): (low: seq<PredictedDay>)
    ensures |low| <= |forecast|
    ensures forall r :: r in low <==> r in forecast && r.yhat < threshold as real
  {
    var low := Filter(forecast, Below(threshold));
    forall r | r in forecast && r.yhat < threshold as real
      ensures r in low
    {
      FilterKeeps(forecast, Below(threshold), r);
    }
    low
  }

  /** `forecast[forecast["yhat"] > peak_threshold]`: exactly the forecast rows
      strictly above the threshold, in forecast order. */
  function PeakDays(forecast: seq<PredictedDay>, threshold: int): (peaks: seq<PredictedDay>)
    ensures |peaks| <= |forecast|
    ensures forall r :: r in peaks <==> r in forecast && r.yhat > threshold as real
  {
    var peaks := Filter(forecast, Above(threshold));
    forall r | r in forecast && r.yhat > threshold as real
      ensures r in peaks
    {
      FilterKeeps(forecast, Above(threshold), r);
    }
    peaks
  }

  /** Under one threshold no row is both a peak and a low-demand day, a row
      exactly at the threshold is neither, and peak, low and at-threshold rows
      together account for every forecast row. */
  lemma PeakAndLowDisjoint(forecast: seq<PredictedDay>, threshold: int)
    ensures forall r :: !(r in PeakDays(forecast, threshold) && r in LowDemand(forecast, threshold))
    ensures forall r: PredictedDay :: r.yhat == threshold as real ==>
                          r !in PeakDays(forecast, threshold) && r !in LowDemand(forecast, threshold)
    ensures |PeakDays(forecast, threshold)| + |LowDemand(forecast, threshold)|
            + |Filter(forecast, AtThreshold(threshold))| == |forecast|
  {
    FilterPartition(forecast, Above(threshold), Below(threshold), AtThreshold(threshold));
  }

  /** The peak alert is raised (`not peak_days.empty`) exactly when some
      forecast day is strictly above the threshold. */
  lemma PeakAlertRaised(forecast: seq<PredictedDay>, threshold: int)
    ensures |PeakDays(forecast, threshold)| > 0 <==> exists i :: 0 <= i < |forecast| && forecast[i].yhat > threshold as real
  {
    if |PeakDays(forecast, threshold)| > 0 {
      var r := PeakDays(forecast, threshold)[0];
      assert r in PeakDays(forecast, threshold);
      var i :| 0 <= i < |forecast| && forecast[i] == r;
    }
    if exists i :: 0 <= i < |forecast| && forecast[i].yhat > threshold as real {
      var i :| 0 <= i < |forecast| && forecast[i].yhat > threshold as real;
      assert forecast[i] in PeakDays(forecast, threshold);
    }
  }

  /** detect_low_demand_days: nothing for a laundry without orders, otherwise
      the 7-day forecast and its rows strictly below `threshold`. */
  method DetectLowDemandDays(df: seq<OrderRow>, laundryId: string, threshold: int, fit: LaundryFitter)
    returns (forecast: Option<seq<PredictedDay>>, lowDemand: Option<seq<PredictedDay>>)
    ensures forecast.None? <==> forall r :: r in df ==> r.laundryId != laundryId
    ensures lowDemand.None? <==> forecast.None?
    ensures forecast.Some? ==>
      var daily := PrepareLaundryData(df, laundryId);
      |daily| > 0 &&
      forecast.value == ForecastDaysOf(MaxOf(DemandDates(daily)), LowDemandForecastDays, fit(TrainingRows(daily)))
    ensures forecast.Some? && lowDemand.Some? ==> lowDemand.value == LowDemand(forecast.value, threshold)
  {
    var daily := PrepareLaundryData(df, laundryId);
    LaundrySeriesEmpty(df, laundryId);
    if |daily| == 0 {
      return None, None;
    }
    var data, model, future := ForecastDemandLaundry(daily, LowDemandForecastDays, fit);
    var rows := future.Rows();
    forecast := Some(rows);
    lowDemand := Some(LowDemand(rows, threshold));
  }

  /** The data behind show_peak_alerts: nothing for a laundry without orders
      (the page's "no data" message), otherwise the days of the 30-day
      forecast strictly above `threshold`; the alert box appears exactly when
      there is at least one (`PeakAlertRaised`). */
  method PeakAlertDays(df: seq<OrderRow>, laundryId: string, threshold: int, fit: LaundryFitter)
    returns (peaks: Option<seq<PredictedDay>>)
    ensures peaks.None? <==> forall r :: r in df ==> r.laundryId != laundryId
    ensures peaks.Some? ==>
      var daily := PrepareLaundryData(df, laundryId);
      |daily| > 0 &&
      peaks.value == PeakDays(ForecastDaysOf(MaxOf(DemandDates(daily)), PeakForecastDays, fit(TrainingRows(daily))), threshold)
  {
    var daily := PrepareLaundryData(df, laundryId);
    LaundrySeriesEmpty(df, laundryId);
    if |daily| == 0 {
      return None;
    }
    var data, model, future := ForecastDemandLaundry(daily, PeakForecastDays, fit);
    peaks := Some(PeakDays(future.Rows(), threshold));
  }

  // ------------------------------------------------- forecast properties

  /** The forecast days are the consecutive days right after the last order
      day of the laundry, and every row carries the band of width 3. */
  lemma ForecastFollowsSeries(df: seq<OrderRow>, laundryId: string, n: nat, model: LaundryModel, k: int)
    requires PrepareLaundryData(df, laundryId) != [] && 0 <= k < n
    ensures RowsOfLaundry(df, laundryId) != []
    ensures var f := ForecastDaysOf(MaxOf(DemandDates(PrepareLaundryData(df, laundryId))), n, model);
      && f[k].ds == MaxDate(RowsOfLaundry(df, laundryId)) + 1 + k
      && (forall r :: r in RowsOfLaundry(df, laundryId) ==> r.startDate < f[k].ds)
      && (k + 1 < n ==> f[k + 1].ds == f[k].ds + 1)
      && f[k].lower <= f[k].yhat <= f[k].upper && f[k].upper - f[k].lower == 3.0
  {
    var rows := RowsOfLaundry(df, laundryId);
    LaundrySeriesLastDay(df, laundryId);
    forall r | r in rows
      ensures r.startDate <= MaxDate(rows)
    {
      var j :| 0 <= j < |rows| && rows[j] == r;
    }
  }

  /** The band is not clamped: a prediction below 1.5 orders gives a negative
      lower bound, unlike the customer forecast. */
  lemma BandNotClamped(model: LaundryModel, date: int)
    requires model(CalendarOf(date)) < BandHalfWidth
    ensures PredictedDayOf(model, date).lower < 0.0
  {
  }
}
