/** forecast_intermittent_demand: the chronological 80 % training split, the
    90 future feature rows, the clamped 0.7/1.3 band around the model's
    predictions and the historical rows placed before the forecast rows.
    The regressor itself is a parameter: `fit` maps training rows to a
    prediction function. */
module CustomerForecast {
  import opened Wrappers
  import opened Stats
  import opened Calendar
  import opened Orders
  import opened CustomerFeatures

  /** One row of `X`, in the column order of `daily_data` without `orders` and `ds`. */
  datatype Features = Features(
    dayOfWeek: int,
    isWeekend: int,
    month: int,
    dayOfMonth: int,
    timeIdx: int,
    orders7dAvg: real,
    orders28dAvg: real,
    lag1: int,
    lag7: int,
    lag14: int,
    lag28: int,
    isHoliday: int)

  /** A fitted regressor's `predict`, one row at a time. */
  type Model = Features -> real

  /** `RandomForestRegressor(...).fit(X_train, y_train)`, taken as given. */
  type Fitter = seq<(Features, int)> -> Model

  /** One row of `forecast_df`: a historical day (`ds`, `y`) or a forecast day
      (`ds`, `yhat`, `yhat_lower`, `yhat_upper`). */
  datatype ForecastRow =
    | Historical(ds: int, y: int)
    | Predicted(ds: int, yhat: real, lower: real, upper: real)

  /** `future_days = 90`. */
  const FutureDays: nat := 90

  /** `int(len(daily_data) * 0.8)`: the largest whole number of rows not above 80 %. */
  function TrainSize(n: nat): (k: nat)
    ensures k <= n
    ensures k as real <= (4.0 / 5.0) * n as real < (k + 1) as real
    ensures k == 0 <==> n <= 1
  {
    (4 * n) / 5
  }

  /** The training size the forecast evidently needs: `int(n * 0.8)`, but at
      least one row of a non-empty series. */
  function FitSize(n: nat): (k: nat)
    requires n > 0
    ensures 1 <= k <= n
    ensures n >= 2 ==> k == TrainSize(n)
  {
    if TrainSize(n) == 0 then 1 else TrainSize(n)
  }

  /** Row `i` of `X`. */
  function FeaturesAt(f: DailyFrame, i: int): Features
    requires f.Valid() && 0 <= i < |f.ds|
  {
    Features(f.dayOfWeek[i], f.isWeekend[i], f.month[i], f.dayOfMonth[i], f.timeIdx[i],
             f.orders7dAvg[i], f.orders28dAvg[i],
             f.lags[1][i], f.lags[7][i], f.lags[14][i], f.lags[28][i], f.isHoliday[i])
  }

  /** `X[:k]` paired with `y[:k]`: the earliest `k` days. */
  function TrainingPrefix(f: DailyFrame, k: nat): (t: seq<(Features, int)>)
    requires f.Valid() && k <= |f.ds|
    ensures |t| == k
    ensures forall i :: 0 <= i < |t| ==> t[i] == (FeaturesAt(f, i), f.orders[i])
  {
    seq(k, i requires 0 <= i < k => (FeaturesAt(f, i), f.orders[i]))
  }

  /** `X[:train_size]` paired with `y[:train_size]`: the earliest 80 % of the days. */
  function TrainingSet(f: DailyFrame): (t: seq<(Features, int)>)
    requires f.Valid()
    ensures |t| == TrainSize(|f.ds|)
    ensures forall i :: 0 <= i < |t| ==> t[i] == (FeaturesAt(f, i), f.orders[i])
  {
    TrainingPrefix(f, TrainSize(|f.ds|))
  }

  /** The corrected training rows: never empty, and the same as `TrainingSet`
      wherever the source's split leaves a row to train on. */
  function FitSet(f: DailyFrame): (t: seq<(Features, int)>)
    requires f.Valid() && |f.ds| > 0
    ensures 1 <= |t| <= |f.ds|
    ensures forall i :: 0 <= i < |t| ==> t[i] == (FeaturesAt(f, i), f.orders[i])
    ensures |f.ds| >= 2 ==> t == TrainingSet(f)
  {
    TrainingPrefix(f, FitSize(|f.ds|))
  }

  /** `daily_data["orders"].iloc[-k] if len(daily_data) >= k else 0`. */
  function LastLag(orders: seq<int>, k: nat): (v: int)
    requires k >= 1
    ensures |orders| >= k ==> v == orders[|orders| - k]
    ensures |orders| < k ==> v == 0
  {
    if |orders| >= k then orders[|orders| - k] else 0
  }

  /** The feature row of future day `date`: its own calendar fields, and the
      last known rolling means and lags. */
  function FutureFeatures(f: DailyFrame, holidays: set<int>, date: int): (x: Features)
    requires f.Valid() && |f.ds| > 0
    ensures x.dayOfWeek == Weekday(date)
    ensures x.isWeekend == 1 <==> IsWeekendDay(date)
    ensures x.month == Month(date) && x.dayOfMonth == DayOfMonth(date)
    ensures x.timeIdx == date - MinOf(f.ds)
    ensures x.orders7dAvg == f.orders7dAvg[|f.ds| - 1] && x.orders28dAvg == f.orders28dAvg[|f.ds| - 1]
    ensures x.lag1 == f.orders[|f.ds| - 1]
    ensures x.lag7 == LastLag(f.orders, 7) && x.lag14 == LastLag(f.orders, 14) && x.lag28 == LastLag(f.orders, 28)
    ensures x.isHoliday == 1 <==> date in holidays
  {
    var n := |f.ds|;
    var wd := Weekday(date);
    Features(wd, if wd in {5, 6} then 1 else 0, Month(date), DayOfMonth(date),
             date - MinOf(f.ds),
             f.orders7dAvg[n - 1], f.orders28dAvg[n - 1],
             f.orders[n - 1], LastLag(f.orders, 7), LastLag(f.orders, 14), LastLag(f.orders, 28),
             if date in holidays then 1 else 0)
  }

  /** `np.maximum(0, x)`. */
  function ClampZero(x: real): (r: real)
    ensures r >= 0.0 && r >= x
    ensures r == x || r == 0.0
  {
    if x > 0.0 then x else 0.0
  }

  /** The forecast row of day `date` for prediction `p`: the prediction clamped
      at zero, with a band of 70 % and 130 % of it. */
  function PredictedRow(date: int, p: real): (r: ForecastRow)
    ensures r.Predicted? && r.ds == date
    ensures 0.0 <= r.lower <= r.yhat <= r.upper
    ensures r.lower == (7.0 / 10.0) * r.yhat && r.upper == (13.0 / 10.0) * r.yhat
    ensures p >= 0.0 ==> r.yhat == p
    ensures p <= 0.0 ==> r.yhat == 0.0
  {
    Predicted(date, ClampZero(p), ClampZero(p * (7.0 / 10.0)), ClampZero(p * (13.0 / 10.0)))
  }

  /** The forecast row of future day `date` under `model`. */
  function ForecastDay(f: DailyFrame, holidays: set<int>, model: Model, date: int): ForecastRow
    requires f.Valid() && |f.ds| > 0
  {
    PredictedRow(date, model(FutureFeatures(f, holidays, date)))
  }

  /** The 90 forecast rows under `model`: the days right after the last historical day. */
  function FutureRows(f: DailyFrame, holidays: set<int>, model: Model): (r: seq<ForecastRow>)
    requires f.Valid() && |f.ds| > 0
    ensures |r| == FutureDays
    ensures forall k :: 0 <= k < FutureDays ==> r[k] == ForecastDay(f, holidays, model, MaxOf(f.ds) + 1 + k)
  {
    seq(FutureDays, k requires 0 <= k < FutureDays => ForecastDay(f, holidays, model, MaxOf(f.ds) + 1 + k))
  }

  /** `daily_data[["ds", "orders"]].rename(columns={"orders": "y"})`. */
  function HistoricalRows(f: DailyFrame): (h: seq<ForecastRow>)
    requires |f.orders| == |f.ds|
    ensures |h| == |f.ds|
    ensures forall i :: 0 <= i < |h| ==> h[i] == Historical(f.ds[i], f.orders[i])
  {
    seq(|f.ds|, i requires 0 <= i < |f.ds| => Historical(f.ds[i], f.orders[i]))
  }

  /** `future_data`: one feature row per future date, appended in date order. */
  method FutureFeatureRows(f: DailyFrame, holidays: set<int>, dates: seq<int>) returns (rows: seq<Features>)
    requires f.Valid() && |f.ds| > 0
    ensures |rows| == |dates|
    ensures forall j :: 0 <= j < |dates| ==> rows[j] == FutureFeatures(f, holidays, dates[j])
  {
    rows := [];
    for i := 0 to |dates|
      invariant |rows| == i
      invariant forall j :: 0 <= j < i ==> rows[j] == FutureFeatures(f, holidays, dates[j])
    {
      rows := rows + [FutureFeatures(f, holidays, dates[i])];
    }
  }

  /** The 90 future dates, their feature rows, and the model's clamped and
      banded predictions for them. */
  method PredictFuture(f: DailyFrame, holidays: set<int>, model: Model) returns (predicted: seq<ForecastRow>)
    requires f.Valid() && |f.ds| > 0
    ensures predicted == FutureRows(f, holidays, model)
  {
    var lastDate := MaxOf(f.ds);
    var futureDates := seq(FutureDays, i requires 0 <= i < FutureDays => lastDate + 1 + i);

    var futureData := FutureFeatureRows(f, holidays, futureDates);

    var futurePred := seq(FutureDays, i requires 0 <= i < FutureDays => model(futureData[i]));
    predicted := seq(FutureDays, i requires 0 <= i < FutureDays => PredictedRow(futureDates[i], futurePred[i]));

    forall k | 0 <= k < FutureDays
      ensures predicted[k] == ForecastDay(f, holidays, model, lastDate + 1 + k)
    {
      assert futurePred[k] == model(futureData[k]);
    }
  }

  /** The error `model.fit` raises on a training set without rows. */
  datatype ForecastError = NoTrainingRows

  /** forecast_intermittent_demand as written: the forest is fitted on the
      first `int(n * 0.8)` days, which is no day at all for a series of one
      day (a customer whose orders all fall on one day), and the fit raises. */
  method ForecastIntermittentDemandAsWritten(f: DailyFrame, customerData: seq<OrderRow>, fit: Fitter)
    returns (result: Result<(seq<ForecastRow>, seq<ForecastRow>), ForecastError>)
    requires f.Valid()
    ensures result.Err? <==> |f.ds| <= 1
    ensures result.Ok? ==>
      var (historical, forecast) := result.value;
      && historical == HistoricalRows(f)
      && |forecast| == |f.ds| + FutureDays
      && forecast[..|f.ds|] == historical
      && forecast[|f.ds|..] == FutureRows(f, HolidayDates(customerData), fit(TrainingSet(f)))
  {
    var train := TrainingSet(f);
    if |train| == 0 {
      return Err(NoTrainingRows);
    }
    var holidays := HolidayDates(customerData);
    var model := fit(train);
    var predicted := PredictFuture(f, holidays, model);

    var historical := HistoricalRows(f);
    result := Ok((historical, historical + predicted));
  }

  /** forecast_intermittent_demand, corrected: the forest is fitted on at least
      one day, so every customer with orders gets a forecast; for a series of
      two or more days it is the source's forecast. */
  method ForecastIntermittentDemand(f: DailyFrame, customerData: seq<OrderRow>, fit: Fitter)
    returns (historical: seq<ForecastRow>, forecast: seq<ForecastRow>)
    requires f.Valid() && |f.ds| > 0
    ensures historical == HistoricalRows(f)
    ensures |forecast| == |f.ds| + FutureDays
    ensures forecast[..|f.ds|] == historical
    ensures forecast[|f.ds|..] == FutureRows(f, HolidayDates(customerData), fit(FitSet(f)))
    ensures |f.ds| >= 2 ==> forecast[|f.ds|..] == FutureRows(f, HolidayDates(customerData), fit(TrainingSet(f)))
  {
    var holidays := HolidayDates(customerData);
    var model := fit(FitSet(f));
    var predicted := PredictFuture(f, holidays, model);

    historical := HistoricalRows(f);
    forecast := historical + predicted;
  }

  // ------------------------------------------------------------ properties

  /** The future days are the 90 days right after the last historical day, in
      order, and come after every historical day. */
  lemma FutureDatesFollowHistory(f: DailyFrame, i: int, j: int)
    requires f.Valid() && |f.ds| > 0 && 0 <= i < FutureDays && 0 <= j < |f.ds|
    ensures f.ds[j] < MaxOf(f.ds) + 1 + i
  {
  }

  /** The first future row carries exactly the lags the feature builder would
      give a day appended after the series: `lag_k` of position `n`. */
  lemma FirstFutureLags(f: DailyFrame, holidays: set<int>, date: int, next: int)
    requires f.Valid() && |f.ds| > 0
    ensures var x := FutureFeatures(f, holidays, date);
            var ext := f.orders + [next];
            var n := |f.orders|;
            && x.lag1 == Shift(ext, 1)[n]
            && x.lag7 == Shift(ext, 7)[n]
            && x.lag14 == Shift(ext, 14)[n]
            && x.lag28 == Shift(ext, 28)[n]
  {
    var ext := f.orders + [next];
    var n := |f.orders|;
    assert forall j :: 0 <= j < n ==> ext[j] == f.orders[j];
  }

  /** Every future row shares the same rolling means and lags. */
  lemma FutureRowsShareHistory(f: DailyFrame, holidays: set<int>, d1: int, d2: int)
    requires f.Valid() && |f.ds| > 0
    ensures var x, y := FutureFeatures(f, holidays, d1), FutureFeatures(f, holidays, d2);
            && x.orders7dAvg == y.orders7dAvg && x.orders28dAvg == y.orders28dAvg
            && x.lag1 == y.lag1 && x.lag7 == y.lag7 && x.lag14 == y.lag14 && x.lag28 == y.lag28
  {
  }

  /** On a prepared frame the first and last days are the first and last order days. */
  lemma FrameEnds(data: seq<OrderRow>, f: DailyFrame)
    requires |data| > 0 && IsEnhancedFrame(data, f)
    ensures |f.ds| > 0
    ensures MinOf(f.ds) == f.ds[0] == MinDate(data)
    ensures MaxOf(f.ds) == f.ds[|f.ds| - 1] == MaxDate(data)
  {
    DailySeriesContiguous(data, f);
    assert MinOf(f.ds) in f.ds;
    assert MaxOf(f.ds) in f.ds;
  }

  /** On a prepared frame, the future `time_idx` continues the historical one:
      future day `i` gets `n + i`. */
  lemma FutureTimeIndex(data: seq<OrderRow>, f: DailyFrame, holidays: set<int>, i: nat)
    requires |data| > 0 && IsEnhancedFrame(data, f)
    ensures |f.ds| > 0
    ensures FutureFeatures(f, holidays, MaxOf(f.ds) + 1 + i).timeIdx == |f.ds| + i
  {
    FrameEnds(data, f);
  }

  /** The holidays are days of past orders, so no future row is flagged as a holiday. */
  lemma FutureHolidayNever(data: seq<OrderRow>, f: DailyFrame, i: nat)
    requires |data| > 0 && IsEnhancedFrame(data, f)
    ensures |f.ds| > 0
    ensures FutureFeatures(f, HolidayDates(data), MaxOf(f.ds) + 1 + i).isHoliday == 0
  {
    FrameEnds(data, f);
    NoHolidayAfter(data, MaxOf(f.ds) + 1 + i);
  }

  /** No holiday lies after the last order day. */
  lemma NoHolidayAfter(data: seq<OrderRow>, date: int)
    requires |data| > 0 && date > MaxDate(data)
    ensures date !in HolidayDates(data)
  {
    forall r | r in data
      ensures r.startDate < date
    {
      var j :| 0 <= j < |data| && data[j] == r;
      assert data[j].startDate <= MaxDate(data);
    }
  }

  /** The model is trained on the earliest days only: every training row is a
      day before every held-out day. */
  lemma TrainingIsChronological(data: seq<OrderRow>, f: DailyFrame, i: int, j: int)
    requires |data| > 0 && IsEnhancedFrame(data, f)
    requires 0 <= i < TrainSize(|f.ds|) <= j < |f.ds|
    ensures TrainingSet(f)[i].0 == FeaturesAt(f, i) && TrainingSet(f)[i].1 == f.orders[i]
    ensures f.ds[i] < f.ds[j]
  {
  }
}
