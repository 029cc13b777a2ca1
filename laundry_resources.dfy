/** laundry_resource_analysis and the efficiency figures of the resource page:
    per-day order count, water and electricity of one laundry, the expected
    consumption of a fitted line and its residuals, the anomaly flags with
    their labels, the high-usage alert, and litres and kilowatt-hours per
    order. The two regressions and the isolation forest are parameters. */
module LaundryResources {
  import opened Wrappers
  import opened Stats
  import opened Orders
  import opened Grouping
  import opened LaundryForecast

  // ------------------------------------------------- labels and alerts

  /** `daily_usage["AnomalyLabel"]`: the map {1: "Normal", -1: "Anomaly"};
      any other flag maps to a missing value. */
  datatype AnomalyLabel = Normal | Anomaly | Unmapped

  /** check_alerts: the high-usage alert or "Normal". */
  datatype Alert = HighUsageLowOrder | NoAlert

  /** Days with fewer orders than this raise the alert when they are anomalous. */
  const AlertOrderLimit: int := 5

  /** The label of an isolation-forest flag. */
  function LabelOf(flag: int): (l: AnomalyLabel)
    ensures l == Normal <==> flag == 1
    ensures l == Anomaly <==> flag == -1
    ensures l == Unmapped <==> flag != 1 && flag != -1
  {
    if flag == 1 then Normal
    else if flag == -1 then Anomaly
    else Unmapped
  }

  /** check_alerts of one day. */
  function CheckAlert(anomaly: int, orderCount: int): (a: Alert)
    ensures a == HighUsageLowOrder <==> anomaly == -1 && orderCount < AlertOrderLimit
    ensures a == NoAlert <==> anomaly != -1 || orderCount >= AlertOrderLimit
  {
    if anomaly == -1 && orderCount < AlertOrderLimit then HighUsageLowOrder else NoAlert
  }

  // ------------------------------------------------- fitted models as inputs

  /** `LinearRegression().fit(X, y).predict`: fitted on (`OrderCount`, consumption)
      pairs, then evaluated on one `OrderCount`. */
  type Regressor = seq<(int, real)> -> (int -> real)

  /** `IsolationForest(...).fit_predict(X)`: the flag of row `i` for the
      (`WaterError`, `ElectricError`) points. */
  type Detector = seq<(real, real)> -> (int -> int)

  /** The error sklearn raises before fitting on an empty sample. */
  datatype FitError = NoSamples

  // ------------------------------------------------- columns

  /** Two columns side by side: the `X`, `y` pairs of a fit, or the
      (`WaterError`, `ElectricError`) points given to the isolation forest. */
  function Samples<X>(xs: seq<X>, ys: seq<real>): (s: seq<(X, real)>)
    requires |xs| == |ys|
    ensures |s| == |xs|
    ensures forall i :: 0 <= i < |xs| ==> s[i] == (xs[i], ys[i])
  {
    seq(|xs|, i requires 0 <= i < |xs| => (xs[i], ys[i]))
  }

  /** `.predict(X)`: one expected value per row. */
  function PredictColumn(predict: int -> real, xs: seq<int>): (r: seq<real>)
    ensures |r| == |xs|
    ensures forall i :: 0 <= i < |xs| ==> r[i] == predict(xs[i])
  {
    seq(|xs|, i requires 0 <= i < |xs| => predict(xs[i]))
  }

  /** `actual - expected`: the part of each day's consumption the line does not explain. */
  function Residuals(actual: seq<real>, expected: seq<real>): (r: seq<real>)
    requires |actual| == |expected|
    ensures |r| == |actual|
    ensures forall i :: 0 <= i < |actual| ==> actual[i] == expected[i] + r[i]
  {
    seq(|actual|, i requires 0 <= i < |actual| => actual[i] - expected[i])
  }

  /** The first `n` flags of a detector's output. */
  function FlagColumn(flags: int -> int, n: nat): (r: seq<int>)
    ensures |r| == n
    ensures forall i :: 0 <= i < n ==> r[i] == flags(i)
  {
    seq(n, i requires 0 <= i < n => flags(i))
  }

  /** `daily_usage["Anomaly"].map({1: "Normal", -1: "Anomaly"})`. */
  function LabelColumn(anomaly: seq<int>): (r: seq<AnomalyLabel>)
    ensures |r| == |anomaly|
    ensures forall i :: 0 <= i < |anomaly| ==> r[i] == LabelOf(anomaly[i])
  {
    seq(|anomaly|, i requires 0 <= i < |anomaly| => LabelOf(anomaly[i]))
  }

  /** `daily_usage.apply(check_alerts, axis=1)`. */
  function AlertColumn(anomaly: seq<int>, orderCount: seq<int>): (r: seq<Alert>)
    requires |anomaly| == |orderCount|
    ensures |r| == |anomaly|
    ensures forall i :: 0 <= i < |anomaly| ==> r[i] == CheckAlert(anomaly[i], orderCount[i])
  {
    seq(|anomaly|, i requires 0 <= i < |anomaly| => CheckAlert(anomaly[i], orderCount[i]))
  }

  // ------------------------------------------------- the usage table

  /** One displayed row of the alert table: date, order count, consumption and alert. */
  datatype UsageRow = UsageRow(startDate: int, orderCount: int, water: real, electricity: real, alert: Alert)

  /** `daily_usage` with all of its columns. */
  datatype UsageTable = UsageTable(
    startDate: seq<int>,
    orderCount: seq<nat>,
    water: seq<real>,
    electricity: seq<real>,
    expectedWater: seq<real>,
    expectedElectricity: seq<real>,
    waterError: seq<real>,
    electricError: seq<real>,
    anomaly: seq<int>,
    anomalyLabel: seq<AnomalyLabel>,
    alert: seq<Alert>)
  {
    predicate Valid()
    {
      var n := |startDate|;
      && |orderCount| == n && |water| == n && |electricity| == n
      && |expectedWater| == n && |expectedElectricity| == n
      && |waterError| == n && |electricError| == n
      && |anomaly| == n && |anomalyLabel| == n && |alert| == n
    }

    /** The aggregated columns read back as grouped day totals. */
    function Days(): (g: seq<DayTotals>)
      requires Valid()
      ensures |g| == |startDate|
      ensures forall i :: 0 <= i < |startDate| ==>
                g[i] == DayTotals(startDate[i], orderCount[i], water[i], electricity[i])
    {
      seq(|startDate|, i requires 0 <= i < |startDate| =>
        DayTotals(startDate[i], orderCount[i], water[i], electricity[i]))
    }

    /** The table read row by row, in the columns of the alert table. */
    function Rows(): (rs: seq<UsageRow>)
      requires Valid()
      ensures |rs| == |startDate|
      ensures forall i :: 0 <= i < |startDate| ==>
                rs[i] == UsageRow(startDate[i], orderCount[i], water[i], electricity[i], alert[i])
    {
      seq(|startDate|, i requires 0 <= i < |startDate| =>
        UsageRow(startDate[i], orderCount[i], water[i], electricity[i], alert[i]))
    }
  }

  /** The expected-consumption columns come from lines fitted on the day table. */
  predicate HasExpected(u: UsageTable, fitWater: Regressor, fitElectricity: Regressor)
    requires u.Valid()
  {
    && u.expectedWater == PredictColumn(fitWater(Samples<int>(u.orderCount, u.water)), u.orderCount)
    && u.expectedElectricity == PredictColumn(fitElectricity(Samples<int>(u.orderCount, u.electricity)), u.orderCount)
  }

  /** The error columns are the residuals of the consumption columns. */
  predicate HasResiduals(u: UsageTable)
    requires u.Valid()
  {
    && u.waterError == Residuals(u.water, u.expectedWater)
    && u.electricError == Residuals(u.electricity, u.expectedElectricity)
  }

  /** The flags come from the detector on the residuals; labels and alerts from the flags. */
  predicate HasFlags(u: UsageTable, detect: Detector)
    requires u.Valid()
  {
    && u.anomaly == FlagColumn(detect(Samples(u.waterError, u.electricError)), |u.startDate|)
    && u.anomalyLabel == LabelColumn(u.anomaly)
    && u.alert == AlertColumn(u.anomaly, u.orderCount)
  }

  /** laundry_resource_analysis, for a laundry that may have no orders: the
      day table of that laundry with every derived column. A laundry without
      orders gets the empty table and no fit is attempted. */
  method LaundryResourceAnalysis(df: seq<OrderRow>, laundryId: string,
                                 fitWater: Regressor, fitElectricity: Regressor, detect: Detector)
    returns (usage: UsageTable)
    ensures usage.Valid()
    ensures usage.Days() == GroupByDate(RowsOfLaundry(df, laundryId))
    ensures HasExpected(usage, fitWater, fitElectricity)
    ensures HasResiduals(usage)
    ensures HasFlags(usage, detect)
  {
    var g := GroupByDate(RowsOfLaundry(df, laundryId));
    var startDate := seq(|g|, i requires 0 <= i < |g| => g[i].date);
    var orderCount := seq(|g|, i requires 0 <= i < |g| => g[i].count);
    var water := seq(|g|, i requires 0 <= i < |g| => g[i].water);
    var electricity := seq(|g|, i requires 0 <= i < |g| => g[i].electricity);
    if |g| == 0 {
      usage := UsageTable([], [], [], [], [], [], [], [], [], [], []);
      return;
    }

    var expectedWater := PredictColumn(fitWater(Samples<int>(orderCount, water)), orderCount);
    var expectedElectricity := PredictColumn(fitElectricity(Samples<int>(orderCount, electricity)), orderCount);

    var waterError := Residuals(water, expectedWater);
    var electricError := Residuals(electricity, expectedElectricity);

    var anomaly := FlagColumn(detect(Samples(waterError, electricError)), |g|);
    var labels := LabelColumn(anomaly);
    var alert := AlertColumn(anomaly, orderCount);

    usage := UsageTable(startDate, orderCount, water, electricity, expectedWater, expectedElectricity,
                        waterError, electricError, anomaly, labels, alert);
    assert usage.Days() == g;
  }

  /** `LinearRegression().fit` refuses a sample without rows. */
  function FitInput(samples: seq<(int, real)>): (r: Result<seq<(int, real)>, FitError>)
    ensures r.Err? <==> |samples| == 0
    ensures r.Ok? ==> r.value == samples
  {
    if |samples| == 0 then Err(NoSamples) else Ok(samples)
  }

  /** laundry_resource_analysis as written: the first fit runs on the day
      table whatever its size, so a laundry without orders ends in the fit's
      error and never yields a table, let alone an empty one. */
  method LaundryResourceAnalysisAsWritten(df: seq<OrderRow>, laundryId: string,
                                          fitWater: Regressor, fitElectricity: Regressor, detect: Detector)
    returns (result: Result<UsageTable, FitError>)
    ensures result.Err? <==> forall r :: r in df ==> r.laundryId != laundryId
    ensures result.Ok? ==> |result.value.startDate| > 0
    ensures result.Ok? ==>
      && result.value.Valid()
      && result.value.Days() == GroupByDate(RowsOfLaundry(df, laundryId))
      && HasExpected(result.value, fitWater, fitElectricity)
      && HasResiduals(result.value)
      && HasFlags(result.value, detect)
  {
    var g := GroupByDate(RowsOfLaundry(df, laundryId));
    var orderCount := seq(|g|, i requires 0 <= i < |g| => g[i].count);
    var water := seq(|g|, i requires 0 <= i < |g| => g[i].water);
    LaundrySeriesEmpty(df, laundryId);
    var checked := FitInput(Samples<int>(orderCount, water));
    if checked.Err? {
      return Err(checked.error);
    }
    var usage := LaundryResourceAnalysis(df, laundryId, fitWater, fitElectricity, detect);
    return Ok(usage);
  }

  // ------------------------------------------------- properties

  /** Each row of the table is one order day of the laundry, in increasing
      order, with that day's number of orders (at least one), water and
      electricity. */
  lemma UsageAggregation(df: seq<OrderRow>, laundryId: string, usage: UsageTable)
    requires usage.Valid() && usage.Days() == GroupByDate(RowsOfLaundry(df, laundryId))
    ensures forall i, j :: 0 <= i < j < |usage.startDate| ==> usage.startDate[i] < usage.startDate[j]
    ensures forall i :: 0 <= i < |usage.startDate| ==>
      var d := usage.startDate[i];
      && usage.orderCount[i] == CountOn(RowsOfLaundry(df, laundryId), d) >= 1
      && usage.water[i] == WaterOn(RowsOfLaundry(df, laundryId), d)
      && usage.electricity[i] == ElectricityOn(RowsOfLaundry(df, laundryId), d)
  {
    var rows := RowsOfLaundry(df, laundryId);
    GroupByDateSpec(rows);
    GroupByDateRows(rows);
    forall i | 0 <= i < |usage.startDate|
      ensures usage.startDate[i] == GroupByDate(rows)[i].date
      ensures usage.orderCount[i] == GroupByDate(rows)[i].count
    {
      assert usage.Days()[i] == GroupByDate(rows)[i];
    }
  }

  /** The resource table and the demand series of the same laundry have the
      same days with the same order counts. */
  lemma UsageMatchesDemand(df: seq<OrderRow>, laundryId: string, usage: UsageTable)
    requires usage.Valid() && usage.Days() == GroupByDate(RowsOfLaundry(df, laundryId))
    ensures usage.startDate == DemandDates(PrepareLaundryData(df, laundryId))
    ensures usage.orderCount == DemandCounts(PrepareLaundryData(df, laundryId))
  {
    var g := GroupByDate(RowsOfLaundry(df, laundryId));
    forall i | 0 <= i < |g|
      ensures usage.startDate[i] == g[i].date && usage.orderCount[i] == g[i].count
    {
      assert usage.Days()[i] == g[i];
    }
  }

  /** The table is empty exactly when the laundry has no orders, so the
      "no data" message is shown exactly for such a laundry. */
  lemma UsageEmpty(df: seq<OrderRow>, laundryId: string, usage: UsageTable)
    requires usage.Valid() && usage.Days() == GroupByDate(RowsOfLaundry(df, laundryId))
    ensures |usage.startDate| == 0 <==> forall r :: r in df ==> r.laundryId != laundryId
  {
    UsageMatchesDemand(df, laundryId, usage);
    LaundrySeriesEmpty(df, laundryId);
  }

  /** `alerts`: the rows whose alert is the high-usage alert. */
  function Alerts(usage: UsageTable): (alerts: seq<UsageRow>)
    requires usage.Valid()
    ensures |alerts| <= |usage.startDate|
    ensures forall r :: r in alerts <==> r in usage.Rows() && r.alert == HighUsageLowOrder
  {
    var alerts := Filter(usage.Rows(), (r: UsageRow) => r.alert == HighUsageLowOrder);
    forall r | r in usage.Rows() && r.alert == HighUsageLowOrder
      ensures r in alerts
    {
      FilterKeeps(usage.Rows(), (r: UsageRow) => r.alert == HighUsageLowOrder, r);
    }
    alerts
  }

  /** A day is listed among the alerts exactly when it is flagged anomalous and
      has fewer than five orders; such a day is labelled "Anomaly". */
  lemma AlertsAreLowOrderAnomalies(usage: UsageTable, detect: Detector)
    requires usage.Valid() && HasFlags(usage, detect)
    ensures forall i :: 0 <= i < |usage.startDate| ==>
      (usage.Rows()[i] in Alerts(usage) <==> usage.anomaly[i] == -1 && usage.orderCount[i] < AlertOrderLimit)
    ensures forall i :: 0 <= i < |usage.startDate| && usage.alert[i] == HighUsageLowOrder ==>
      usage.anomalyLabel[i] == Anomaly
  {
    forall i | 0 <= i < |usage.startDate| && usage.alert[i] == HighUsageLowOrder
      ensures usage.Rows()[i] in Alerts(usage)
    {
      FilterKeeps(usage.Rows(), (r: UsageRow) => r.alert == HighUsageLowOrder, usage.Rows()[i]);
    }
  }

  /** With the forest's flags all in {1, -1}, every day carries exactly one of
      the two labels: the "Normal" and "Anomaly" days together are all days. */
  lemma LabelsCoverAllDays(anomaly: seq<int>)
    requires forall i :: 0 <= i < |anomaly| ==> anomaly[i] == 1 || anomaly[i] == -1
    ensures forall i :: 0 <= i < |anomaly| ==> LabelColumn(anomaly)[i] != Unmapped
    ensures |Filter(LabelColumn(anomaly), (l: AnomalyLabel) => l == Normal)|
            + |Filter(LabelColumn(anomaly), (l: AnomalyLabel) => l == Anomaly)| == |anomaly|
  {
    var labels := LabelColumn(anomaly);
    FilterPartition(labels, (l: AnomalyLabel) => l == Normal, (l: AnomalyLabel) => l == Anomaly,
                    (l: AnomalyLabel) => l == Unmapped);
    FilterNone(labels, (l: AnomalyLabel) => l == Unmapped);
  }

  // ------------------------------------------------- efficiency

  /** `WaterConsumption.sum() / OrderCount.sum()`: litres per order. */
  function WaterPerOrder(usage: UsageTable): (litres: real)
    requires usage.Valid() && SumInt(usage.orderCount) > 0
    ensures litres * SumInt(usage.orderCount) as real == Sum(usage.water)
  {
    QuotientTimesDivisor(Sum(usage.water), SumInt(usage.orderCount) as real);
    Sum(usage.water) / SumInt(usage.orderCount) as real
  }

  /** `ElectricityConsumption.sum() / OrderCount.sum()`: kilowatt-hours per order. */
  function ElectricityPerOrder(usage: UsageTable): (kwh: real)
    requires usage.Valid() && SumInt(usage.orderCount) > 0
    ensures kwh * SumInt(usage.orderCount) as real == Sum(usage.electricity)
  {
    QuotientTimesDivisor(Sum(usage.electricity), SumInt(usage.orderCount) as real);
    Sum(usage.electricity) / SumInt(usage.orderCount) as real
  }

  /** `consumption / OrderCount`, day by day. */
  function PerOrderColumn(consumption: seq<real>, orderCount: seq<nat>): (r: seq<real>)
    requires |consumption| == |orderCount|
    requires forall i :: 0 <= i < |orderCount| ==> orderCount[i] > 0
    ensures |r| == |consumption|
    ensures forall i :: 0 <= i < |r| ==> r[i] * orderCount[i] as real == consumption[i]
  {
    var r := seq(|consumption|, i requires 0 <= i < |consumption| => consumption[i] / orderCount[i] as real);
    forall i | 0 <= i < |r|
      ensures r[i] * orderCount[i] as real == consumption[i]
    {
      QuotientTimesDivisor(consumption[i], orderCount[i] as real);
    }
    r
  }

  /** The column sums of a table equal the totals of its day rows. */
  lemma {:induction false} ColumnTotals(g: seq<DayTotals>, counts: seq<nat>, water: seq<real>, electricity: seq<real>)
    requires |counts| == |g| && |water| == |g| && |electricity| == |g|
    requires forall i :: 0 <= i < |g| ==>
      counts[i] == g[i].count && water[i] == g[i].water && electricity[i] == g[i].electricity
    ensures SumInt(counts) == TotalCount(g)
    ensures Sum(water) == TotalWater(g)
    ensures Sum(electricity) == TotalElectricity(g)
  {
    if |g| > 0 {
      ColumnTotals(g[1..], counts[1..], water[1..], electricity[1..]);
    }
  }

  /** Litres and kilowatt-hours per order are the laundry's total water and
      electricity over its number of orders: grouping by day changes neither
      the numerator nor the denominator. */
  lemma EfficiencyIsPerOrderMean(df: seq<OrderRow>, laundryId: string, usage: UsageTable)
    requires usage.Valid() && usage.Days() == GroupByDate(RowsOfLaundry(df, laundryId))
    requires RowsOfLaundry(df, laundryId) != []
    ensures SumInt(usage.orderCount) == |RowsOfLaundry(df, laundryId)| > 0
    ensures WaterPerOrder(usage) == Sum(WaterColumn(RowsOfLaundry(df, laundryId))) / |RowsOfLaundry(df, laundryId)| as real
    ensures ElectricityPerOrder(usage)
            == Sum(ElectricityColumn(RowsOfLaundry(df, laundryId))) / |RowsOfLaundry(df, laundryId)| as real
  {
    var rows := RowsOfLaundry(df, laundryId);
    var g := GroupByDate(rows);
    GroupByDateTotals(rows);
    forall i | 0 <= i < |g|
      ensures usage.orderCount[i] == g[i].count && usage.water[i] == g[i].water
      ensures usage.electricity[i] == g[i].electricity
    {
      assert usage.Days()[i] == g[i];
    }
    ColumnTotals(g, usage.orderCount, usage.water, usage.electricity);
  }

  /** The day-by-day ratio is defined on every day of the table and is that
      day's consumption per order of the laundry's own rows. */
  lemma DailyEfficiency(df: seq<OrderRow>, laundryId: string, usage: UsageTable)
    requires usage.Valid() && usage.Days() == GroupByDate(RowsOfLaundry(df, laundryId))
    ensures forall i :: 0 <= i < |usage.orderCount| ==> usage.orderCount[i] > 0
    ensures forall i :: 0 <= i < |usage.orderCount| ==>
      var d := usage.startDate[i];
      && CountOn(RowsOfLaundry(df, laundryId), d) >= 1
      && PerOrderColumn(usage.water, usage.orderCount)[i]
        == WaterOn(RowsOfLaundry(df, laundryId), d) / CountOn(RowsOfLaundry(df, laundryId), d) as real
      && PerOrderColumn(usage.electricity, usage.orderCount)[i]
        == ElectricityOn(RowsOfLaundry(df, laundryId), d) / CountOn(RowsOfLaundry(df, laundryId), d) as real
  {
    UsageAggregation(df, laundryId, usage);
  }
}
