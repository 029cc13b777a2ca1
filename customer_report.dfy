/** The numbers and labels of generate_business_report, the averages of
    customer_resource_analysis, the projection of calculate_future_resource
    and the statistics of generate_customer_insights. */
module CustomerReport {
  import opened Wrappers
  import opened Stats
  import opened Calendar
  import opened Orders
  import opened Grouping
  import opened CustomerForecast

  // ------------------------------------------------------ forecast period

  /** `forecast[forecast["ds"] > after]`, in order. */
  function RowsAfter(forecast: seq<ForecastRow>, after: int): (p: seq<ForecastRow>)
    ensures forall r :: r in p <==> r in forecast && r.ds > after
    ensures forall i :: 0 <= i < |p| ==> p[i] in forecast && p[i].ds > after
  {
    var p := Filter(forecast, (r: ForecastRow) => r.ds > after);
    forall r | r in forecast && r.ds > after
      ensures r in p
    {
      FilterKeeps(forecast, (r: ForecastRow) => r.ds > after, r);
    }
    assert forall i :: 0 <= i < |p| ==> p[i] in p;
    p
  }

  /** The rows that carry a prediction (pandas skips the `NaN` yhat of historical rows). */
  function Predictions(rows: seq<ForecastRow>): (ps: seq<ForecastRow>)
    ensures |ps| <= |rows|
    ensures forall r :: r in ps <==> r in rows && r.Predicted?
  {
    var ps := Filter(rows, (r: ForecastRow) => r.Predicted?);
    forall r | r in rows && r.Predicted?
      ensures r in ps
    {
      FilterKeeps(rows, (r: ForecastRow) => r.Predicted?, r);
    }
    ps
  }

  predicate AllPredicted(ps: seq<ForecastRow>)
  {
    forall i :: 0 <= i < |ps| ==> ps[i].Predicted?
  }

  function YhatColumn(ps: seq<ForecastRow>): (c: seq<real>)
    requires AllPredicted(ps)
    ensures |c| == |ps| && forall i :: 0 <= i < |ps| ==> c[i] == ps[i].yhat
  {
    seq(|ps|, i requires 0 <= i < |ps| => ps[i].yhat)
  }

  function LowerColumn(ps: seq<ForecastRow>): (c: seq<real>)
    requires AllPredicted(ps)
    ensures |c| == |ps| && forall i :: 0 <= i < |ps| ==> c[i] == ps[i].lower
  {
    seq(|ps|, i requires 0 <= i < |ps| => ps[i].lower)
  }

  function UpperColumn(ps: seq<ForecastRow>): (c: seq<real>)
    requires AllPredicted(ps)
    ensures |c| == |ps| && forall i :: 0 <= i < |ps| ==> c[i] == ps[i].upper
  {
    seq(|ps|, i requires 0 <= i < |ps| => ps[i].upper)
  }

  function DsColumn(rows: seq<ForecastRow>): (c: seq<int>)
    ensures |c| == |rows| && forall i :: 0 <= i < |rows| ==> c[i] == rows[i].ds
  {
    seq(|rows|, i requires 0 <= i < |rows| => rows[i].ds)
  }

  // ------------------------------------------------------------- the report

  datatype Volatility = Low | Medium

  /** The computed content of the report; the text around it is formatting. */
  datatype Report = Report(
    startYear: int, startMonth: int,
    endYear: int, endMonth: int,
    avgDaily: real, totalOrders: real,
    avgLower: real, avgUpper: real,
    minStock: int, weeklyLow: int, weeklyHigh: int, bufferStock: int,
    topItemCount: nat,
    volatility: Volatility,
    stockoutMinimal: bool,
    wasteLow: bool,
    leanInventory: bool,
    weeklyDeliveries: bool,
    allocationPercent: int,
    weekendDemand: bool)

  /** "Low" when `avg_upper / avg_lower < 1.5`. For a zero lower average
      numpy's quotient is `inf` (positive upper average), `nan` (zero upper
      average) or `-inf` (negative upper average), and only `-inf` compares
      below 1.5. */
  function VolatilityOf(avgLower: real, avgUpper: real): (v: Volatility)
    ensures avgLower > 0.0 ==> (v == Low <==> avgUpper < (3.0 / 2.0) * avgLower)
    ensures avgLower < 0.0 ==> (v == Low <==> avgUpper > (3.0 / 2.0) * avgLower)
    ensures avgLower == 0.0 ==> (v == Low <==> avgUpper < 0.0)
  {
    if avgLower == 0.0 then (if avgUpper < 0.0 then Low else Medium)
    else
      assert avgLower > 0.0 ==> (avgUpper / avgLower < 3.0 / 2.0 <==> avgUpper < (3.0 / 2.0) * avgLower) by {
        if avgLower > 0.0 {
          QuotientCompare(avgUpper, avgLower, 3.0 / 2.0);
        }
      }
      assert avgLower < 0.0 ==> (avgUpper / avgLower < 3.0 / 2.0 <==> avgUpper > (3.0 / 2.0) * avgLower) by {
        if avgLower < 0.0 {
          assert avgUpper / avgLower == (-avgUpper) / (-avgLower);
          QuotientCompare(-avgUpper, -avgLower, 3.0 / 2.0);
        }
      }
      if avgUpper / avgLower < 3.0 / 2.0 then Low else Medium
  }

  /** The distinct values of the `Item` column. */
  function ItemSet(data: seq<OrderRow>): set<string>
  {
    set r | r in data :: r.item
  }

  /** `len(customer_data["Item"].value_counts().head(3))`. */
  function TopItemCount(data: seq<OrderRow>): (k: nat)
    ensures k <= 3 && k <= |ItemSet(data)|
    ensures k == 3 || k == |ItemSet(data)|
  {
    if |ItemSet(data)| >= 3 then 3 else |ItemSet(data)|
  }

  /** `customer_data["IsWeekend"].mean() > 0.3`; the mean of no rows is `nan`, which compares false. */
  function WeekendDemand(data: seq<OrderRow>): (b: bool)
    ensures b <==> |data| > 0 && 10 * SumInt(WeekendColumn(data)) > 3 * |data|
  {
    var weekend := SumInt(WeekendColumn(data));
    assert |data| > 0 ==> (weekend as real / |data| as real > 3.0 / 10.0 <==> 10 * weekend > 3 * |data|) by {
      if |data| > 0 {
        QuotientCompare(weekend as real, |data| as real, 3.0 / 10.0);
      }
    }
    |data| > 0 && SumInt(WeekendColumn(data)) as real / |data| as real > 3.0 / 10.0
  }

  /** The report over the days `dates` of the forecast period and its
      predicted rows `ps`. */
  function ReportOf(dates: seq<int>, ps: seq<ForecastRow>, customerData: seq<OrderRow>): (rep: Report)
    requires |dates| > 0 && |ps| > 0 && AllPredicted(ps)
    ensures rep.totalOrders == rep.avgDaily * |ps| as real
    ensures rep.minStock >= 1 && rep.topItemCount <= 3
    ensures rep.stockoutMinimal <==> rep.avgDaily < 1.0
    ensures rep.leanInventory <==> rep.avgDaily < 1.0
    ensures rep.wasteLow <==> rep.avgDaily > 1.0 / 2.0
    ensures rep.weeklyDeliveries <==> rep.avgDaily < 2.0
    ensures rep.allocationPercent == 70 <==> rep.topItemCount == 3
    ensures rep.allocationPercent == 100 <==> rep.topItemCount < 3
    ensures rep.weekendDemand <==> 10 * SumInt(WeekendColumn(customerData)) > 3 * |customerData| > 0
    ensures rep.avgDaily == Mean(YhatColumn(ps)) && rep.avgLower == Mean(LowerColumn(ps)) && rep.avgUpper == Mean(UpperColumn(ps))
    ensures rep.minStock == MinStock(rep.avgLower)
    ensures rep.weeklyLow == RoundHalfEven(rep.avgDaily * 7.0 * (4.0 / 5.0))
    ensures rep.weeklyHigh == RoundHalfEven(rep.avgDaily * 7.0 * (6.0 / 5.0))
    ensures rep.bufferStock == RoundHalfEven(rep.avgUpper * 2.0)
    ensures rep.volatility == VolatilityOf(rep.avgLower, rep.avgUpper)
    ensures rep.topItemCount == TopItemCount(customerData)
  {
    var first, last := CivilFromDays(MinOf(dates)), CivilFromDays(MaxOf(dates));
    var avgDaily := Mean(YhatColumn(ps));
    var avgLower := Mean(LowerColumn(ps));
    var avgUpper := Mean(UpperColumn(ps));
    var topItems := TopItemCount(customerData);
    Report(
      first.year, first.month, last.year, last.month,
      avgDaily, Sum(YhatColumn(ps)), avgLower, avgUpper,
      MinStock(avgLower),
      RoundHalfEven(avgDaily * 7.0 * (4.0 / 5.0)),
      RoundHalfEven(avgDaily * 7.0 * (6.0 / 5.0)),
      RoundHalfEven(avgUpper * 2.0),
      topItems,
      VolatilityOf(avgLower, avgUpper),
      avgDaily < 1.0,
      avgDaily > 1.0 / 2.0,
      avgDaily < 1.0,
      avgDaily < 2.0,
      if topItems >= 3 then 70 else 100,
      WeekendDemand(customerData))
  }

  /** `max(1, round(avg_lower))`. */
  function MinStock(avgLower: real): (k: int)
    ensures k >= 1 && k >= RoundHalfEven(avgLower)
    ensures k == 1 || k == RoundHalfEven(avgLower)
  {
    if RoundHalfEven(avgLower) > 1 then RoundHalfEven(avgLower) else 1
  }

  /** generate_business_report: `None` where the source raises, that is when
      no row after the last historical day carries a prediction (`round` of
      the `nan` mean, `strftime` of `NaT`). */
  function BusinessReport(actualDs: seq<int>, forecast: seq<ForecastRow>, customerData: seq<OrderRow>): (rep: Option<Report>)
    ensures rep.Some? <==>
      |actualDs| > 0 && exists r :: r in forecast && r.Predicted? && r.ds > MaxOf(actualDs)
    ensures rep.Some? ==> rep.value.minStock >= 1 && rep.value.topItemCount <= 3
    ensures rep.Some? ==>
      rep.value == ReportOf(DsColumn(RowsAfter(forecast, MaxOf(actualDs))),
                            Predictions(RowsAfter(forecast, MaxOf(actualDs))), customerData)
  {
    if |actualDs| == 0 then None
    else
      var period := RowsAfter(forecast, MaxOf(actualDs));
      var ps := Predictions(period);
      if |ps| == 0 then None
      else
        assert ps[0] in ps;
        PredictionsArePredicted(period);
        Some(ReportOf(DsColumn(period), ps, customerData))
  }

  lemma PredictionsArePredicted(rows: seq<ForecastRow>)
    ensures AllPredicted(Predictions(rows))
    ensures |Predictions(rows)| > 0 ==> |rows| > 0
  {
    var ps := Predictions(rows);
    forall i | 0 <= i < |ps|
      ensures ps[i].Predicted?
    {
      assert ps[i] in ps;
    }
  }

  /** The rows a forecaster produces: clamped predictions with the 0.7/1.3 band. */
  predicate Banded(r: ForecastRow)
  {
    r.Predicted? ==> 0.0 <= r.yhat && r.lower == (7.0 / 10.0) * r.yhat && r.upper == (13.0 / 10.0) * r.yhat
  }

  /** Every row forecast_intermittent_demand produces is banded. */
  lemma ForecastRowsBanded(f: CustomerFeatures.DailyFrame, holidays: set<int>, model: Model, r: ForecastRow)
    requires f.Valid() && |f.ds| > 0
    requires r in HistoricalRows(f) + FutureRows(f, holidays, model)
    ensures Banded(r)
  {
    var h, fut := HistoricalRows(f), FutureRows(f, holidays, model);
    if r !in h {
      var k :| 0 <= k < |fut| && fut[k] == r;
    }
  }

  /** The period's predicted rows of a banded forecast are banded. */
  lemma BandedPredictions(actualDs: seq<int>, forecast: seq<ForecastRow>)
    requires |actualDs| > 0
    requires forall r :: r in forecast ==> Banded(r)
    ensures forall i :: 0 <= i < |Predictions(RowsAfter(forecast, MaxOf(actualDs)))| ==>
      Banded(Predictions(RowsAfter(forecast, MaxOf(actualDs)))[i])
  {
    var ps := Predictions(RowsAfter(forecast, MaxOf(actualDs)));
    forall i | 0 <= i < |ps|
      ensures Banded(ps[i])
    {
      assert ps[i] in ps;
    }
  }

  /** On banded rows the mean bounds are 0.7 and 1.3 times the mean prediction, which is not negative. */
  lemma BandedMeans(ps: seq<ForecastRow>)
    requires |ps| > 0 && AllPredicted(ps)
    requires forall i :: 0 <= i < |ps| ==> Banded(ps[i])
    ensures Mean(YhatColumn(ps)) >= 0.0
    ensures Mean(LowerColumn(ps)) == (7.0 / 10.0) * Mean(YhatColumn(ps))
    ensures Mean(UpperColumn(ps)) == (13.0 / 10.0) * Mean(YhatColumn(ps))
  {
    var ys, n := YhatColumn(ps), |ps| as real;
    SumScaled(ys, LowerColumn(ps), 7.0 / 10.0);
    SumScaled(ys, UpperColumn(ps), 13.0 / 10.0);
    SumNonNegative(ys);
    ScaledQuotient(7.0 / 10.0, Sum(ys), n);
    ScaledQuotient(13.0 / 10.0, Sum(ys), n);
  }

  /** On banded rows the upper/lower ratio is 13/7, so the volatility is never "Low". */
  lemma BandedReportIsMedium(dates: seq<int>, ps: seq<ForecastRow>, customerData: seq<OrderRow>)
    requires |dates| > 0 && |ps| > 0 && AllPredicted(ps)
    requires forall i :: 0 <= i < |ps| ==> Banded(ps[i])
    ensures var rep := ReportOf(dates, ps, customerData);
            && rep.avgLower == (7.0 / 10.0) * rep.avgDaily
            && rep.avgUpper == (13.0 / 10.0) * rep.avgDaily
            && rep.volatility == Medium
  {
    BandedMeans(ps);
    var m := Mean(YhatColumn(ps));
    if m != 0.0 {
      assert ((13.0 / 10.0) * m) / ((7.0 / 10.0) * m) == 13.0 / 7.0;
    }
  }

  /** On banded rows the weekly range's low end does not exceed its high end
      and the buffer is not negative. */
  lemma BandedStockFigures(dates: seq<int>, ps: seq<ForecastRow>, customerData: seq<OrderRow>)
    requires |dates| > 0 && |ps| > 0 && AllPredicted(ps)
    requires forall i :: 0 <= i < |ps| ==> Banded(ps[i])
    ensures var rep := ReportOf(dates, ps, customerData);
            && 0 <= rep.weeklyLow <= rep.weeklyHigh
            && rep.bufferStock >= 0
  {
    BandedMeans(ps);
    var m := Mean(YhatColumn(ps));
    RoundMonotone(0.0, m * 7.0 * (4.0 / 5.0));
    RoundMonotone(m * 7.0 * (4.0 / 5.0), m * 7.0 * (6.0 / 5.0));
    RoundMonotone(0.0, Mean(UpperColumn(ps)) * 2.0);
  }

  /** The forecaster's report is never "Low" volatility and its stock figures are ordered. */
  lemma ForecastReport(actualDs: seq<int>, forecast: seq<ForecastRow>, customerData: seq<OrderRow>)
    requires forall r :: r in forecast ==> Banded(r)
    requires BusinessReport(actualDs, forecast, customerData).Some?
    ensures var rep := BusinessReport(actualDs, forecast, customerData).value;
            && rep.volatility == Medium
            && rep.minStock >= 1
            && 0 <= rep.weeklyLow <= rep.weeklyHigh
            && rep.bufferStock >= 0
  {
    var period := RowsAfter(forecast, MaxOf(actualDs));
    var ps := Predictions(period);
    PredictionsArePredicted(period);
    BandedPredictions(actualDs, forecast);
    BandedReportIsMedium(DsColumn(period), ps, customerData);
    BandedStockFigures(DsColumn(period), ps, customerData);
  }

  lemma {:induction false} SumNonNegative(s: seq<real>)
    requires forall i :: 0 <= i < |s| ==> s[i] >= 0.0
    ensures Sum(s) >= 0.0
  {
    if |s| > 0 {
      SumNonNegative(s[1..]);
    }
  }

  /** The labels that share a threshold agree: lean inventory exactly when the
      stockout risk is minimal, and then deliveries are weekly; bi-weekly
      deliveries mean low waste; 70 % goes to the top items exactly when the
      customer ordered at least three distinct items; the projected total is
      the daily average over every predicted day. */
  lemma ReportLabels(dates: seq<int>, ps: seq<ForecastRow>, customerData: seq<OrderRow>)
    requires |dates| > 0 && |ps| > 0 && AllPredicted(ps)
    ensures var rep := ReportOf(dates, ps, customerData);
            && (rep.leanInventory <==> rep.stockoutMinimal)
            && (rep.stockoutMinimal ==> rep.weeklyDeliveries)
            && (!rep.weeklyDeliveries ==> rep.wasteLow)
            && (rep.allocationPercent == 70 <==> |ItemSet(customerData)| >= 3)
            && (rep.allocationPercent == 100 <==> |ItemSet(customerData)| < 3)
            && rep.totalOrders == rep.avgDaily * |ps| as real
  {
    var total, n := Sum(YhatColumn(ps)), |ps| as real;
    assert (total / n) * n == total;
  }

  /** The months of the period: the first day lies in the start month and the
      last day in the end month. */
  lemma ReportPeriodMonths(dates: seq<int>, ps: seq<ForecastRow>, customerData: seq<OrderRow>)
    requires |dates| > 0 && |ps| > 0 && AllPredicted(ps)
    ensures var rep := ReportOf(dates, ps, customerData);
            && ValidDate(Date(rep.startYear, rep.startMonth, 1))
            && ValidDate(Date(rep.endYear, rep.endMonth, 1))
            && DaysFromCivil(Date(rep.startYear, rep.startMonth, 1)) <= MinOf(dates)
            && MinOf(dates) < DaysFromCivil(Date(rep.startYear, rep.startMonth, 1)) + MonthLength(rep.startYear, rep.startMonth)
            && DaysFromCivil(Date(rep.endYear, rep.endMonth, 1)) <= MaxOf(dates)
            && MaxOf(dates) < DaysFromCivil(Date(rep.endYear, rep.endMonth, 1)) + MonthLength(rep.endYear, rep.endMonth)
  {
    var first := CivilFromDays(MinOf(dates));
    var last := CivilFromDays(MaxOf(dates));
    assert ValidDate(Date(first.year, first.month, 1));
    assert ValidDate(Date(last.year, last.month, 1));
  }

  /** The weekend label needs at least one weekend order, and a customer
      ordering only on weekends gets it. */
  lemma WeekendDemandShare(data: seq<OrderRow>)
    requires forall r :: r in data ==> r.isWeekend == 0 || r.isWeekend == 1
    ensures WeekendDemand(data) ==> exists r :: r in data && r.isWeekend == 1
    ensures |data| > 0 && (forall r :: r in data ==> r.isWeekend == 1) ==> WeekendDemand(data)
  {
    var ws := WeekendColumn(data);
    if forall r :: r in data ==> r.isWeekend <= 0 {
      NoWeekendOrders(data);
    }
    if |data| > 0 && forall r :: r in data ==> r.isWeekend == 1 {
      forall i | 0 <= i < |ws|
        ensures 1 <= ws[i] <= 1
      {
        assert data[i] in data;
      }
      SumIntBounds(ws, 1, 1);
      var n := |data| as real;
      assert SumInt(ws) as real == n;
      DivSelf(n);
    }
  }

  lemma NoWeekendOrders(data: seq<OrderRow>)
    requires forall r :: r in data ==> r.isWeekend <= 0
    ensures !WeekendDemand(data)
  {
    var ws := WeekendColumn(data);
    forall i | 0 <= i < |ws|
      ensures ws[i] <= 0
    {
      assert data[i] in data;
    }
    SumIntAtMostZero(ws);
    if |data| > 0 {
      var t, n := SumInt(ws) as real, |data| as real;
      assert t <= 0.0 && n > 0.0;
      assert t / n <= 0.0;
    }
  }

  lemma {:induction false} SumIntAtMostZero(s: seq<int>)
    requires forall i :: 0 <= i < |s| ==> s[i] <= 0
    ensures SumInt(s) <= 0
  {
    if |s| > 0 {
      SumIntAtMostZero(s[1..]);
    }
  }

  // ---------------------------------------------------------- resources

  /** One row of `resource_usage`: a day's water and electricity sums. */
  datatype DayResources = DayResources(date: int, water: real, electricity: real)

  /** What customer_resource_analysis returns. */
  datatype ResourceSummary = ResourceSummary(usage: seq<DayResources>, avgWater: real, avgElectricity: real)

  function UsageWater(u: seq<DayResources>): real
  {
    if |u| == 0 then 0.0 else u[0].water + UsageWater(u[1..])
  }

  function UsageElectricity(u: seq<DayResources>): real
  {
    if |u| == 0 then 0.0 else u[0].electricity + UsageElectricity(u[1..])
  }

  function Resources(g: seq<DayTotals>): (u: seq<DayResources>)
    ensures |u| == |g|
    ensures forall i :: 0 <= i < |g| ==> u[i] == DayResources(g[i].date, g[i].water, g[i].electricity)
    ensures UsageWater(u) == TotalWater(g) && UsageElectricity(u) == TotalElectricity(g)
  {
    if |g| == 0 then [] else [DayResources(g[0].date, g[0].water, g[0].electricity)] + Resources(g[1..])
  }

  /** customer_resource_analysis: per-order averages over all of a customer's
      orders and the water and electricity of each order day. */
  function CustomerResourceAnalysis(data: seq<OrderRow>): (s: ResourceSummary)
    requires |data| > 0
    ensures UsageWater(s.usage) == Sum(WaterColumn(data))
    ensures UsageElectricity(s.usage) == Sum(ElectricityColumn(data))
    ensures s.avgWater * |data| as real == UsageWater(s.usage)
    ensures s.avgElectricity * |data| as real == UsageElectricity(s.usage)
  {
    var n := |data| as real;
    var w, e := Sum(WaterColumn(data)), Sum(ElectricityColumn(data));
    var u := Resources(GroupByDate(data));
    assert UsageWater(u) == w && UsageElectricity(u) == e by {
      GroupByDateTotals(data);
    }
    QuotientTimesDivisor(w, n);
    QuotientTimesDivisor(e, n);
    ResourceSummary(u, w / n, e / n)
  }

  /** The daily table is increasing and each day holds the sums of its orders. */
  lemma CustomerUsageDays(data: seq<OrderRow>)
    requires |data| > 0
    ensures var u := CustomerResourceAnalysis(data).usage;
            && (forall i, j :: 0 <= i < j < |u| ==> u[i].date < u[j].date)
            && (forall i :: 0 <= i < |u| ==>
                  u[i].water == WaterOn(data, u[i].date) &&
                  u[i].electricity == ElectricityOn(data, u[i].date))
  {
    GroupByDateSpec(data);
    GroupByDateRows(data);
  }

  /** One row of `future_resource`: the forecast row and its projected needs
      (`nan` for a historical row, whose `yhat` is missing). */
  datatype ResourceNeed = ResourceNeed(row: ForecastRow, water: Option<real>, electricity: Option<real>)

  function NeedOf(r: ForecastRow, avgWater: real, avgElectricity: real): (n: ResourceNeed)
    ensures n.row == r && (n.water.Some? <==> r.Predicted?)
    ensures r.Predicted? ==> n.water == Some(r.yhat * avgWater) && n.electricity == Some(r.yhat * avgElectricity)
  {
    if r.Predicted? then ResourceNeed(r, Some(r.yhat * avgWater), Some(r.yhat * avgElectricity))
    else ResourceNeed(r, None, None)
  }

  /** calculate_future_resource, with `datetime.now()` given as the day number
      `today`: a day at midnight is after the current moment exactly when it
      is after today. */
  function CalculateFutureResource(forecast: seq<ForecastRow>, avgWater: real, avgElectricity: real, today: int)
    : (needs: seq<ResourceNeed>)
    ensures |needs| == |RowsAfter(forecast, today)|
    ensures forall i :: 0 <= i < |needs| ==>
      needs[i].row == RowsAfter(forecast, today)[i] && needs[i].row in forecast && needs[i].row.ds > today
    ensures forall i :: 0 <= i < |needs| ==>
      (needs[i].water.Some? <==> needs[i].row.Predicted?) &&
      (needs[i].row.Predicted? ==>
         needs[i].water == Some(needs[i].row.yhat * avgWater) &&
         needs[i].electricity == Some(needs[i].row.yhat * avgElectricity))
  {
    var needs := seq(|RowsAfter(forecast, today)|, i requires 0 <= i < |RowsAfter(forecast, today)| =>
                       NeedOf(RowsAfter(forecast, today)[i], avgWater, avgElectricity));
    assert forall i :: 0 <= i < |needs| ==> needs[i] == NeedOf(RowsAfter(forecast, today)[i], avgWater, avgElectricity);
    needs
  }

  function WaterNeeded(needs: seq<ResourceNeed>): (c: seq<real>)
    ensures |c| == |needs|
    ensures forall i :: 0 <= i < |needs| ==> c[i] == if needs[i].water.Some? then needs[i].water.value else 0.0
  {
    seq(|needs|, i requires 0 <= i < |needs| => if needs[i].water.Some? then needs[i].water.value else 0.0)
  }

  /** When today is no earlier than the last historical day, every projected
      row is a prediction, the projected water adds up to the average water
      times the predicted orders, and it is never negative on banded rows. */
  lemma FutureWaterTotal(forecast: seq<ForecastRow>, avgWater: real, avgElectricity: real, today: int)
    requires forall r :: r in forecast && r.Historical? ==> r.ds <= today
    ensures var needs := CalculateFutureResource(forecast, avgWater, avgElectricity, today);
            var period := RowsAfter(forecast, today);
            && AllPredicted(period)
            && (forall i :: 0 <= i < |needs| ==> needs[i].water.Some?)
            && Sum(WaterNeeded(needs)) == avgWater * Sum(YhatColumn(period))
            && ((forall r :: r in forecast ==> Banded(r)) && avgWater >= 0.0 ==> Sum(WaterNeeded(needs)) >= 0.0)
  {
    var needs := CalculateFutureResource(forecast, avgWater, avgElectricity, today);
    var period := RowsAfter(forecast, today);
    forall i | 0 <= i < |period|
      ensures period[i].Predicted?
    {
      assert period[i] in period;
    }
    var ys := YhatColumn(period);
    var ws := WaterNeeded(needs);
    forall i | 0 <= i < |ws|
      ensures ws[i] == avgWater * ys[i]
    {
    }
    SumScaled(ys, ws, avgWater);
    if (forall r :: r in forecast ==> Banded(r)) && avgWater >= 0.0 {
      forall i | 0 <= i < |ys|
        ensures ys[i] >= 0.0
      {
        assert Banded(period[i]);
      }
      SumNonNegative(ys);
    }
  }

  // ------------------------------------------------------------ insights

  /** What generate_customer_insights reports, without its text. */
  datatype Insights = Insights(daysSince: int, avgDaysBetween: Option<real>, topWeekday: int)

  /** `a / b` for whole numbers. */
  function Ratio(a: int, b: int): (r: real)
    requires b > 0
    ensures a >= 0 ==> r >= 0.0
  {
    a as real / b as real
  }

  /** `diff().dt.days.mean()` of already sorted order days: `nan` (here
      `None`) for fewer than two orders. */
  function MeanGap(sorted: seq<int>): (g: Option<real>)
    ensures g.None? <==> |sorted| <= 1
    ensures g.Some? ==> g.value * (|sorted| - 1) as real == (sorted[|sorted| - 1] - sorted[0]) as real
  {
    if |sorted| > 1 then
      DiffsTelescope(sorted);
      Some(Ratio(SumInt(Diffs(sorted)), |sorted| - 1))
    else None
  }

  /** `order_dates = data["StartDate"].sort_values()` followed by its mean gap. */
  function AverageGap(dates: seq<int>): (g: Option<real>)
    ensures g.None? <==> |dates| <= 1
    ensures g.Some? ==> |dates| > 1 && g.value == Ratio(MaxOf(dates) - MinOf(dates), |dates| - 1) >= 0.0
  {
    var sorted := Sort(dates);
    assert |sorted| == |dates| by {
      assert |sorted| == |multiset(sorted)| == |multiset(dates)| == |dates|;
    }
    if |dates| > 1 then AverageGapIsSpan(dates, sorted); MeanGap(sorted)
    else MeanGap(sorted)
  }

  /** The average gap between orders is the span from the first to the last
      order day over the number of gaps, so it is never negative: the gaps of
      any sorted arrangement of the order days telescope. */
  lemma AverageGapIsSpan(dates: seq<int>, sorted: seq<int>)
    requires |dates| > 1 && Sorted(sorted) && multiset(sorted) == multiset(dates)
    ensures MeanGap(sorted) == Some(Ratio(MaxOf(dates) - MinOf(dates), |dates| - 1))
    ensures Ratio(MaxOf(dates) - MinOf(dates), |dates| - 1) >= 0.0
  {
    SortedEnds(dates, sorted);
    DiffsTelescope(sorted);
    var span := SumInt(Diffs(sorted));
    assert span == MaxOf(dates) - MinOf(dates);
    assert span >= 0 by {
      assert MinOf(dates) <= dates[0] <= MaxOf(dates);
    }
    assert MeanGap(sorted) == Some(Ratio(span, |sorted| - 1));
  }

  /** The extremes of the order-day column are the first and last order days. */
  lemma StartDateExtremes(data: seq<OrderRow>)
    requires |data| > 0
    ensures MaxOf(StartDates(data)) == MaxDate(data) && MinOf(StartDates(data)) == MinDate(data)
  {
    var ds := StartDates(data);
    var i :| 0 <= i < |data| && data[i].startDate == MaxDate(data);
    var j :| 0 <= j < |data| && data[j].startDate == MinDate(data);
    assert MaxOf(ds) in ds && MinOf(ds) in ds;
  }

  /** A customer's average gap is the span between the first and the last
      order over the number of gaps. */
  lemma CustomerAverageGap(data: seq<OrderRow>, sorted: seq<int>)
    requires |data| > 1 && Sorted(sorted) && multiset(sorted) == multiset(StartDates(data))
    ensures MeanGap(sorted) == Some(Ratio(MaxDate(data) - MinDate(data), |data| - 1))
  {
    var ds := StartDates(data);
    var hi, lo := MaxOf(ds), MinOf(ds);
    assert hi == MaxDate(data) && lo == MinDate(data) by {
      StartDateExtremes(data);
    }
    AverageGapIsSpan(ds, sorted);
  }

  lemma DivSelf(x: real)
    requires x > 0.0
    ensures x / x == 1.0
  {
  }

  /** The orders placed on weekday `w`. */
  function OnWeekday(w: int): OrderRow -> bool
  {
    (r: OrderRow) => Weekday(r.startDate) == w
  }

  /** Orders on weekday `w` (Monday = 0). */
  function WeekdayCount(data: seq<OrderRow>, w: int): nat
  {
    |Filter(data, OnWeekday(w))|
  }

  /** `value_counts().idxmax()` of the order weekdays: a weekday with the most
      orders; among equal counts the earliest weekday is kept. */
  method MostFrequentWeekday(data: seq<OrderRow>) returns (top: int)
    requires |data| > 0
    ensures 0 <= top < 7
    ensures forall w :: 0 <= w < 7 ==> WeekdayCount(data, w) <= WeekdayCount(data, top)
    ensures WeekdayCount(data, top) > 0
  {
    top := 0;
    for w := 1 to 7
      invariant 0 <= top < w
      invariant forall v :: 0 <= v < w ==> WeekdayCount(data, v) <= WeekdayCount(data, top)
    {
      if WeekdayCount(data, w) > WeekdayCount(data, top) {
        top := w;
      }
    }
    var d := Weekday(data[0].startDate);
    FilterKeeps(data, OnWeekday(d), data[0]);
    assert WeekdayCount(data, d) > 0;
  }

  /** generate_customer_insights, with `datetime.now()` given as the day
      number `today`. The source raises on a customer without orders. */
  method GenerateCustomerInsights(data: seq<OrderRow>, today: int) returns (ins: Insights)
    requires |data| > 0
    ensures ins.daysSince == today - MaxDate(data)
    ensures forall r :: r in data ==> r.startDate + ins.daysSince <= today
    ensures ins.avgDaysBetween == AverageGap(StartDates(data))
    ensures |data| > 1 ==> ins.avgDaysBetween == Some(Ratio(MaxDate(data) - MinDate(data), |data| - 1))
    ensures 0 <= ins.topWeekday < 7 && WeekdayCount(data, ins.topWeekday) > 0
    ensures forall w :: 0 <= w < 7 ==> WeekdayCount(data, w) <= WeekdayCount(data, ins.topWeekday)
  {
    var lastOrder := MaxDate(data);
    var daysSince := today - lastOrder;
    var orderDates := Sort(StartDates(data));
    var avgGap := MeanGap(orderDates);
    if |data| > 1 {
      CustomerAverageGap(data, orderDates);
    }
    var topDay := MostFrequentWeekday(data);
    ins := Insights(daysSince, avgGap, topDay);
    forall r | r in data
      ensures r.startDate + ins.daysSince <= today
    {
      var j :| 0 <= j < |data| && data[j] == r;
    }
  }
}
