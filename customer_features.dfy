/** prepare_enhanced_data: a customer's order rows become a dense daily
    series (one row per calendar day from the first to the last order day,
    idle days counted 0) with calendar, rolling-mean, lag and holiday
    columns. */
module CustomerFeatures {
  import opened Stats
  import opened Calendar
  import opened Orders
  import opened Grouping

  /** The offsets of `for lag in [1, 7, 14, 28]`. */
  const LagOffsets: seq<nat> := [1, 7, 14, 28]

  /** `daily_orders`, column by column; `lags[k]` is the column `lag_k`. */
  datatype DailyFrame = DailyFrame(
    ds: seq<int>,
    orders: seq<int>,
    dayOfWeek: seq<int>,
    isWeekend: seq<int>,
    month: seq<int>,
    dayOfMonth: seq<int>,
    timeIdx: seq<int>,
    orders7dAvg: seq<real>,
    orders28dAvg: seq<real>,
    lags: map<nat, seq<int>>,
    isHoliday: seq<int>)
  {
    /** Every column has one entry per day and the four lag columns exist. */
    predicate Valid()
    {
      && |orders| == |ds| && |dayOfWeek| == |ds| && |isWeekend| == |ds|
      && |month| == |ds| && |dayOfMonth| == |ds| && |timeIdx| == |ds|
      && |orders7dAvg| == |ds| && |orders28dAvg| == |ds| && |isHoliday| == |ds|
      && lags.Keys == {1, 7, 14, 28}
      && forall k :: k in lags ==> |lags[k]| == |ds|
    }
  }

  /** `series.shift(k).fillna(0)`: the value `k` days earlier, 0 before the series starts. */
  function Shift(s: seq<int>, k: nat): (r: seq<int>)
    ensures |r| == |s|
    ensures forall i :: 0 <= i < |r| && i < k ==> r[i] == 0
    ensures k <= |s| ==> r[k..] == s[..|s| - k]
  {
    var r := seq(|s|, i requires 0 <= i < |s| => if i >= k then s[i - k] else 0);
    if k <= |s| then
      assert forall j :: 0 <= j < |s| - k ==> r[k..][j] == s[..|s| - k][j];
      r
    else r
  }

  /** First position of the trailing window of width `w` ending at `i`. */
  function WindowStart(i: nat, w: nat): nat
  {
    if i + 1 >= w then i + 1 - w else 0
  }

  /** Mean of `s[WindowStart(i, w)..i+1]`: `rolling(window=w, min_periods=1).mean()` at `i`. */
  function WindowMean(s: seq<int>, i: nat, w: nat): (m: real)
    requires i < |s| && w > 0
    ensures var n := i + 1 - WindowStart(i, w);
            1 <= n <= w && m * n as real == SumInt(s[i + 1 - n..i + 1]) as real
  {
    var start := WindowStart(i, w);
    QuotientTimesDivisor(SumInt(s[start..i + 1]) as real, (i + 1 - start) as real);
    SumInt(s[start..i + 1]) as real / (i + 1 - start) as real
  }

  /** `m` is the mean of the non-empty `xs`: `m` times their count is their sum. */
  predicate MeanOf(m: real, xs: seq<int>)
  {
    m * |xs| as real == SumInt(xs) as real
  }

  /** The rolling-mean column of width `w`. */
  function RollingMean(s: seq<int>, w: nat): (r: seq<real>)
    requires w > 0
    ensures |r| == |s|
    ensures forall i :: 0 <= i < |s| && i + 1 >= w ==> MeanOf(r[i], s[i + 1 - w..i + 1])
    ensures forall i :: 0 <= i < |s| && i + 1 < w ==> MeanOf(r[i], s[..i + 1])
  {
    var r := seq(|s|, i requires 0 <= i < |s| => WindowMean(s, i, w));
    RollingMeanWindows(s, w, r);
    r
  }

  /** Each entry of a column of window means sums its window. */
  lemma RollingMeanWindows(s: seq<int>, w: nat, r: seq<real>)
    requires w > 0 && |r| == |s|
    requires forall i :: 0 <= i < |s| ==> r[i] == WindowMean(s, i, w)
    ensures forall i :: 0 <= i < |s| && i + 1 >= w ==> MeanOf(r[i], s[i + 1 - w..i + 1])
    ensures forall i :: 0 <= i < |s| && i + 1 < w ==> MeanOf(r[i], s[..i + 1])
  {
    forall i | 0 <= i < |s| && i + 1 >= w
      ensures MeanOf(r[i], s[i + 1 - w..i + 1])
    {
      var m := r[i];
      assert m == WindowMean(s, i, w);
      WindowMeanSize(s, i, w);
      assert m * w as real == SumInt(s[i + 1 - w..i + 1]) as real;
      assert MeanOf(m, s[i + 1 - w..i + 1]);
    }
    forall i | 0 <= i < |s| && i + 1 < w
      ensures MeanOf(r[i], s[..i + 1])
    {
      var m := r[i];
      assert m == WindowMean(s, i, w);
      WindowMeanSize(s, i, w);
      assert m * (i + 1) as real == SumInt(s[..i + 1]) as real;
      assert MeanOf(m, s[..i + 1]);
    }
  }

  /** A full window holds `w` days; a window at the start of the series holds
      every day so far. */
  lemma WindowMeanSize(s: seq<int>, i: nat, w: nat)
    requires i < |s| && w > 0
    ensures i + 1 >= w ==> WindowMean(s, i, w) * w as real == SumInt(s[i + 1 - w..i + 1]) as real
    ensures i + 1 < w ==> WindowMean(s, i, w) * (i + 1) as real == SumInt(s[..i + 1]) as real
  {
    var m, n := WindowMean(s, i, w), i + 1 - WindowStart(i, w);
    assert m * n as real == SumInt(s[i + 1 - n..i + 1]) as real;
    if i + 1 < w {
      assert n == i + 1;
      assert s[i + 1 - n..i + 1] == s[..i + 1];
    } else {
      assert n == w;
    }
  }

  /** The daily counts of days `lo`, `lo + 1`, ..., `lo + n - 1`. */
  function CountsFrom(rows: seq<OrderRow>, lo: int, n: nat): (cs: seq<int>)
    ensures |cs| == n
    ensures forall i :: 0 <= i < n ==> cs[i] == CountOn(rows, lo + i)
  {
    seq(n, i requires 0 <= i < n => CountOn(rows, lo + i))
  }

  /** The day column runs from the first to the last order day and the
      order column holds each day's count. */
  predicate HasDailyCounts(data: seq<OrderRow>, f: DailyFrame)
    requires |data| > 0
  {
    var lo, n := MinDate(data), |f.ds|;
    && |f.orders| == n
    && n == MaxDate(data) - lo + 1
    && (forall i :: 0 <= i < n ==> f.ds[i] == lo + i)
    && f.orders == CountsFrom(data, lo, n)
  }

  /** `day_of_week`, `is_weekend`, `month` and `day_of_month` of each day. */
  predicate HasCalendarColumns(f: DailyFrame)
  {
    var n := |f.ds|;
    && |f.dayOfWeek| == n && |f.isWeekend| == n && |f.month| == n && |f.dayOfMonth| == n
    && (forall i :: 0 <= i < n ==> f.dayOfWeek[i] == Weekday(f.ds[i]))
    && (forall i :: 0 <= i < n ==> f.isWeekend[i] == if f.dayOfWeek[i] in {5, 6} then 1 else 0)
    && (forall i :: 0 <= i < n ==> f.month[i] == Month(f.ds[i]))
    && (forall i :: 0 <= i < n ==> f.dayOfMonth[i] == DayOfMonth(f.ds[i]))
  }

  /** `time_idx`, the two rolling means and the four lag columns. */
  predicate HasHistoryColumns(f: DailyFrame)
  {
    var n := |f.ds|;
    && |f.timeIdx| == n
    && (forall i :: 0 <= i < n ==> f.timeIdx[i] == i)
    && f.orders7dAvg == RollingMean(f.orders, 7)
    && f.orders28dAvg == RollingMean(f.orders, 28)
    && f.lags.Keys == {1, 7, 14, 28}
    && (forall k :: k in f.lags ==> f.lags[k] == Shift(f.orders, k))
  }

  /** `is_holiday` of each day. */
  predicate HasHolidayColumn(data: seq<OrderRow>, f: DailyFrame)
  {
    && |f.isHoliday| == |f.ds|
    && (forall i :: 0 <= i < |f.ds| ==> f.isHoliday[i] == if f.ds[i] in HolidayDates(data) then 1 else 0)
  }

  /** What prepare_enhanced_data returns for `data`, column by column. */
  predicate IsEnhancedFrame(data: seq<OrderRow>, f: DailyFrame)
    requires |data| > 0
  {
    && f.Valid()
    && HasDailyCounts(data, f)
    && HasCalendarColumns(f)
    && HasHistoryColumns(f)
    && HasHolidayColumn(data, f)
  }

  /** The day and count columns: `pd.date_range(min, max)` left-merged with
      `groupby("StartDate").size()` and `fillna(0)`. */
  method DailyCounts(data: seq<OrderRow>) returns (ds: seq<int>, orders: seq<int>)
    requires |data| > 0
    ensures |ds| == MaxDate(data) - MinDate(data) + 1
    ensures forall i :: 0 <= i < |ds| ==> ds[i] == MinDate(data) + i
    ensures orders == CountsFrom(data, MinDate(data), |ds|)
  {
    var lo := MinDate(data);
    var hi := MaxDate(data);
    var n := hi - lo + 1;
    ds := seq(n, i requires 0 <= i < n => lo + i);
    var groups := GroupByDate(data);
    orders := seq(n, i requires 0 <= i < n => TotalsOn(groups, ds[i]).count);
    GroupByDateSpec(data);
  }

  /** The four `lag_k` columns, added one offset at a time. */
  method LagFrame(orders: seq<int>) returns (lags: map<nat, seq<int>>)
    ensures lags.Keys == {1, 7, 14, 28}
    ensures forall k :: k in lags ==> lags[k] == Shift(orders, k)
  {
    lags := map[];
    for j := 0 to |LagOffsets|
      invariant lags.Keys == set k | k in LagOffsets[..j]
      invariant forall k :: k in lags ==> lags[k] == Shift(orders, k)
    {
      var lag := LagOffsets[j];
      assert LagOffsets[..j + 1] == LagOffsets[..j] + [lag];
      lags := lags[lag := Shift(orders, lag)];
    }
    assert LagOffsets[..|LagOffsets|] == LagOffsets;
  }

  /** prepare_enhanced_data. The caller has already rejected an empty
      customer (the first/last order day of no rows does not exist). */
  method PrepareEnhancedData(data: seq<OrderRow>) returns (f: DailyFrame)
    requires |data| > 0
    ensures IsEnhancedFrame(data, f)
  {
    var ds, orders := DailyCounts(data);
    var n := |ds|;

    var dayOfWeek := seq(n, i requires 0 <= i < n => Weekday(ds[i]));
    var isWeekend := seq(n, i requires 0 <= i < n => if dayOfWeek[i] in {5, 6} then 1 else 0);
    var month := seq(n, i requires 0 <= i < n => Month(ds[i]));
    var dayOfMonth := seq(n, i requires 0 <= i < n => DayOfMonth(ds[i]));
    var first := MinOf(ds);
    assert ds[0] == MinDate(data);
    var timeIdx := seq(n, i requires 0 <= i < n => ds[i] - first);

    var avg7 := RollingMean(orders, 7);
    var avg28 := RollingMean(orders, 28);
    var lags := LagFrame(orders);

    var holidays := HolidayDates(data);
    var isHoliday := seq(n, i requires 0 <= i < n => if ds[i] in holidays then 1 else 0);

    // dropna(): every column above is defined on every day, so nothing is dropped
    f := DailyFrame(ds, orders, dayOfWeek, isWeekend, month, dayOfMonth, timeIdx,
                    avg7, avg28, lags, isHoliday);
    assert HasDailyCounts(data, f);
    assert HasCalendarColumns(f);
    assert HasHistoryColumns(f);
    assert HasHolidayColumn(data, f);
  }

  // ------------------------------------------------------------ properties

  /** The series has one row per calendar day from the first to the last
      order day, strictly increasing with no gaps, and covers every order. */
  lemma DailySeriesContiguous(data: seq<OrderRow>, f: DailyFrame)
    requires |data| > 0 && IsEnhancedFrame(data, f)
    ensures |f.ds| > 0 && f.ds[0] == MinDate(data) && f.ds[|f.ds| - 1] == MaxDate(data)
    ensures forall i :: 0 <= i < |f.ds| - 1 ==> f.ds[i + 1] == f.ds[i] + 1
    ensures forall r :: r in data ==> exists i :: 0 <= i < |f.ds| && f.ds[i] == r.startDate
  {
    forall r | r in data
      ensures exists i :: 0 <= i < |f.ds| && f.ds[i] == r.startDate
    {
      var j :| 0 <= j < |data| && data[j] == r;
      var i := r.startDate - MinDate(data);
      assert f.ds[i] == r.startDate;
    }
  }

  /** A day's count is zero exactly when no order started on it. */
  lemma IdleDaysCountZero(data: seq<OrderRow>, f: DailyFrame, i: int)
    requires |data| > 0 && IsEnhancedFrame(data, f) && 0 <= i < |f.ds|
    ensures f.orders[i] >= 0
    ensures f.orders[i] == 0 <==> f.ds[i] !in OrderDays(data)
  {
    CountOnPositive(data, f.ds[i]);
  }

  /** A one-hot column sums to one. */
  lemma {:induction false} OneHotSum(s: seq<int>, p: int)
    requires 0 <= p < |s|
    requires forall i :: 0 <= i < |s| ==> s[i] == if i == p then 1 else 0
    ensures SumInt(s) == 1
  {
    if p == 0 {
      SumIntBounds(s[1..], 0, 0);
    } else {
      OneHotSum(s[1..], p - 1);
    }
  }

  /** Over a range of days holding every order, the day counts add up to the number of orders. */
  lemma {:induction false} CountsFromTotal(rows: seq<OrderRow>, lo: int, n: nat)
    requires forall r :: r in rows ==> lo <= r.startDate < lo + n
    ensures SumInt(CountsFrom(rows, lo, n)) == |rows|
  {
    if |rows| == 0 {
      SumIntBounds(CountsFrom(rows, lo, n), 0, 0);
    } else {
      var init, last := rows[..|rows| - 1], rows[|rows| - 1];
      assert forall r :: r in init ==> r in rows;
      CountsFromTotal(init, lo, n);
      var hot := seq(n, i requires 0 <= i < n => if i == last.startDate - lo then 1 else 0);
      OneHotSum(hot, last.startDate - lo);
      assert forall i :: 0 <= i < n ==> CountsFrom(rows, lo, n)[i] == CountsFrom(init, lo, n)[i] + hot[i];
      SumIntPointwise(CountsFrom(init, lo, n), hot, CountsFrom(rows, lo, n));
    }
  }

  /** No order is lost or counted twice: the daily counts add up to the number of orders. */
  lemma DailyOrdersTotal(data: seq<OrderRow>, f: DailyFrame)
    requires |data| > 0 && IsEnhancedFrame(data, f)
    ensures SumInt(f.orders) == |data|
  {
    var lo, hi := MinDate(data), MaxDate(data);
    assert |f.ds| == hi - lo + 1;
    forall r | r in data
      ensures lo <= r.startDate < lo + |f.ds|
    {
      var j :| 0 <= j < |data| && data[j] == r;
      assert lo <= data[j].startDate <= hi;
    }
    CountsFromTotal(data, MinDate(data), |f.ds|);
  }

  /** `lag_k` is the count `k` days earlier, 0 when the series is shorter than `k` days. */
  lemma LagColumns(data: seq<OrderRow>, f: DailyFrame, k: nat, i: int)
    requires |data| > 0 && IsEnhancedFrame(data, f)
    requires k in LagOffsets && 0 <= i < |f.ds|
    ensures k in f.lags
    ensures f.lags[k][i] == if i >= k then f.orders[i - k] else 0
    ensures f.lags[k][i] >= 0
  {
  }

  /** A rolling mean of non-negative counts lies between 0 and the largest count in its window. */
  lemma WindowMeanBounds(s: seq<int>, i: nat, w: nat, top: int)
    requires i < |s| && w > 0
    requires forall j :: WindowStart(i, w) <= j <= i ==> 0 <= s[j] <= top
    ensures 0.0 <= WindowMean(s, i, w) <= top as real
  {
    var start := WindowStart(i, w);
    var window := s[start..i + 1];
    var len := i + 1 - start;
    SumIntBounds(window, 0, top);
    var total := SumInt(window) as real;
    assert 0.0 <= total <= len as real * top as real;
    assert total / len as real <= top as real;
  }

  /** The first rolling mean is the first day's count (`min_periods=1`). */
  lemma RollingMeanStart(s: seq<int>, w: nat)
    requires |s| > 0 && w > 0
    ensures RollingMean(s, w)[0] == s[0] as real
  {
    assert WindowStart(0, w) == 0;
    assert s[0..1] == [s[0]];
    assert SumInt([s[0]]) == s[0];
  }

  /** Both rolling-mean columns are never negative and never exceed the day counts they average. */
  lemma RollingMeansBounded(data: seq<OrderRow>, f: DailyFrame, i: int)
    requires |data| > 0 && IsEnhancedFrame(data, f) && 0 <= i < |f.ds|
    ensures 0.0 <= f.orders7dAvg[i] <= MaxOf(f.orders) as real
    ensures 0.0 <= f.orders28dAvg[i] <= MaxOf(f.orders) as real
  {
    var top := MaxOf(f.orders);
    WindowMeanBounds(f.orders, i, 7, top);
    WindowMeanBounds(f.orders, i, 28, top);
  }

  /** `is_weekend` is 1 exactly on Saturdays and Sundays. */
  lemma WeekendFlag(data: seq<OrderRow>, f: DailyFrame, i: int)
    requires |data| > 0 && IsEnhancedFrame(data, f) && 0 <= i < |f.ds|
    ensures f.isWeekend[i] == 1 <==> IsWeekendDay(f.ds[i])
    ensures f.isWeekend[i] == 0 <==> !IsWeekendDay(f.ds[i])
  {
  }

  /** `is_holiday` is 1 exactly on the days of some order flagged as a holiday. */
  lemma HolidayFlag(data: seq<OrderRow>, f: DailyFrame, i: int)
    requires |data| > 0 && IsEnhancedFrame(data, f) && 0 <= i < |f.ds|
    ensures f.isHoliday[i] == 1 <==> exists r :: r in data && r.isHoliday == 1 && r.startDate == f.ds[i]
  {
  }
}
