/** The order table both analyses read, and the per-day counts and sums
    that pandas' `groupby("StartDate")` computes over it. */
module Orders {
  import opened Stats

  /** One order record; `startDate` is a day number (see module Calendar),
      `isHoliday` and `isWeekend` are the table's 0/1 flags. */
  datatype OrderRow = OrderRow(
    tenantId: string,
    laundryId: string,
    startDate: int,
    item: string,
    service: string,
    water: real,
    electricity: real,
    isHoliday: int,
    isWeekend: int)

  /** `df[df["TenantID"] == tenant]`. */
  function RowsOfTenant(df: seq<OrderRow>, tenant: string): (rows: seq<OrderRow>)
    ensures forall r :: r in rows <==> r in df && r.tenantId == tenant
  {
    var rows := Filter(df, (r: OrderRow) => r.tenantId == tenant);
    forall r | r in df && r.tenantId == tenant
      ensures r in rows
    {
      FilterKeeps(df, (r: OrderRow) => r.tenantId == tenant, r);
    }
    rows
  }

  /** `df[df["LaundryID"] == laundry]`. */
  function RowsOfLaundry(df: seq<OrderRow>, laundry: string): (rows: seq<OrderRow>)
    ensures forall r :: r in rows <==> r in df && r.laundryId == laundry
  {
    var rows := Filter(df, (r: OrderRow) => r.laundryId == laundry);
    forall r | r in df && r.laundryId == laundry
      ensures r in rows
    {
      FilterKeeps(df, (r: OrderRow) => r.laundryId == laundry, r);
    }
    rows
  }

  /** The `StartDate` column. */
  function StartDates(rows: seq<OrderRow>): (ds: seq<int>)
    ensures |ds| == |rows|
    ensures forall i :: 0 <= i < |rows| ==> ds[i] == rows[i].startDate
  {
    seq(|rows|, i requires 0 <= i < |rows| => rows[i].startDate)
  }

  /** The `Water_Litres` column. */
  function WaterColumn(rows: seq<OrderRow>): (ws: seq<real>)
    ensures |ws| == |rows|
    ensures forall i :: 0 <= i < |rows| ==> ws[i] == rows[i].water
  {
    seq(|rows|, i requires 0 <= i < |rows| => rows[i].water)
  }

  /** The `Electricity_kWh` column. */
  function ElectricityColumn(rows: seq<OrderRow>): (es: seq<real>)
    ensures |es| == |rows|
    ensures forall i :: 0 <= i < |rows| ==> es[i] == rows[i].electricity
  {
    seq(|rows|, i requires 0 <= i < |rows| => rows[i].electricity)
  }

  /** The `IsWeekend` column. */
  function WeekendColumn(rows: seq<OrderRow>): (fs: seq<int>)
    ensures |fs| == |rows|
    ensures forall i :: 0 <= i < |rows| ==> fs[i] == rows[i].isWeekend
  {
    seq(|rows|, i requires 0 <= i < |rows| => rows[i].isWeekend)
  }

  /** `data["StartDate"].min()`: the earliest order day. */
  function MinDate(rows: seq<OrderRow>): (d: int)
    requires |rows| > 0
    ensures exists i :: 0 <= i < |rows| && rows[i].startDate == d
    ensures forall i :: 0 <= i < |rows| ==> d <= rows[i].startDate
  {
    var ds := StartDates(rows);
    var m := MinOf(ds);
    assert exists i :: 0 <= i < |ds| && ds[i] == m;
    m
  }

  /** `data["StartDate"].max()`: the latest order day. */
  function MaxDate(rows: seq<OrderRow>): (d: int)
    requires |rows| > 0
    ensures exists i :: 0 <= i < |rows| && rows[i].startDate == d
    ensures forall i :: 0 <= i < |rows| ==> rows[i].startDate <= d
  {
    var ds := StartDates(rows);
    var m := MaxOf(ds);
    assert exists i :: 0 <= i < |ds| && ds[i] == m;
    m
  }

  /** The days on which some order started. */
  function OrderDays(rows: seq<OrderRow>): set<int>
  {
    set r | r in rows :: r.startDate
  }

  /** `data[data["IsHoliday"] == 1]["StartDate"].unique()`. */
  function HolidayDates(rows: seq<OrderRow>): (hs: set<int>)
    ensures forall d :: d in hs <==> exists r :: r in rows && r.isHoliday == 1 && r.startDate == d
  {
    set r | r in rows && r.isHoliday == 1 :: r.startDate
  }

  /** Number of rows whose order started on day `d` (`groupby(...).size()`). */
  function CountOn(rows: seq<OrderRow>, d: int): nat
  {
    if |rows| == 0 then 0
    else CountOn(rows[..|rows| - 1], d) + (if rows[|rows| - 1].startDate == d then 1 else 0)
  }

  /** Water of the rows of day `d` (`groupby(...)["Water_Litres"].sum()`). */
  function WaterOn(rows: seq<OrderRow>, d: int): real
  {
    if |rows| == 0 then 0.0
    else WaterOn(rows[..|rows| - 1], d) + (if rows[|rows| - 1].startDate == d then rows[|rows| - 1].water else 0.0)
  }

  /** Electricity of the rows of day `d`. */
  function ElectricityOn(rows: seq<OrderRow>, d: int): real
  {
    if |rows| == 0 then 0.0
    else
      var last := rows[|rows| - 1];
      ElectricityOn(rows[..|rows| - 1], d) + (if last.startDate == d then last.electricity else 0.0)
  }

  /** A day has orders exactly when some row starts on it. */
  lemma {:induction false} CountOnPositive(rows: seq<OrderRow>, d: int)
    ensures CountOn(rows, d) > 0 <==> d in OrderDays(rows)
  {
    if |rows| > 0 {
      var init := rows[..|rows| - 1];
      CountOnPositive(init, d);
      assert rows == init + [rows[|rows| - 1]];
      assert OrderDays(rows) == OrderDays(init) + {rows[|rows| - 1].startDate};
    }
  }

  /** Every order day lies between the first and the last order day. */
  lemma OrderDaysInRange(rows: seq<OrderRow>)
    requires |rows| > 0
    ensures forall d :: d in OrderDays(rows) ==> MinDate(rows) <= d <= MaxDate(rows)
  {
    forall d | d in OrderDays(rows)
      ensures MinDate(rows) <= d <= MaxDate(rows)
    {
      var r :| r in rows && r.startDate == d;
      var i :| 0 <= i < |rows| && rows[i] == r;
    }
  }
}
