/** `groupby("StartDate")` with a row count and the water and electricity
    sums: one row per distinct order day, in ascending date order, and no
    row for a day without orders. */
module Grouping {
  import opened Stats
  import opened Orders

  /** One aggregated day: `OrderCount`, `WaterConsumption`, `ElectricityConsumption`. */
  datatype DayTotals = DayTotals(date: int, count: nat, water: real, electricity: real)

  function NoOrders(d: int): DayTotals
  {
    DayTotals(d, 0, 0.0, 0.0)
  }

  /** Adds one order row to the totals of its day. */
  function Absorb(t: DayTotals, r: OrderRow): DayTotals
  {
    DayTotals(t.date, t.count + 1, t.water + r.water, t.electricity + r.electricity)
  }

  predicate Increasing(g: seq<DayTotals>)
  {
    forall i, j :: 0 <= i < j < |g| ==> g[i].date < g[j].date
  }

  function DatesOf(g: seq<DayTotals>): set<int>
  {
    set t | t in g :: t.date
  }

  /** The totals of day `d` in `g`, or no orders when `g` has no row for `d`. */
  function TotalsOn(g: seq<DayTotals>, d: int): (t: DayTotals)
    ensures t.date == d
  {
    if |g| == 0 then NoOrders(d)
    else if g[0].date == d then g[0]
    else TotalsOn(g[1..], d)
  }

  /** Inserts order `r` into the increasing day rows `g`. */
  function AddRow(g: seq<DayTotals>, r: OrderRow): seq<DayTotals>
  {
    if |g| == 0 then [Absorb(NoOrders(r.startDate), r)]
    else if r.startDate < g[0].date then [Absorb(NoOrders(r.startDate), r)] + g
    else if r.startDate == g[0].date then [Absorb(g[0], r)] + g[1..]
    else [g[0]] + AddRow(g[1..], r)
  }

  /** `groupby("StartDate").agg(...)`, folding the rows in from the last one. */
  function GroupByDate(rows: seq<OrderRow>): (g: seq<DayTotals>)
    ensures Increasing(g)
    ensures DatesOf(g) == OrderDays(rows)
  {
    if |rows| == 0 then []
    else
      var init, last := rows[..|rows| - 1], rows[|rows| - 1];
      AddRowIncreasing(GroupByDate(init), last);
      AddRowDates(GroupByDate(init), last);
      assert rows == init + [last];
      assert OrderDays(rows) == OrderDays(init) + {last.startDate};
      AddRow(GroupByDate(init), last)
  }

  /** In an increasing table the totals of a row's own date are that row. */
  lemma {:induction false} TotalsOnRow(g: seq<DayTotals>, i: int)
    requires Increasing(g) && 0 <= i < |g|
    ensures TotalsOn(g, g[i].date) == g[i]
  {
    if i > 0 {
      TotalsOnRow(g[1..], i - 1);
    }
  }

  /** A day without a row in `g` has no orders in `g`. */
  lemma {:induction false} TotalsOnAbsent(g: seq<DayTotals>, d: int)
    requires d !in DatesOf(g)
    ensures TotalsOn(g, d) == NoOrders(d)
  {
    if |g| > 0 {
      assert g[0] in g;
      assert DatesOf(g[1..]) <= DatesOf(g);
      TotalsOnAbsent(g[1..], d);
    }
  }

  /** Inserting a row adds its date to the table's dates. */
  lemma {:induction false} AddRowDates(g: seq<DayTotals>, r: OrderRow)
    ensures DatesOf(AddRow(g, r)) == DatesOf(g) + {r.startDate}
  {
    var res := AddRow(g, r);
    if |g| == 0 {
    } else if r.startDate < g[0].date {
      assert forall t :: t in res <==> t == res[0] || t in g;
    } else if r.startDate == g[0].date {
      assert forall t :: t in res <==> t == res[0] || t in g[1..];
      assert forall t :: t in g <==> t == g[0] || t in g[1..];
    } else {
      AddRowDates(g[1..], r);
      assert forall t :: t in res <==> t == g[0] || t in AddRow(g[1..], r);
      assert forall t :: t in g <==> t == g[0] || t in g[1..];
    }
  }

  /** Inserting a row keeps the table increasing. */
  lemma {:induction false} AddRowIncreasing(g: seq<DayTotals>, r: OrderRow)
    requires Increasing(g)
    ensures Increasing(AddRow(g, r))
  {
    if |g| > 0 && r.startDate > g[0].date {
      var rest := AddRow(g[1..], r);
      AddRowIncreasing(g[1..], r);
      AddRowDates(g[1..], r);
      forall k | 0 <= k < |rest|
        ensures g[0].date < rest[k].date
      {
        assert rest[k] in rest;
        assert rest[k].date in DatesOf(rest);
        if rest[k].date != r.startDate {
          assert rest[k].date in DatesOf(g[1..]);
          var t :| t in g[1..] && t.date == rest[k].date;
          var j :| 0 <= j < |g[1..]| && g[1..][j] == t;
          assert g[j + 1] == t;
        }
      }
    }
  }

  /** Inserting a row changes the totals of its own date only, by exactly that row. */
  lemma {:induction false} AddRowTotalsOn(g: seq<DayTotals>, r: OrderRow)
    requires Increasing(g)
    ensures forall d :: TotalsOn(AddRow(g, r), d)
                        == if d == r.startDate then Absorb(TotalsOn(g, d), r) else TotalsOn(g, d)
  {
    if |g| == 0 {
    } else if r.startDate < g[0].date {
      assert r.startDate !in DatesOf(g);
      TotalsOnAbsent(g, r.startDate);
    } else if r.startDate == g[0].date {
    } else {
      AddRowTotalsOn(g[1..], r);
    }
  }

  /** Grouping gives every day the count and sums of that day's rows. */
  lemma {:induction false} GroupByDateTotalsOn(rows: seq<OrderRow>)
    ensures forall d :: TotalsOn(GroupByDate(rows), d)
                        == DayTotals(d, CountOn(rows, d), WaterOn(rows, d), ElectricityOn(rows, d))
  {
    if |rows| > 0 {
      var init, last := rows[..|rows| - 1], rows[|rows| - 1];
      GroupByDateTotalsOn(init);
      AddRowTotalsOn(GroupByDate(init), last);
    }
  }

  /** The order count, water and electricity of every day are those of the
      rows on that day; there is one increasing row per order day. */
  lemma GroupByDateSpec(rows: seq<OrderRow>)
    ensures Increasing(GroupByDate(rows))
    ensures DatesOf(GroupByDate(rows)) == OrderDays(rows)
    ensures forall d :: TotalsOn(GroupByDate(rows), d)
                        == DayTotals(d, CountOn(rows, d), WaterOn(rows, d), ElectricityOn(rows, d))
  {
    GroupByDateTotalsOn(rows);
  }

  /** Every aggregated day holds the rows of that day, at least one of them. */
  lemma GroupByDateRows(rows: seq<OrderRow>)
    ensures forall i :: 0 <= i < |GroupByDate(rows)| ==>
      var t := GroupByDate(rows)[i];
      t.count == CountOn(rows, t.date) >= 1 &&
      t.water == WaterOn(rows, t.date) &&
      t.electricity == ElectricityOn(rows, t.date)
  {
    var g := GroupByDate(rows);
    GroupByDateSpec(rows);
    forall i | 0 <= i < |g|
      ensures g[i].count == CountOn(rows, g[i].date) >= 1
      ensures g[i].water == WaterOn(rows, g[i].date)
      ensures g[i].electricity == ElectricityOn(rows, g[i].date)
    {
      TotalsOnRow(g, i);
      assert g[i] in g;
      CountOnPositive(rows, g[i].date);
    }
  }

  // ------------------------------------------------------- column totals

  function TotalCount(g: seq<DayTotals>): int
  {
    if |g| == 0 then 0 else g[0].count + TotalCount(g[1..])
  }

  function TotalWater(g: seq<DayTotals>): real
  {
    if |g| == 0 then 0.0 else g[0].water + TotalWater(g[1..])
  }

  function TotalElectricity(g: seq<DayTotals>): real
  {
    if |g| == 0 then 0.0 else g[0].electricity + TotalElectricity(g[1..])
  }

  lemma {:induction false} AddRowTotals(g: seq<DayTotals>, r: OrderRow)
    ensures TotalCount(AddRow(g, r)) == TotalCount(g) + 1
    ensures TotalWater(AddRow(g, r)) == TotalWater(g) + r.water
    ensures TotalElectricity(AddRow(g, r)) == TotalElectricity(g) + r.electricity
  {
    if |g| == 0 {
    } else if r.startDate < g[0].date {
    } else if r.startDate == g[0].date {
    } else {
      AddRowTotals(g[1..], r);
      assert AddRow(g, r)[1..] == AddRow(g[1..], r);
    }
  }

  /** Grouping neither loses nor duplicates an order: the day counts add up
      to the number of rows and the day sums to the column sums. */
  lemma {:induction false} GroupByDateTotals(rows: seq<OrderRow>)
    ensures TotalCount(GroupByDate(rows)) == |rows|
    ensures TotalWater(GroupByDate(rows)) == Sum(WaterColumn(rows))
    ensures TotalElectricity(GroupByDate(rows)) == Sum(ElectricityColumn(rows))
  {
    if |rows| > 0 {
      var init, last := rows[..|rows| - 1], rows[|rows| - 1];
      GroupByDateTotals(init);
      AddRowTotals(GroupByDate(init), last);
      assert WaterColumn(rows) == WaterColumn(init) + [last.water];
      assert ElectricityColumn(rows) == ElectricityColumn(init) + [last.electricity];
      SumConcat(WaterColumn(init), [last.water]);
      SumConcat(ElectricityColumn(init), [last.electricity]);
    }
  }
}
