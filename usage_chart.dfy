/**
 * The per-day usage chart: the empty state, the two column maxima, one pair of
 * bars per day in input order, and the summary totals.
 */
module UsageChart {
  import opened Wrappers
  import opened Bars
  import Wire

  /** Null or empty data shows "No usage data available". */
  predicate HasData(data: Option<seq<Wire.DayRow>>) { data.Some? && |data.value| > 0 }

  function CountOf(row: Wire.DayRow): real { row.count as real }

  /** `item.cost || 0` */
  function CostOf(row: Wire.DayRow): real { Wire.CostOrZero(row.cost) }

  datatype DayBars = DayBars(countWidth: real, countMinPx: nat, costWidth: real, costMinPx: nat)

  const MinBarPx: nat := 4

  /** One pair of bars per row, in the order the rows came. */
  function Chart(rows: seq<Wire.DayRow>): (bars: seq<DayBars>)
    requires |rows| > 0
    ensures |bars| == |rows|
  {
    var maxCount := MaxOf(Column(rows, CountOf));
    var maxCost := MaxOf(Column(rows, CostOf));
    seq(|rows|, i requires 0 <= i < |rows| =>
      DayBars(Width(rows[i].count as real, maxCount), MinWidth(rows[i].count as real, MinBarPx),
              Width(Wire.CostOrZero(rows[i].cost), maxCost), MinWidth(Wire.CostOrZero(rows[i].cost), MinBarPx)))
  }

  /**
   * With non-negative counts and costs every bar is within 0..100, a busiest day
   * and a costliest day fill their bars, and a bar keeps its minimum width exactly
   * when its value is positive.
   */
  lemma ChartFacts(rows: seq<Wire.DayRow>, i: nat)
    requires |rows| > 0 && i < |rows|
    requires forall j :: 0 <= j < |rows| ==> rows[j].count >= 0 && Wire.CostOrZero(rows[j].cost) >= 0.0
    ensures 0.0 <= Chart(rows)[i].countWidth <= 100.0 && 0.0 <= Chart(rows)[i].costWidth <= 100.0
    ensures rows[i].count > 0 && rows[i].count as real == MaxOf(Column(rows, CountOf)) ==> Chart(rows)[i].countWidth == 100.0
    ensures Wire.CostOrZero(rows[i].cost) == MaxOf(Column(rows, CostOf)) > 0.0 ==> Chart(rows)[i].costWidth == 100.0
    ensures Chart(rows)[i].countMinPx == MinBarPx <==> rows[i].count > 0
    ensures Chart(rows)[i].costMinPx == MinBarPx <==> Wire.CostOrZero(rows[i].cost) > 0.0
  {
    var counts, costs := Column(rows, CountOf), Column(rows, CostOf);
    var bar := Chart(rows)[i];
    assert counts[i] == rows[i].count as real && costs[i] == Wire.CostOrZero(rows[i].cost);
    assert bar.countWidth == Width(counts[i], MaxOf(counts)) && bar.costWidth == Width(costs[i], MaxOf(costs));
    WidthFacts(counts[i], MaxOf(counts));
    WidthFacts(costs[i], MaxOf(costs));
  }

  /** Every bar is its value's share of its column's maximum. */
  lemma ChartShare(rows: seq<Wire.DayRow>, i: nat)
    requires |rows| > 0 && i < |rows|
    ensures MaxOf(Column(rows, CountOf)) > 0.0 ==> Share(Chart(rows)[i].countWidth, CountOf(rows[i]), MaxOf(Column(rows, CountOf)))
    ensures MaxOf(Column(rows, CostOf)) > 0.0 ==> Share(Chart(rows)[i].costWidth, CostOf(rows[i]), MaxOf(Column(rows, CostOf)))
  {
    assert Chart(rows)[i].countWidth == Width(CountOf(rows[i]), MaxOf(Column(rows, CountOf)));
    assert Chart(rows)[i].costWidth == Width(CostOf(rows[i]), MaxOf(Column(rows, CostOf)));
  }

  /** `data.reduce((sum, item) => sum + item.count, 0)` */
  function TotalEvents(rows: seq<Wire.DayRow>): int {
    if rows == [] then 0 else TotalEvents(rows[..|rows| - 1]) + rows[|rows| - 1].count
  }

  /** `data.reduce((sum, item) => sum + (item.cost || 0), 0)` */
  function TotalCost(rows: seq<Wire.DayRow>): real {
    if rows == [] then 0.0 else TotalCost(rows[..|rows| - 1]) + Wire.CostOrZero(rows[|rows| - 1].cost)
  }

  /** With counts within 0..max, the event total is within 0..rows × max. */
  lemma {:induction false} TotalEventsBounds(rows: seq<Wire.DayRow>, maxCount: int)
    requires forall j :: 0 <= j < |rows| ==> 0 <= rows[j].count <= maxCount
    ensures 0 <= TotalEvents(rows) <= |rows| * maxCount
  {
    if rows != [] {
      var p := rows[..|rows| - 1];
      TotalEventsBounds(p, maxCount);
      assert |rows| * maxCount == |p| * maxCount + maxCount;
    }
  }

  /** With non-negative counts, the total is at least any one day's count. */
  lemma {:induction false} TotalEventsCoversRow(rows: seq<Wire.DayRow>, i: nat)
    requires i < |rows|
    requires forall j :: 0 <= j < |rows| ==> 0 <= rows[j].count
    ensures rows[i].count <= TotalEvents(rows)
  {
    var p := rows[..|rows| - 1];
    if i < |p| {
      TotalEventsCoversRow(p, i);
    } else if p != [] {
      TotalEventsCoversRow(p, 0);
    }
  }

  /** With costs within 0..max, the cost total is within 0..rows × max. */
  lemma {:induction false} TotalCostBounds(rows: seq<Wire.DayRow>, maxCost: real)
    requires forall j :: 0 <= j < |rows| ==> 0.0 <= Wire.CostOrZero(rows[j].cost) <= maxCost
    ensures 0.0 <= TotalCost(rows) <= (|rows| as real) * maxCost
  {
    if rows != [] {
      var p := rows[..|rows| - 1];
      TotalCostBounds(p, maxCost);
      assert (|rows| as real) * maxCost == (|p| as real) * maxCost + maxCost;
    }
  }
}
