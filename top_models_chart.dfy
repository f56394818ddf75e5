/**
 * The top-models chart: the empty state, a ranked row per model in input order
 * with a bar scaled to the busiest model, two provider colour tables, and the
 * summary totals.
 */
module TopModelsChart {
  import opened Wrappers
  import opened JsText
  import opened Bars
  import Wire

  /** Null or empty data shows "No models data available". */
  predicate HasData(data: Option<seq<Wire.ModelRow>>) { data.Some? && |data.value| > 0 }

  const BarColors: map<string, string> := map[
    "openai" := "bg-green-500",
    "anthropic" := "bg-orange-500",
    "google" := "bg-blue-500",
    "cohere" := "bg-purple-500",
    "other" := "bg-gray-500"]

  const BadgeColors: map<string, string> := map[
    "openai" := "bg-green-100 text-green-800",
    "anthropic" := "bg-orange-100 text-orange-800",
    "google" := "bg-blue-100 text-blue-800",
    "cohere" := "bg-purple-100 text-purple-800",
    "other" := "bg-gray-100 text-gray-800"]

  /** Both lookups lower-case the provider and fall back to 'other'. */
  function BarColor(provider: string): (c: string)
    ensures ToLowerCase(provider) in BarColors ==> c == BarColors[ToLowerCase(provider)]
    ensures ToLowerCase(provider) !in BarColors ==> c == BarColors["other"]
  {
    LookupOr(BarColors, ToLowerCase(provider), "other")
  }

  function BadgeColor(provider: string): (c: string)
    ensures ToLowerCase(provider) in BadgeColors ==> c == BadgeColors[ToLowerCase(provider)]
    ensures ToLowerCase(provider) !in BadgeColors ==> c == BadgeColors["other"]
  {
    LookupOr(BadgeColors, ToLowerCase(provider), "other")
  }

  /** The two tables know the same providers, so a provider falls back in both or in neither. */
  lemma ColorsAgreeOnFallback(provider: string)
    ensures (BarColor(provider) == BarColors["other"]) <==> (BadgeColor(provider) == BadgeColors["other"])
  {
  }

  function CountOf(row: Wire.ModelRow): real { row.count as real }

  datatype ModelBar = ModelBar(rank: int, width: real, minPx: nat, barColor: string, badgeColor: string)

  const MinBarPx: nat := 8

  /** One ranked row per model, in the order the models came, coloured by its provider. */
  function Chart(rows: seq<Wire.ModelRow>): (bars: seq<ModelBar>)
    requires |rows| > 0
    ensures |bars| == |rows|
    ensures forall i :: 0 <= i < |rows| ==> bars[i].rank == i + 1
    ensures forall i :: 0 <= i < |rows| ==>
              bars[i].barColor == BarColor(rows[i].provider) && bars[i].badgeColor == BadgeColor(rows[i].provider)
  {
    var maxCount := MaxOf(Column(rows, CountOf));
    seq(|rows|, i requires 0 <= i < |rows| =>
      ModelBar(i + 1, Width(rows[i].count as real, maxCount), MinWidth(rows[i].count as real, MinBarPx),
               BarColor(rows[i].provider), BadgeColor(rows[i].provider)))
  }

  /**
   * With non-negative counts every bar is within 0..100, the busiest model fills
   * its bar, bars follow the
   * counts' order, and a bar keeps 8px exactly when its count is positive.
   */
  lemma ChartFacts(rows: seq<Wire.ModelRow>, i: nat, j: nat)
    requires |rows| > 0 && i < |rows| && j < |rows|
    requires forall k :: 0 <= k < |rows| ==> rows[k].count >= 0
    ensures 0.0 <= Chart(rows)[i].width <= 100.0
    ensures rows[i].count > 0 && rows[i].count as real == MaxOf(Column(rows, CountOf)) ==> Chart(rows)[i].width == 100.0
    ensures rows[i].count <= rows[j].count ==> Chart(rows)[i].width <= Chart(rows)[j].width
    ensures Chart(rows)[i].minPx == MinBarPx <==> rows[i].count > 0
  {
    var counts := Column(rows, CountOf);
    assert counts[i] == rows[i].count as real && counts[j] == rows[j].count as real;
    assert Chart(rows)[i].width == Width(counts[i], MaxOf(counts));
    assert Chart(rows)[j].width == Width(counts[j], MaxOf(counts));
    WidthFacts(counts[i], MaxOf(counts));
    if rows[i].count <= rows[j].count {
      WidthMonotone(counts[i], counts[j], MaxOf(counts));
    }
  }

  /** Every bar is its count's share of the largest count. */
  lemma ChartShare(rows: seq<Wire.ModelRow>, i: nat)
    requires |rows| > 0 && i < |rows|
    ensures MaxOf(Column(rows, CountOf)) > 0.0 ==> Share(Chart(rows)[i].width, CountOf(rows[i]), MaxOf(Column(rows, CountOf)))
  {
    assert Chart(rows)[i].width == Width(CountOf(rows[i]), MaxOf(Column(rows, CountOf)));
  }

  function TotalEvents(rows: seq<Wire.ModelRow>): int {
    if rows == [] then 0 else TotalEvents(rows[..|rows| - 1]) + rows[|rows| - 1].count
  }

  function TotalCost(rows: seq<Wire.ModelRow>): real {
    if rows == [] then 0.0 else TotalCost(rows[..|rows| - 1]) + Wire.CostOrZero(rows[|rows| - 1].cost)
  }

  /** Appending a model adds its count and its cost (or 0) to the totals. */
  lemma {:induction false} TotalsAppend(rows: seq<Wire.ModelRow>, more: seq<Wire.ModelRow>)
    ensures TotalEvents(rows + more) == TotalEvents(rows) + TotalEvents(more)
    ensures TotalCost(rows + more) == TotalCost(rows) + TotalCost(more)
  {
    if more == [] {
      assert rows + more == rows;
    } else {
      assert (rows + more)[..|rows + more| - 1] == rows + more[..|more| - 1];
      TotalsAppend(rows, more[..|more| - 1]);
    }
  }
}
