/**
 * The analytics page: which of its three faces it shows, the averages it
 * derives, the provider breakdown it folds out of `top_models`, and the cost
 * panel.
 */
module AnalyticsView {
  import opened Wrappers
  import opened Sorting
  import opened Rollup
  import Wire
  import Events
  import UsageAnalytics

  datatype Face = Skeleton | NoData | Metrics

  /** Loading with nothing yet shows placeholders; no analytics or no events shows the empty state. */
  function FaceOf(loading: bool, a: Option<Wire.AnalyticsData>): (face: Face)
    ensures face == Skeleton <==> loading && a.None?
    ensures face == Metrics <==> a.Some? && a.value.total_events != 0
  {
    if loading && a.None? then Skeleton
    else if a.None? || a.value.total_events == 0 then NoData
    else Metrics
  }

  /** Average cost per event, 0 when there are no events. */
  function AvgCostPerEvent(a: Wire.AnalyticsData): (avg: real)
    ensures a.total_events > 0 ==> avg * (a.total_events as real) == a.total_cost
    ensures a.total_events <= 0 ==> avg == 0.0
  {
    if a.total_events > 0 then a.total_cost / (a.total_events as real) else 0.0
  }

  /** `reduce((sum, day) => sum + day.count, 0)` */
  function SumDayCounts(days: seq<Wire.DayRow>): int {
    if days == [] then 0 else SumDayCounts(days[..|days| - 1]) + days[|days| - 1].count
  }

  /** Average events per day over the series, 0 for a missing or empty series. */
  function AvgEventsPerDay(a: Wire.AnalyticsData): (avg: real)
    ensures a.usage_over_time.None? || a.usage_over_time.value == [] ==> avg == 0.0
    ensures a.usage_over_time.Some? && a.usage_over_time.value != [] ==>
              avg * (|a.usage_over_time.value| as real) == SumDayCounts(a.usage_over_time.value) as real
  {
    if a.usage_over_time.Some? && |a.usage_over_time.value| > 0 then
      SumDayCounts(a.usage_over_time.value) as real / (|a.usage_over_time.value| as real)
    else 0.0
  }

  lemma {:induction false} SumDayCountsBounds(days: seq<Wire.DayRow>, lo: int, hi: int)
    requires forall i :: 0 <= i < |days| ==> lo <= days[i].count <= hi
    ensures |days| * lo <= SumDayCounts(days) <= |days| * hi
  {
    if days != [] {
      SumDayCountsBounds(days[..|days| - 1], lo, hi);
    }
  }

  /** The average lies between the smallest and the largest daily count. */
  lemma AvgEventsPerDayBounds(a: Wire.AnalyticsData, lo: int, hi: int)
    requires a.usage_over_time.Some? && a.usage_over_time.value != []
    requires forall i :: 0 <= i < |a.usage_over_time.value| ==> lo <= a.usage_over_time.value[i].count <= hi
    ensures lo as real <= AvgEventsPerDay(a) <= hi as real
  {
    var days := a.usage_over_time.value;
    SumDayCountsBounds(days, lo, hi);
    MeanBounds(SumDayCounts(days), |days|, lo, hi);
  }

  lemma MeanBounds(sum: int, n: int, lo: int, hi: int)
    requires n > 0 && n * lo <= sum <= n * hi
    ensures lo as real <= sum as real / n as real <= hi as real
  {
    var q := sum as real / n as real;
    assert q * n as real == sum as real;
  }

  /** One model row's contribution to its provider's entry (`model.cost || 0`). */
  function Contributions(models: seq<Wire.ModelRow>): (rs: seq<Row<string>>)
    ensures |rs| == |models|
    ensures forall i :: 0 <= i < |models| ==>
              rs[i] == Row(models[i].provider, models[i].count, Wire.CostOrZero(models[i].cost))
  {
    seq(|models|, i requires 0 <= i < |models| => Row(models[i].provider, models[i].count, Wire.CostOrZero(models[i].cost)))
  }

  /** What the breakdown is: totals per provider in first-occurrence order, stably sorted by count. */
  function Breakdown(models: seq<Wire.ModelRow>): seq<Row<string>> {
    ByCountDesc(Group(Contributions(models)))
  }

  /** `providers.find(p => p.provider === provider)`, as a position. */
  method FindProvider(providers: seq<Row<string>>, provider: string) returns (idx: int)
    ensures -1 <= idx < |providers|
    ensures idx >= 0 ==> providers[idx].key == provider
    ensures idx == -1 ==> forall j :: 0 <= j < |providers| ==> providers[j].key != provider
  {
    idx := 0;
    while idx < |providers|
      invariant 0 <= idx <= |providers|
      invariant forall j :: 0 <= j < idx ==> providers[j].key != provider
    {
      if providers[idx].key == provider {
        return;
      }
      idx := idx + 1;
    }
    idx := -1;
  }

  /** The breakdown as the page computes it: an accumulator updated model by model, then sorted. */
  method ProviderBreakdown(models: seq<Wire.ModelRow>) returns (out: seq<Row<string>>)
    ensures out == Breakdown(models)
  {
    var cs := Contributions(models);
    var providers: seq<Row<string>> := [];
    for i := 0 to |models|
      invariant providers == Group(cs[..i])
    {
      var m := models[i];
      var c := Row(m.provider, m.count, Wire.CostOrZero(m.cost));
      assert cs[..i + 1] == cs[..i] + [c];
      var idx := FindProvider(providers, m.provider);
      if idx >= 0 {
        GroupSnocExisting(cs[..i], c, idx);
        providers := providers[idx := Row(m.provider, providers[idx].count + m.count, providers[idx].cost + Wire.CostOrZero(m.cost))];
      } else {
        GroupSnocNew(cs[..i], c);
        providers := providers + [c];
      }
    }
    assert cs[..|models|] == cs;
    out := ByCountDesc(providers);
  }

  /**
   * One entry per distinct provider, each the sum of its models' counts and
   * costs (a missing cost counting 0); so the entries count exactly what
   * `top_models` counts, and there are no more entries than models.
   */
  lemma BreakdownFacts(models: seq<Wire.ModelRow>)
    ensures DistinctKeys(Breakdown(models))
    ensures forall i :: 0 <= i < |models| ==> exists j :: 0 <= j < |Breakdown(models)| && Breakdown(models)[j].key == models[i].provider
    ensures forall j :: 0 <= j < |Breakdown(models)| ==>
              && Breakdown(models)[j].count == CountFor(Contributions(models), Breakdown(models)[j].key)
              && Breakdown(models)[j].cost == CostFor(Contributions(models), Breakdown(models)[j].key)
    ensures TotalCount(Breakdown(models)) == TotalCount(Contributions(models))
    ensures TotalCost(Breakdown(models)) == TotalCost(Contributions(models))
    ensures |Breakdown(models)| <= |models|
  {
    var cs := Contributions(models);
    var g := Group(cs);
    var out := Breakdown(models);
    GroupHasDistinctKeys(cs);
    SortKeepsDistinctKeys(g, CountRank);
    SortKeepsTotals(g, CountRank);
    GroupConservesTotals(cs);
    forall i | 0 <= i < |models| ensures exists j :: 0 <= j < |out| && out[j].key == models[i].provider {
      assert KeysOf(cs)[i] == models[i].provider;
      var k :| 0 <= k < |KeysOf(g)| && KeysOf(g)[k] == models[i].provider;
      assert g[k] in multiset(out);
      var j :| 0 <= j < |out| && out[j] == g[k];
    }
    forall j | 0 <= j < |out|
      ensures out[j].count == CountFor(cs, out[j].key) && out[j].cost == CostFor(cs, out[j].key)
    {
      assert out[j] in multiset(g);
      var k :| 0 <= k < |g| && g[k] == out[j];
    }
  }

  /** Busiest provider first; providers with equal counts keep their first-occurrence order. */
  lemma BreakdownOrder(models: seq<Wire.ModelRow>, count: int)
    ensures forall i, j :: 0 <= i < j < |Breakdown(models)| ==> Breakdown(models)[i].count >= Breakdown(models)[j].count
    ensures OfRank(Breakdown(models), CountRank, count) == OfRank(Group(Contributions(models)), CountRank, count)
  {
    SortKeepsTies(Group(Contributions(models)), CountRank, count);
  }

  /** `top_models` as the browser receives it from the analytics endpoint. */
  function ModelRowsOf(rows: seq<Row<UsageAnalytics.ModelKey>>): (ms: seq<Wire.ModelRow>)
    ensures |ms| == |rows|
    ensures forall i :: 0 <= i < |rows| ==> ms[i].count == rows[i].count && ms[i].cost == Some(rows[i].cost)
  {
    seq(|rows|, i requires 0 <= i < |rows| =>
      Wire.ModelRow(Events.ProviderName(rows[i].key.provider), rows[i].key.model, rows[i].count, Some(rows[i].cost)))
  }

  lemma {:induction false} ContributionsCountTotal(rows: seq<Row<UsageAnalytics.ModelKey>>)
    ensures TotalCount(Contributions(ModelRowsOf(rows))) == TotalCount(rows)
  {
    if rows != [] {
      var p := rows[..|rows| - 1];
      assert ModelRowsOf(rows)[..|p|] == ModelRowsOf(p);
      assert Contributions(ModelRowsOf(rows))[..|p|] == Contributions(ModelRowsOf(p));
      ContributionsCountTotal(p);
    }
  }

  /**
   * Over what the backend sends, the breakdown counts no more events than the
   * store holds.
   */
  lemma BreakdownOfBackendBounded(store: seq<Events.UsageEvent>, now: int, days: int)
    requires 1 <= days <= UsageAnalytics.MaxDays
    ensures TotalCount(Breakdown(ModelRowsOf(UsageAnalytics.GetAnalytics(store, now, days).value.top_models))) <= |store|
  {
    var a := UsageAnalytics.GetAnalytics(store, now, days).value;
    UsageAnalytics.GetAnalyticsRollups(store, now, days);
    BreakdownFacts(ModelRowsOf(a.top_models));
    ContributionsCountTotal(a.top_models);
  }

  /** The daily average over the selected window, never dividing by less than 1. */
  function DailyAverage(a: Wire.AnalyticsData, days: int): (avg: real)
    ensures days >= 1 ==> avg * (days as real) == a.total_cost
    ensures days < 1 ==> avg == a.total_cost
  {
    var divisor := if days > 1 then days else 1;
    assert divisor as real > 0.0;
    a.total_cost / divisor as real
  }

  /** `top_services?.[0]?.service || 'N/A'`: the first service by count. */
  function MostExpensiveService(a: Wire.AnalyticsData): (name: string)
    ensures name != "N/A" ==> a.top_services.Some? && |a.top_services.value| > 0 && name == a.top_services.value[0].service
    ensures a.top_services.Some? && |a.top_services.value| > 0 && a.top_services.value[0].service != "" ==>
              name == a.top_services.value[0].service
    ensures a.top_services.None? || a.top_services.value == [] ==> name == "N/A"
  {
    if a.top_services.Some? && |a.top_services.value| > 0 && a.top_services.value[0].service != "" then
      a.top_services.value[0].service
    else "N/A"
  }

  /** The busiest service is named even when another one cost more. */
  lemma MostExpensiveIsBusiest()
    ensures var a := Wire.AnalyticsData(3, 5.0, 0, 0.0, None, None,
              Some([Wire.ServiceRow("chat", 2, Some(1.0)), Wire.ServiceRow("batch", 1, Some(4.0))]), None);
      && MostExpensiveService(a) == "chat"
      && Wire.CostOrZero(a.top_services.value[1].cost) > Wire.CostOrZero(a.top_services.value[0].cost)
  {
  }

  /** The "active models" and "active services" figures: the list lengths, 0 when missing. */
  function ActiveModels(a: Wire.AnalyticsData): (n: nat)
    ensures a.top_models.Some? ==> n == |a.top_models.value|
    ensures a.top_models.None? ==> n == 0
  {
    if a.top_models.Some? then |a.top_models.value| else 0
  }

  function ActiveServices(a: Wire.AnalyticsData): (n: nat)
    ensures a.top_services.Some? ==> n == |a.top_services.value|
    ensures a.top_services.None? ==> n == 0
  {
    if a.top_services.Some? then |a.top_services.value| else 0
  }
}
