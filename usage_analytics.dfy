/**
 * The analytics endpoint: totals over the whole store and over the last 24
 * hours, the five busiest (provider, model) pairs, users and services since the
 * start of the window, and the per-day series. Each aggregation pipeline is a
 * reference function over the store, an in-memory sequence of events.
 */
module UsageAnalytics {
  import opened Wrappers
  import opened Sorting
  import opened Rollup
  import opened Events
  import EventQuery

  const HourMs: int := 3600000
  const DayMs: int := 86400000
  const TopLimit: nat := 5
  const MaxDays: int := 365

  datatype ModelKey = ModelKey(provider: Provider, model: string)

  datatype AnalyticsResponse = AnalyticsResponse(
    total_events: nat,
    total_cost: real,
    events_last_24h: nat,
    cost_last_24h: real,
    top_models: seq<Row<ModelKey>>,
    top_users: seq<Row<string>>,
    top_services: seq<Row<string>>,
    usage_over_time: seq<Row<int>>)

  /** `$sum` skips a missing cost. */
  function CostOf(e: UsageEvent): real { e.cost_usd.GetOr(0.0) }

  function SumCost(es: seq<UsageEvent>): real {
    if es == [] then 0.0 else SumCost(es[..|es| - 1]) + CostOf(es[|es| - 1])
  }

  /** The events with `timestamp >= t` (`$match: {timestamp: {$gte: t}}`), in store order. */
  function Since(es: seq<UsageEvent>, t: int): (r: seq<UsageEvent>)
    ensures |r| <= |es|
    ensures forall e :: e in r <==> e in es && e.timestamp >= t
  {
    if es == [] then []
    else
      var p, e := es[..|es| - 1], es[|es| - 1];
      assert es == p + [e];
      Since(p, t) + (if e.timestamp >= t then [e] else [])
  }

  function ModelKeyOf(e: UsageEvent): ModelKey { ModelKey(e.provider, e.model) }
  function UserKeyOf(e: UsageEvent): string { e.user_id }
  function ServiceKeyOf(e: UsageEvent): string { e.service }

  /** The calendar day (UTC) of an event; `%Y-%m-%d` strings sort like these numbers. */
  function DayOf(e: UsageEvent): int { e.timestamp / DayMs }

  /** One contribution per event: `count: {$sum: 1}`, `cost: {$sum: "$cost_usd"}`. */
  function Contributions<K>(es: seq<UsageEvent>, keyOf: UsageEvent -> K): (rs: seq<Row<K>>)
    ensures |rs| == |es|
    ensures forall i :: 0 <= i < |es| ==> rs[i] == Row(keyOf(es[i]), 1, CostOf(es[i]))
  {
    seq(|es|, i requires 0 <= i < |es| => Row(keyOf(es[i]), 1, CostOf(es[i])))
  }

  /** The events whose key is `k`, in store order. */
  function EventsWith<K(==)>(es: seq<UsageEvent>, keyOf: UsageEvent -> K, k: K): (r: seq<UsageEvent>)
    ensures forall e :: e in r <==> e in es && keyOf(e) == k
  {
    if es == [] then []
    else
      var p, e := es[..|es| - 1], es[|es| - 1];
      assert es == p + [e];
      EventsWith(p, keyOf, k) + (if keyOf(e) == k then [e] else [])
  }

  lemma {:induction false} ContributionTotals<K>(es: seq<UsageEvent>, keyOf: UsageEvent -> K, k: K)
    ensures CountFor(Contributions(es, keyOf), k) == |EventsWith(es, keyOf, k)|
    ensures CostFor(Contributions(es, keyOf), k) == SumCost(EventsWith(es, keyOf, k))
  {
    if es != [] {
      var p, e := es[..|es| - 1], es[|es| - 1];
      var cs := Contributions(es, keyOf);
      assert cs[..|es| - 1] == Contributions(p, keyOf);
      ContributionTotals(p, keyOf, k);
      var w := EventsWith(p, keyOf, k);
      if keyOf(e) == k {
        assert (w + [e])[..|w|] == w;
      } else {
        assert w + [] == w;
      }
    }
  }

  lemma {:induction false} ContributionsTotalCount<K>(es: seq<UsageEvent>, keyOf: UsageEvent -> K)
    ensures TotalCount(Contributions(es, keyOf)) == |es|
  {
    if es != [] {
      var p := es[..|es| - 1];
      assert Contributions(es, keyOf)[..|es| - 1] == Contributions(p, keyOf);
      ContributionsTotalCount(p, keyOf);
    }
  }

  /** A `$group` / `$sort: {count: -1}` / `$limit: 5` pipeline: the leading rows of the ranking. */
  function TopRows<K(==)>(es: seq<UsageEvent>, keyOf: UsageEvent -> K): (top: seq<Row<K>>)
    ensures |top| <= TopLimit && |top| <= |Ranked(es, keyOf)| && top == Ranked(es, keyOf)[..|top|]
    ensures |top| < TopLimit ==> top == Ranked(es, keyOf)
  {
    Take(ByCountDesc(Group(Contributions(es, keyOf))), TopLimit)
  }

  function DateRank(r: Row<int>): int { -r.key }

  /** The per-day pipeline: group by date, `$sort: {_id: 1}`, then `to_list(days)`: the leading dates. */
  function DailySeries(es: seq<UsageEvent>, days: nat): (series: seq<Row<int>>)
    ensures |series| <= days && |series| <= |Dated(es)| && series == Dated(es)[..|series|]
    ensures |series| < days ==> series == Dated(es)
  {
    Take(SortDesc(Group(Contributions(es, DayOf)), DateRank), days)
  }

  /** A `$group` with `_id: None` yields one document, or none for an empty input. */
  function SumPipeline(es: seq<UsageEvent>): (r: seq<real>)
    ensures |r| <= 1
    ensures r == [] <==> es == []
  {
    if es == [] then [] else [SumCost(es)]
  }

  /** `result[0]["total"] if result else 0.0` */
  function TotalOrZero(result: seq<real>): (total: real)
    ensures result == [] ==> total == 0.0
    ensures result != [] ==> total == result[0]
  {
    if result != [] then result[0] else 0.0
  }

  /** The analytics endpoint at time `now` (milliseconds) for a window of `days` days. */
  function GetAnalytics(store: seq<UsageEvent>, now: int, days: int): (r: Result<AnalyticsResponse, EventQuery.ApiError>)
    ensures r.Failure? <==> !(1 <= days <= MaxDays)
    ensures r.Failure? ==> r.error == EventQuery.Unprocessable
    ensures r.Success? ==> r.value.total_events == |store| && r.value.events_last_24h <= r.value.total_events
    ensures r.Success? ==> |r.value.top_models| <= TopLimit && |r.value.top_users| <= TopLimit && |r.value.top_services| <= TopLimit
    ensures r.Success? ==> |r.value.usage_over_time| <= days
  {
    if !(1 <= days <= MaxDays) then Failure(EventQuery.Unprocessable)
    else
      var start := now - days * DayMs;
      var last24h := now - 24 * HourMs;
      var window := Since(store, start);
      Success(AnalyticsResponse(
        |store|,
        TotalOrZero(SumPipeline(store)),
        |Since(store, last24h)|,
        TotalOrZero(SumPipeline(Since(store, last24h))),
        TopRows(window, ModelKeyOf),
        TopRows(window, UserKeyOf),
        TopRows(window, ServiceKeyOf),
        DailySeries(window, days)))
  }

  /** A row of a grouped pipeline counts and costs exactly the events with its key. */
  ghost predicate RowSummarises<K>(es: seq<UsageEvent>, keyOf: UsageEvent -> K, r: Row<K>) {
    && r.count == |EventsWith(es, keyOf, r.key)|
    && r.cost == SumCost(EventsWith(es, keyOf, r.key))
    && r.count >= 1
  }

  /** Every row of the full grouping summarises its key. */
  lemma GroupSummarises<K>(es: seq<UsageEvent>, keyOf: UsageEvent -> K, i: nat)
    requires i < |Group(Contributions(es, keyOf))|
    ensures RowSummarises(es, keyOf, Group(Contributions(es, keyOf))[i])
  {
    var cs := Contributions(es, keyOf);
    var g := Group(cs);
    ContributionTotals(es, keyOf, g[i].key);
    assert KeysOf(g)[i] == g[i].key;
    assert g[i].key in KeysOf(cs);
    var j :| 0 <= j < |cs| && KeysOf(cs)[j] == g[i].key;
    assert es[j] in EventsWith(es, keyOf, g[i].key);
  }

  /** The full grouping has a row for the key of every event. */
  lemma GroupCovers<K>(es: seq<UsageEvent>, keyOf: UsageEvent -> K, e: UsageEvent)
    requires e in es
    ensures exists i :: 0 <= i < |Group(Contributions(es, keyOf))| && Group(Contributions(es, keyOf))[i].key == keyOf(e)
  {
    var cs := Contributions(es, keyOf);
    var g := Group(cs);
    var j :| 0 <= j < |es| && es[j] == e;
    assert KeysOf(cs)[j] == keyOf(e);
    var i :| 0 <= i < |KeysOf(g)| && KeysOf(g)[i] == keyOf(e);
    assert g[i].key == keyOf(e);
  }

  ghost predicate AllSummarise<K>(es: seq<UsageEvent>, keyOf: UsageEvent -> K, rows: seq<Row<K>>) {
    forall i :: 0 <= i < |rows| ==> RowSummarises(es, keyOf, rows[i])
  }

  /** Every event's key has a row. */
  ghost predicate Covers<K>(es: seq<UsageEvent>, keyOf: UsageEvent -> K, rows: seq<Row<K>>) {
    forall e :: e in es ==> exists n :: 0 <= n < |rows| && rows[n].key == keyOf(e)
  }

  /** A permutation of the grouping: its rows summarise and it covers every event. */
  lemma PermutedGroupFacts<K>(es: seq<UsageEvent>, keyOf: UsageEvent -> K, full: seq<Row<K>>)
    requires multiset(full) == multiset(Group(Contributions(es, keyOf)))
    ensures AllSummarise(es, keyOf, full)
    ensures Covers(es, keyOf, full)
  {
    var g := Group(Contributions(es, keyOf));
    forall i | 0 <= i < |full| ensures RowSummarises(es, keyOf, full[i]) {
      assert full[i] in multiset(g);
      var m :| 0 <= m < |g| && g[m] == full[i];
      GroupSummarises(es, keyOf, m);
    }
    forall e | e in es ensures exists n :: 0 <= n < |full| && full[n].key == keyOf(e) {
      GroupCovers(es, keyOf, e);
      var m :| 0 <= m < |g| && g[m].key == keyOf(e);
      assert g[m] in multiset(full);
      var n :| 0 <= n < |full| && full[n] == g[m];
    }
  }

  /** The grouping ordered by count, before the `$limit`. */
  function Ranked<K(==)>(es: seq<UsageEvent>, keyOf: UsageEvent -> K): seq<Row<K>> {
    ByCountDesc(Group(Contributions(es, keyOf)))
  }

  ghost predicate CountsDescending<K>(rows: seq<Row<K>>) {
    forall i, j :: 0 <= i < j < |rows| ==> rows[i].count >= rows[j].count
  }

  lemma RankedFacts<K>(es: seq<UsageEvent>, keyOf: UsageEvent -> K)
    ensures AllSummarise(es, keyOf, Ranked(es, keyOf))
    ensures Covers(es, keyOf, Ranked(es, keyOf))
    ensures DistinctKeys(Ranked(es, keyOf))
    ensures CountsDescending(Ranked(es, keyOf))
    ensures TotalCount(Ranked(es, keyOf)) == |es|
  {
    var cs := Contributions(es, keyOf);
    var g := Group(cs);
    PermutedGroupFacts(es, keyOf, Ranked(es, keyOf));
    GroupHasDistinctKeys(cs);
    SortKeepsDistinctKeys(g, CountRank);
    SortKeepsTotals(g, CountRank);
    GroupConservesTotals(cs);
    ContributionsTotalCount(es, keyOf);
  }

  /** What a leading slice of a summarising, covering, keyed, count-ordered list keeps. */
  lemma RankedPrefix<K>(es: seq<UsageEvent>, keyOf: UsageEvent -> K, full: seq<Row<K>>, top: seq<Row<K>>, limit: nat)
    requires AllSummarise(es, keyOf, full) && Covers(es, keyOf, full)
    requires DistinctKeys(full) && CountsDescending(full)
    requires |top| <= |full| && top == full[..|top|] && |top| <= limit && (|top| < limit ==> top == full)
    ensures AllSummarise(es, keyOf, top) && DistinctKeys(top) && CountsDescending(top)
    ensures forall e :: e in es ==>
              (exists i :: 0 <= i < |top| && top[i].key == keyOf(e)) ||
              (|top| == limit && forall i :: 0 <= i < |top| ==> top[i].count >= |EventsWith(es, keyOf, keyOf(e))|)
  {
    forall i | 0 <= i < |top| ensures RowSummarises(es, keyOf, top[i]) {
      assert top[i] == full[i];
    }
    forall e | e in es
      ensures (exists i :: 0 <= i < |top| && top[i].key == keyOf(e)) ||
              (|top| == limit && forall i :: 0 <= i < |top| ==> top[i].count >= |EventsWith(es, keyOf, keyOf(e))|)
    {
      var n :| 0 <= n < |full| && full[n].key == keyOf(e);
      if n < |top| {
        assert top[n].key == keyOf(e);
      } else {
        assert RowSummarises(es, keyOf, full[n]);
        forall i | 0 <= i < |top| ensures top[i].count >= |EventsWith(es, keyOf, keyOf(e))| {
          assert top[i] == full[i];
        }
      }
    }
  }

  /**
   * The top-five pipelines: at most five rows, busiest first, distinct keys, each
   * row the exact count and cost of its key's events; a key left out has no more
   * events than any row shown (and then five rows are shown); and the rows count
   * no more events than there are.
   */
  lemma TopRowsFacts<K>(es: seq<UsageEvent>, keyOf: UsageEvent -> K)
    ensures |TopRows(es, keyOf)| <= TopLimit
    ensures CountsDescending(TopRows(es, keyOf))
    ensures DistinctKeys(TopRows(es, keyOf))
    ensures AllSummarise(es, keyOf, TopRows(es, keyOf))
    ensures forall e :: e in es ==>
              (exists i :: 0 <= i < |TopRows(es, keyOf)| && TopRows(es, keyOf)[i].key == keyOf(e)) ||
              (|TopRows(es, keyOf)| == TopLimit &&
               forall i :: 0 <= i < |TopRows(es, keyOf)| ==> TopRows(es, keyOf)[i].count >= |EventsWith(es, keyOf, keyOf(e))|)
    ensures TotalCount(TopRows(es, keyOf)) <= |es|
  {
    var full := Ranked(es, keyOf);
    var top := TopRows(es, keyOf);
    assert top == Take(full, TopLimit);
    RankedFacts(es, keyOf);
    RankedPrefix(es, keyOf, full, top, TopLimit);
    PrefixCountAtMostTotal(full, |top|);
  }

  /** The grouping by date, oldest first, before `to_list(days)`. */
  function Dated(es: seq<UsageEvent>): seq<Row<int>> {
    SortDesc(Group(Contributions(es, DayOf)), DateRank)
  }

  ghost predicate DatesAscending(rows: seq<Row<int>>) {
    forall i, j :: 0 <= i < j < |rows| ==> rows[i].key < rows[j].key
  }

  lemma DatedAscending(full: seq<Row<int>>)
    requires SortedDesc(full, DateRank) && DistinctKeys(full)
    ensures DatesAscending(full)
  {
    forall i, j | 0 <= i < j < |full| ensures full[i].key < full[j].key {
      assert DateRank(full[i]) >= DateRank(full[j]);
    }
  }

  lemma DatedFacts(es: seq<UsageEvent>)
    ensures AllSummarise(es, DayOf, Dated(es))
    ensures Covers(es, DayOf, Dated(es))
    ensures DatesAscending(Dated(es))
  {
    var g := Group(Contributions(es, DayOf));
    var full := Dated(es);
    PermutedGroupFacts(es, DayOf, full);
    GroupHasDistinctKeys(Contributions(es, DayOf));
    SortKeepsDistinctKeys(g, DateRank);
    DatedAscending(full);
  }

  lemma DatedPrefix(es: seq<UsageEvent>, full: seq<Row<int>>, series: seq<Row<int>>, days: nat)
    requires AllSummarise(es, DayOf, full) && Covers(es, DayOf, full) && DatesAscending(full)
    requires |series| <= |full| && series == full[..|series|] && |series| <= days && (|series| < days ==> series == full)
    ensures AllSummarise(es, DayOf, series) && DatesAscending(series)
    ensures forall e :: e in es ==>
              (exists i :: 0 <= i < |series| && series[i].key == DayOf(e)) ||
              (|series| == days && forall i :: 0 <= i < |series| ==> series[i].key < DayOf(e))
  {
    forall i | 0 <= i < |series| ensures RowSummarises(es, DayOf, series[i]) {
      assert series[i] == full[i];
    }
    forall i, j | 0 <= i < j < |series| ensures series[i].key < series[j].key {
      assert series[i] == full[i] && series[j] == full[j];
    }
    forall e | e in es
      ensures (exists i :: 0 <= i < |series| && series[i].key == DayOf(e)) ||
              (|series| == days && forall i :: 0 <= i < |series| ==> series[i].key < DayOf(e))
    {
      var n :| 0 <= n < |full| && full[n].key == DayOf(e);
      if n < |series| {
        assert series[n].key == DayOf(e);
      } else {
        forall i | 0 <= i < |series| ensures series[i].key < DayOf(e) {
          assert series[i] == full[i];
        }
      }
    }
  }

  /**
   * The per-day series: at most `days` rows, dates strictly ascending, each row the
   * exact count and cost of that day's events. A date with events is missing only
   * when `days` rows are shown and every shown date is earlier: the truncation keeps
   * the oldest dates.
   */
  lemma DailySeriesFacts(es: seq<UsageEvent>, days: nat)
    ensures |DailySeries(es, days)| <= days
    ensures DatesAscending(DailySeries(es, days))
    ensures AllSummarise(es, DayOf, DailySeries(es, days))
    ensures forall e :: e in es ==>
              (exists i :: 0 <= i < |DailySeries(es, days)| && DailySeries(es, days)[i].key == DayOf(e)) ||
              (|DailySeries(es, days)| == days &&
               forall i :: 0 <= i < |DailySeries(es, days)| ==> DailySeries(es, days)[i].key < DayOf(e))
  {
    var full := Dated(es);
    var series := DailySeries(es, days);
    assert series == Take(full, days);
    DatedFacts(es);
    DatedPrefix(es, full, series, days);
  }

  /**
   * The totals: `days` outside 1..365 is rejected; `total_events` counts the whole
   * store, so it bounds the 24-hour count; the cost totals are the summed costs,
   * which are 0.0 when nothing aggregates.
   */
  lemma GetAnalyticsTotals(store: seq<UsageEvent>, now: int, days: int)
    ensures GetAnalytics(store, now, days).Success? <==> 1 <= days <= MaxDays
    ensures GetAnalytics(store, now, days).Success? ==>
              var a := GetAnalytics(store, now, days).value;
              && a.total_events == |store|
              && a.events_last_24h <= a.total_events
              && a.total_cost == SumCost(store)
              && a.cost_last_24h == SumCost(Since(store, now - DayMs))
              && (store == [] ==> a.total_cost == 0.0 && a.cost_last_24h == 0.0)
  {
  }

  /**
   * The rollups: each top list counts no more events than `total_events` (the
   * window is part of the store), and the series has at most `days` rows.
   */
  lemma GetAnalyticsRollups(store: seq<UsageEvent>, now: int, days: int)
    requires 1 <= days <= MaxDays
    ensures var a := GetAnalytics(store, now, days).value;
      && a.top_models == TopRows(Since(store, now - days * DayMs), ModelKeyOf)
      && a.top_users == TopRows(Since(store, now - days * DayMs), UserKeyOf)
      && a.top_services == TopRows(Since(store, now - days * DayMs), ServiceKeyOf)
      && a.usage_over_time == DailySeries(Since(store, now - days * DayMs), days)
      && TotalCount(a.top_models) <= a.total_events
      && TotalCount(a.top_users) <= a.total_events
      && TotalCount(a.top_services) <= a.total_events
      && |a.usage_over_time| <= days
  {
    var window := Since(store, now - days * DayMs);
    TopRowsFacts(window, ModelKeyOf);
    TopRowsFacts(window, UserKeyOf);
    TopRowsFacts(window, ServiceKeyOf);
    DailySeriesFacts(window, days);
  }

  /** A row's key is the day of some event. */
  lemma SummarisedKeyOccurs<K>(es: seq<UsageEvent>, keyOf: UsageEvent -> K, r: Row<K>)
    requires RowSummarises(es, keyOf, r)
    ensures exists e :: e in es && keyOf(e) == r.key
  {
    var w := EventsWith(es, keyOf, r.key);
    assert w[0] in w;
  }

  function EventAt(ts: int): UsageEvent {
    UsageEvent("", ts, OpenAI, "gpt-4", TextGeneration, "u", "s", None, None, None, None,
               None, None, map[], false, None, None)
  }

  /**
   * `to_list(days)` keeps the oldest dates: a one-day window that straddles
   * midnight holds events on two dates, and the series drops the newer one, the
   * day of `now` itself.
   */
  lemma SeriesDropsNewestDate()
    ensures var store := [EventAt(50000000), EventAt(100000000)];
      var a := GetAnalytics(store, 129600000, 1).value;
      && GetAnalytics(store, 129600000, 1).Success?
      && |Since(store, 129600000 - DayMs)| == 2
      && |a.usage_over_time| == 1
      && a.usage_over_time[0].key == 0
      && DayOf(EventAt(100000000)) == 1
  {
    var store := [EventAt(50000000), EventAt(100000000)];
    var window := Since(store, 129600000 - DayMs);
    assert window == store by {
      assert Since(store[..1], 129600000 - DayMs) == [store[0]];
    }
    assert DayOf(store[0]) == 0 && DayOf(store[1]) == 1;
    var series := DailySeries(window, 1);
    DailySeriesFacts(window, 1);
    // Day 0 has an event, so it is in the series unless an earlier date fills it.
    assert |series| == 1 && series[0].key <= 0 by {
      assert store[0] in window;
    }
    // A row's date is the date of some event of the window: day 0 or day 1.
    assert series[0].key == 0 by {
      assert RowSummarises(window, DayOf, series[0]);
      SummarisedKeyOccurs(window, DayOf, series[0]);
    }
  }
}
