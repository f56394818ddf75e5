/**
 * The dashboard's filter state: four text dimensions and a day window, the
 * shallow merge that updates it, and the patches and derived views of the
 * filter panel (clearing, the active-filter test, the badge, the chips, the
 * time-range choices and the option lists).
 */
module FilterState {
  import opened Wrappers
  import opened Rollup
  import Wire

  datatype Dimension = ProviderDim | ModelDim | UserDim | ServiceDim

  /** The dimensions in the order the panel, the chips and the query list them. */
  const Dimensions: seq<Dimension> := [ProviderDim, ModelDim, UserDim, ServiceDim]

  /** The dimension's key in the filter object and in the query string. */
  function Key(d: Dimension): string {
    match d
    case ProviderDim => "provider"
    case ModelDim => "model"
    case UserDim => "user_id"
    case ServiceDim => "service"
  }

  lemma KeyInjective(d: Dimension, e: Dimension)
    ensures Key(d) == Key(e) ==> d == e
  {
    if d != e {
      assert |Key(d)| != |Key(e)| || Key(d)[0] != Key(e)[0];
    }
  }

  datatype Filters = Filters(provider: string, model: string, user_id: string, service: string, days: int) {
    function Get(d: Dimension): string {
      match d
      case ProviderDim => provider
      case ModelDim => model
      case UserDim => user_id
      case ServiceDim => service
    }
  }

  /** The state the dashboard starts in. */
  function InitialFilters(): (f: Filters)
    ensures forall d: Dimension :: f.Get(d) == ""
    ensures f.days == 7
  {
    Filters("", "", "", "", 7)
  }

  /** An object literal passed to `updateFilters`: the keys it has. */
  datatype FilterPatch = FilterPatch(provider: Option<string>, model: Option<string>, user_id: Option<string>,
                                     service: Option<string>, days: Option<int>)
  {
    function Get(d: Dimension): Option<string> {
      match d
      case ProviderDim => provider
      case ModelDim => model
      case UserDim => user_id
      case ServiceDim => service
    }
  }

  const EmptyPatch: FilterPatch := FilterPatch(None, None, None, None, None)

  /** `{ ...filters, ...patch }` */
  function UpdateFilters(f: Filters, p: FilterPatch): (r: Filters)
    ensures forall d: Dimension :: p.Get(d).Some? ==> r.Get(d) == p.Get(d).value
    ensures forall d: Dimension :: p.Get(d).None? ==> r.Get(d) == f.Get(d)
    ensures r.days == p.days.GetOr(f.days)
  {
    Filters(p.provider.GetOr(f.provider), p.model.GetOr(f.model), p.user_id.GetOr(f.user_id),
            p.service.GetOr(f.service), p.days.GetOr(f.days))
  }

  /** `{ ...p, ...q }`: the keys of both, `q` winning where both have one. */
  function Combine(p: FilterPatch, q: FilterPatch): (c: FilterPatch)
    ensures forall d: Dimension :: c.Get(d) == if q.Get(d).Some? then q.Get(d) else p.Get(d)
  {
    FilterPatch(if q.provider.Some? then q.provider else p.provider,
                if q.model.Some? then q.model else p.model,
                if q.user_id.Some? then q.user_id else p.user_id,
                if q.service.Some? then q.service else p.service,
                if q.days.Some? then q.days else p.days)
  }

  lemma FiltersEqual(f: Filters, g: Filters)
    requires forall d: Dimension :: f.Get(d) == g.Get(d)
    requires f.days == g.days
    ensures f == g
  {
    assert f.Get(ProviderDim) == g.Get(ProviderDim) && f.Get(ModelDim) == g.Get(ModelDim);
    assert f.Get(UserDim) == g.Get(UserDim) && f.Get(ServiceDim) == g.Get(ServiceDim);
  }

  /** Two updates in a row are one update with the combined patch. */
  lemma UpdateTwice(f: Filters, p: FilterPatch, q: FilterPatch)
    ensures UpdateFilters(UpdateFilters(f, p), q) == UpdateFilters(f, Combine(p, q))
  {
    FiltersEqual(UpdateFilters(UpdateFilters(f, p), q), UpdateFilters(f, Combine(p, q)));
  }

  predicate Disjoint(p: FilterPatch, q: FilterPatch) {
    && (forall d: Dimension :: p.Get(d).None? || q.Get(d).None?)
    && (p.days.None? || q.days.None?)
  }

  /** Patches on disjoint keys can be applied in either order. */
  lemma DisjointUpdatesCommute(f: Filters, p: FilterPatch, q: FilterPatch)
    requires Disjoint(p, q)
    ensures UpdateFilters(UpdateFilters(f, p), q) == UpdateFilters(UpdateFilters(f, q), p)
  {
    FiltersEqual(UpdateFilters(UpdateFilters(f, p), q), UpdateFilters(UpdateFilters(f, q), p));
  }

  /** Applying the same patch twice changes nothing the second time. */
  lemma UpdateIdempotent(f: Filters, p: FilterPatch)
    ensures UpdateFilters(UpdateFilters(f, p), p) == UpdateFilters(f, p)
  {
    FiltersEqual(UpdateFilters(UpdateFilters(f, p), p), UpdateFilters(f, p));
  }

  /** The "Clear all" patch: every dimension to the literal "all", the window to a week. */
  const ClearPatch: FilterPatch := FilterPatch(Some("all"), Some("all"), Some("all"), Some("all"), Some(7))

  /** A dimension filters only when it is non-empty and not "all". */
  predicate IsActive(s: string) { s != "" && s != "all" }

  /** `hasActiveFilters`, dimension by dimension as the panel writes it. */
  predicate HasActiveFilters(f: Filters)
    ensures HasActiveFilters(f) <==> exists d: Dimension :: IsActive(f.Get(d))
  {
    IsActive(f.Get(ProviderDim)) || IsActive(f.Get(ModelDim)) || IsActive(f.Get(UserDim)) || IsActive(f.Get(ServiceDim))
  }

  /** Clearing gives the same state whatever came before, with nothing active. */
  lemma ClearFacts(f: Filters, g: Filters)
    ensures UpdateFilters(f, ClearPatch) == UpdateFilters(g, ClearPatch)
    ensures forall d: Dimension :: UpdateFilters(f, ClearPatch).Get(d) == "all"
    ensures UpdateFilters(f, ClearPatch).days == 7
    ensures !HasActiveFilters(UpdateFilters(f, ClearPatch))
  {
    FiltersEqual(UpdateFilters(f, ClearPatch), UpdateFilters(g, ClearPatch));
  }

  /**
   * The chip block is drawn only while filters are active; inside it a chip is
   * shown for any truthy value, "all" included.
   */
  predicate ChipShown(f: Filters, d: Dimension) { HasActiveFilters(f) && f.Get(d) != "" }

  /** Where a dimension's chip sits in the panel, left to right. */
  function Position(d: Dimension): nat {
    match d
    case ProviderDim => 0
    case ModelDim => 1
    case UserDim => 2
    case ServiceDim => 3
  }

  function ChipIf(f: Filters, d: Dimension): seq<Dimension> {
    if f.Get(d) != "" then [d] else []
  }

  /** The chip block: nothing unless filters are active, then one chip per truthy dimension in panel order. */
  function Chips(f: Filters): (cs: seq<Dimension>)
    ensures forall d :: d in cs <==> ChipShown(f, d)
    ensures forall i, j :: 0 <= i < j < |cs| ==> Position(cs[i]) < Position(cs[j])
    ensures !HasActiveFilters(f) ==> cs == []
  {
    if HasActiveFilters(f) then ChipIf(f, ProviderDim) + ChipIf(f, ModelDim) + ChipIf(f, UserDim) + ChipIf(f, ServiceDim)
    else []
  }

  /** Every active dimension has a chip; a chip need not be active ("all"). */
  lemma ActiveHasChip(f: Filters, d: Dimension)
    requires IsActive(f.Get(d))
    ensures d in Chips(f)
  {
  }

  /** JavaScript truthiness of a filter value: a non-empty string, a non-zero number. */
  function Truthy(s: string): nat { if s != "" then 1 else 0 }

  /** `Object.values(filters).filter(Boolean).length - 1` */
  function BadgeCount(f: Filters): (n: int)
    ensures -1 <= n <= 4
    ensures n == -1 <==> f == Filters("", "", "", "", 0)
  {
    Truthy(f.provider) + Truthy(f.model) + Truthy(f.user_id) + Truthy(f.service)
      + (if f.days != 0 then 1 else 0) - 1
  }

  /** The "N active" badge, drawn only while filters are active. */
  function ActiveBadge(f: Filters): (b: Option<int>)
    ensures b.Some? <==> HasActiveFilters(f)
  {
    if HasActiveFilters(f) then Some(BadgeCount(f)) else None
  }

  /**
   * The badge is shown exactly when chips are, and counts them: the truthy
   * dimensions, "all" ones included, plus a truthy window, less one. With the
   * window at 0 (falsy) it is one short.
   */
  lemma BadgeCountsChips(f: Filters)
    ensures ActiveBadge(f).None? <==> Chips(f) == []
    ensures ActiveBadge(f).Some? && f.days != 0 ==> ActiveBadge(f).value == |Chips(f)| >= 1
    ensures ActiveBadge(f).Some? && f.days == 0 ==> ActiveBadge(f).value == |Chips(f)| - 1
  {
    if HasActiveFilters(f) {
      var d :| IsActive(f.Get(d));
      ActiveHasChip(f, d);
    }
  }

  /** The chip's close button: only that dimension, back to "". */
  function RemoveChip(d: Dimension): (p: FilterPatch)
    ensures p.Get(d) == Some("") && p.days.None?
    ensures forall e: Dimension :: e != d ==> p.Get(e).None?
  {
    match d
    case ProviderDim => EmptyPatch.(provider := Some(""))
    case ModelDim => EmptyPatch.(model := Some(""))
    case UserDim => EmptyPatch.(user_id := Some(""))
    case ServiceDim => EmptyPatch.(service := Some(""))
  }

  lemma RemoveChipFacts(f: Filters, d: Dimension)
    ensures !IsActive(UpdateFilters(f, RemoveChip(d)).Get(d))
    ensures d !in Chips(UpdateFilters(f, RemoveChip(d)))
    ensures forall e: Dimension :: e != d ==> UpdateFilters(f, RemoveChip(d)).Get(e) == f.Get(e)
    ensures UpdateFilters(f, RemoveChip(d)).days == f.days
  {
  }

  /** The time-range select and the quick buttons. */
  const TimeRangeChoices: seq<int> := [1, 7, 30, 90, 365]
  const TodayDays: int := 1
  const WeekDays: int := 7

  function DaysPatch(days: int): (p: FilterPatch)
    ensures p.days == Some(days)
    ensures forall d: Dimension :: p.Get(d).None?
  {
    EmptyPatch.(days := Some(days))
  }

  /** Every window the panel offers is one the analytics endpoint accepts (1..365). */
  lemma TimeRangesAccepted(f: Filters, days: int)
    requires days in TimeRangeChoices || days == TodayDays || days == WeekDays
    ensures 1 <= UpdateFilters(f, DaysPatch(days)).days <= 365
    ensures forall d: Dimension :: UpdateFilters(f, DaysPatch(days)).Get(d) == f.Get(d)
  {
  }

  function ModelProviders(ms: seq<Wire.ModelRow>): (r: seq<string>)
    ensures |r| == |ms| && forall i :: 0 <= i < |ms| ==> r[i] == ms[i].provider
  {
    seq(|ms|, i requires 0 <= i < |ms| => ms[i].provider)
  }

  function ModelNames(ms: seq<Wire.ModelRow>): (r: seq<string>)
    ensures |r| == |ms| && forall i :: 0 <= i < |ms| ==> r[i] == ms[i].model
  {
    seq(|ms|, i requires 0 <= i < |ms| => ms[i].model)
  }

  /** `[...new Set(analytics.top_models.map(m => m.provider))]`, or [] when missing. */
  function UniqueProviders(a: Option<Wire.AnalyticsData>): (r: seq<string>)
    ensures a.None? || a.value.top_models.None? ==> r == []
    ensures a.Some? && a.value.top_models.Some? ==>
              && NoDuplicates(r)
              && (forall i :: 0 <= i < |a.value.top_models.value| ==> a.value.top_models.value[i].provider in r)
              && (forall i :: 0 <= i < |r| ==> exists j :: 0 <= j < |a.value.top_models.value| && a.value.top_models.value[j].provider == r[i])
  {
    if a.None? || a.value.top_models.None? then []
    else
      var ps := ModelProviders(a.value.top_models.value);
      var r := Distinct(ps);
      assert forall i :: 0 <= i < |r| ==> r[i] in ps;
      r
  }

  /** `[...new Set(analytics.top_models.map(m => m.model))]`, or [] when missing. */
  function UniqueModels(a: Option<Wire.AnalyticsData>): (r: seq<string>)
    ensures a.None? || a.value.top_models.None? ==> r == []
    ensures a.Some? && a.value.top_models.Some? ==>
              && NoDuplicates(r)
              && (forall i :: 0 <= i < |a.value.top_models.value| ==> a.value.top_models.value[i].model in r)
              && (forall i :: 0 <= i < |r| ==> exists j :: 0 <= j < |a.value.top_models.value| && a.value.top_models.value[j].model == r[i])
  {
    if a.None? || a.value.top_models.None? then []
    else
      var ms := ModelNames(a.value.top_models.value);
      var r := Distinct(ms);
      assert forall i :: 0 <= i < |r| ==> r[i] in ms;
      r
  }

  /** A `Set` keeps first insertion order: the options follow first occurrence in `top_models`. */
  lemma UniqueProvidersInFirstOccurrenceOrder(a: Wire.AnalyticsData)
    requires a.top_models.Some?
    ensures UniqueProviders(Some(a)) == Distinct(ModelProviders(a.top_models.value))
    ensures forall i, j :: 0 <= i < j < |UniqueProviders(Some(a))| ==>
              FirstIndex(ModelProviders(a.top_models.value), UniqueProviders(Some(a))[i])
                < FirstIndex(ModelProviders(a.top_models.value), UniqueProviders(Some(a))[j])
  {
    DistinctInFirstOccurrenceOrder(ModelProviders(a.top_models.value));
  }

  /** `analytics.top_users.map(u => u.user_id)`, or [] when missing: no deduplication. */
  function UniqueUsers(a: Option<Wire.AnalyticsData>): (r: seq<string>)
    ensures a.None? || a.value.top_users.None? ==> r == []
    ensures a.Some? && a.value.top_users.Some? ==>
              |r| == |a.value.top_users.value| && forall i :: 0 <= i < |r| ==> r[i] == a.value.top_users.value[i].user_id
  {
    if a.None? || a.value.top_users.None? then []
    else
      var us := a.value.top_users.value;
      seq(|us|, i requires 0 <= i < |us| => us[i].user_id)
  }

  /** `analytics.top_services.map(s => s.service)`, or [] when missing: no deduplication. */
  function UniqueServices(a: Option<Wire.AnalyticsData>): (r: seq<string>)
    ensures a.None? || a.value.top_services.None? ==> r == []
    ensures a.Some? && a.value.top_services.Some? ==>
              |r| == |a.value.top_services.value| && forall i :: 0 <= i < |r| ==> r[i] == a.value.top_services.value[i].service
  {
    if a.None? || a.value.top_services.None? then []
    else
      var ss := a.value.top_services.value;
      seq(|ss|, i requires 0 <= i < |ss| => ss[i].service)
  }
}
