/**
 * The dashboard's top-level component: the requests it sends (the analytics
 * window, the event query string built one `append` at a time, demo
 * generation), the effects that decide when to refetch, and the state the
 * responses update. Requests and responses are values: a method takes the
 * response it will receive as a parameter and returns the request it sent.
 */
module App {
  import opened Wrappers
  import opened FilterState
  import Wire
  import Events
  import EventQuery
  import UsageAnalytics

  datatype QueryParam = IntParam(name: string, n: int) | StrParam(name: string, text: string)

  datatype Request =
    | AnalyticsRequest(days: int)
    | EventsRequest(params: seq<QueryParam>)
    | DemoRequest(count: int)

  /** What an awaited request yields: the response body, or an error caught by the handler. */
  datatype Outcome<T> = Received(data: T) | Failed

  const DefaultEventLimit: int := 100
  const DemoCount: int := 100

  /** One `params.append(key, value)` per non-empty dimension, in order. */
  function DimensionParams(f: Filters, ds: seq<Dimension>): (r: seq<QueryParam>)
    ensures |r| <= |ds|
  {
    if ds == [] then []
    else (if f.Get(ds[0]) != "" then [StrParam(Key(ds[0]), f.Get(ds[0]))] else []) + DimensionParams(f, ds[1..])
  }

  /** The dimension arguments are exactly the non-empty dimensions with their values. */
  lemma {:induction false} DimensionParamsFacts(f: Filters, ds: seq<Dimension>)
    ensures forall d :: d in ds && f.Get(d) != "" ==> StrParam(Key(d), f.Get(d)) in DimensionParams(f, ds)
    ensures forall p :: p in DimensionParams(f, ds) ==> exists d :: d in ds && f.Get(d) != "" && p == StrParam(Key(d), f.Get(d))
  {
    if ds != [] {
      DimensionParamsFacts(f, ds[1..]);
      var head: seq<QueryParam> := if f.Get(ds[0]) != "" then [StrParam(Key(ds[0]), f.Get(ds[0]))] else [];
      assert DimensionParams(f, ds) == head + DimensionParams(f, ds[1..]);
      forall d | d in ds && f.Get(d) != "" ensures StrParam(Key(d), f.Get(d)) in DimensionParams(f, ds) {
        if d != ds[0] {
          assert d in ds[1..];
        }
      }
      forall p | p in DimensionParams(f, ds) ensures exists d :: d in ds && f.Get(d) != "" && p == StrParam(Key(d), f.Get(d)) {
        if p !in head {
          var d :| d in ds[1..] && f.Get(d) != "" && p == StrParam(Key(d), f.Get(d));
          assert d in ds;
        }
      }
    }
  }

  /** Over distinct dimensions, no argument name is sent twice. */
  lemma {:induction false} DimensionParamNamesDistinct(f: Filters, ds: seq<Dimension>)
    requires forall i, j :: 0 <= i < j < |ds| ==> ds[i] != ds[j]
    ensures forall i, j :: 0 <= i < j < |DimensionParams(f, ds)| ==> DimensionParams(f, ds)[i].name != DimensionParams(f, ds)[j].name
  {
    if ds != [] {
      var tail := DimensionParams(f, ds[1..]);
      DimensionParamNamesDistinct(f, ds[1..]);
      DimensionParamsFacts(f, ds[1..]);
      var head: seq<QueryParam> := if f.Get(ds[0]) != "" then [StrParam(Key(ds[0]), f.Get(ds[0]))] else [];
      var r := DimensionParams(f, ds);
      assert r == head + tail;
      forall i, j | 0 <= i < j < |r| ensures r[i].name != r[j].name {
        if i < |head| {
          assert r[j] == tail[j - |head|] && r[j] in tail;
          var e :| e in ds[1..] && f.Get(e) != "" && r[j] == StrParam(Key(e), f.Get(e));
          KeyInjective(ds[0], e);
        } else {
          assert r[i] == tail[i - |head|] && r[j] == tail[j - |head|];
        }
      }
    }
  }

  /** The query string of `fetchEvents(limit)`. */
  function EventsQuery(f: Filters, limit: int): (ps: seq<QueryParam>)
    ensures |ps| >= 1 && ps[0] == IntParam("limit", limit)
  {
    [IntParam("limit", limit)] + DimensionParams(f, Dimensions)
  }

  /**
   * `limit` comes first; a dimension is sent exactly when it is non-empty, with
   * its value, so "" is omitted and "all" is sent literally.
   */
  lemma EventsQueryFacts(f: Filters, limit: int, d: Dimension)
    ensures f.Get(d) != "" ==> StrParam(Key(d), f.Get(d)) in EventsQuery(f, limit)
    ensures forall p :: p in EventsQuery(f, limit) && p.StrParam? && p.name == Key(d) ==> f.Get(d) != "" && p.text == f.Get(d)
    ensures forall p :: p in EventsQuery(f, limit) && p.IntParam? ==> p == IntParam("limit", limit)
    ensures |EventsQuery(f, limit)| <= 5
  {
    var ps := EventsQuery(f, limit);
    DimensionParamsFacts(f, Dimensions);
    forall p | p in ps && p.StrParam? && p.name == Key(d) ensures f.Get(d) != "" && p.text == f.Get(d) {
      var e :| e in Dimensions && f.Get(e) != "" && p == StrParam(Key(e), f.Get(e));
      KeyInjective(d, e);
    }
  }

  /**
   * The string argument named `name` as the server reads a scalar query
   * parameter: when the name is repeated, the last value wins.
   */
  function StrArg(ps: seq<QueryParam>, name: string): (r: Option<string>)
    ensures r.Some? ==> StrParam(name, r.value) in ps
    ensures r.Some? ==> exists i :: 0 <= i < |ps| && ps[i] == StrParam(name, r.value) && forall j :: i < j < |ps| ==> !(ps[j].StrParam? && ps[j].name == name)
    ensures r.None? ==> forall p :: p in ps && p.StrParam? ==> p.name != name
  {
    if ps == [] then None
    else if ps[|ps| - 1].StrParam? && ps[|ps| - 1].name == name then Some(ps[|ps| - 1].text)
    else StrArg(ps[..|ps| - 1], name)
  }

  /** The same for a number argument. */
  function IntArg(ps: seq<QueryParam>, name: string): (r: Option<int>)
    ensures r.Some? ==> IntParam(name, r.value) in ps
    ensures r.Some? ==> exists i :: 0 <= i < |ps| && ps[i] == IntParam(name, r.value) && forall j :: i < j < |ps| ==> !(ps[j].IntParam? && ps[j].name == name)
    ensures r.None? ==> forall p :: p in ps && p.IntParam? ==> p.name != name
  {
    if ps == [] then None
    else if ps[|ps| - 1].IntParam? && ps[|ps| - 1].name == name then Some(ps[|ps| - 1].n)
    else IntArg(ps[..|ps| - 1], name)
  }

  /** The listing request the backend parses out of a query string. */
  function ReceivedListing(ps: seq<QueryParam>): EventQuery.ListRequest {
    EventQuery.ListRequest(IntArg(ps, "limit"), IntArg(ps, "offset"),
      StrArg(ps, Key(ProviderDim)), StrArg(ps, Key(ModelDim)), StrArg(ps, Key(UserDim)), StrArg(ps, Key(ServiceDim)),
      None, None)
  }

  lemma ReceivedDimension(f: Filters, limit: int, d: Dimension)
    ensures StrArg(EventsQuery(f, limit), Key(d)) == if f.Get(d) != "" then Some(f.Get(d)) else None
  {
    EventsQueryFacts(f, limit, d);
  }

  /** A dimension as a query argument: present exactly when non-empty. */
  function Sent(s: string): (r: Option<string>)
    ensures r.Some? <==> s != ""
    ensures r.Some? ==> r.value == s
  {
    if s != "" then Some(s) else None
  }

  /** What the backend sees: the page size, no offset, and each non-empty dimension with its value. */
  lemma ReceivedListingOfQuery(f: Filters, limit: int)
    ensures ReceivedListing(EventsQuery(f, limit)) ==
              EventQuery.ListRequest(Some(limit), None, Sent(f.provider), Sent(f.model), Sent(f.user_id), Sent(f.service), None, None)
  {
    ReceivedDimension(f, limit, ProviderDim);
    ReceivedDimension(f, limit, ModelDim);
    ReceivedDimension(f, limit, UserDim);
    ReceivedDimension(f, limit, ServiceDim);
    ReceivedNoOffset(f, limit);
  }

  lemma ReceivedNoOffset(f: Filters, limit: int)
    ensures IntArg(EventsQuery(f, limit), "limit") == Some(limit)
    ensures IntArg(EventsQuery(f, limit), "offset") == None
  {
    EventsQueryFacts(f, limit, ProviderDim);
    assert "offset" != "limit";
  }

  /**
   * The listing is accepted exactly when the limit is within 1..1000 and the
   * provider is empty or one the backend knows.
   */
  lemma ListingOfDashboardQuery(f: Filters, limit: int)
    ensures EventQuery.ValidateListing(ReceivedListing(EventsQuery(f, limit))).Success? <==>
              1 <= limit <= EventQuery.MaxLimit && (f.provider == "" || Events.ParseProvider(f.provider).Some?)
  {
    ReceivedListingOfQuery(f, limit);
  }

  /**
   * After "Clear all" the provider filter is the literal "all", which the
   * backend's provider enumeration does not contain: the event query is rejected.
   */
  lemma ClearedFiltersQueryRejected(f: Filters)
    ensures EventQuery.ValidateListing(ReceivedListing(EventsQuery(UpdateFilters(f, ClearPatch), DefaultEventLimit))).Failure?
  {
    var g := UpdateFilters(f, ClearPatch);
    ClearFacts(f, f);
    assert g.provider == "all";
    ListingOfDashboardQuery(g, DefaultEventLimit);
    assert Events.ParseProvider("all").None?;
  }

  /** The initial query asks for the default page with no filters, and is accepted. */
  lemma InitialQueryAccepted()
    ensures EventsQuery(InitialFilters(), DefaultEventLimit) == [IntParam("limit", DefaultEventLimit)]
    ensures EventQuery.ValidateListing(ReceivedListing(EventsQuery(InitialFilters(), DefaultEventLimit))).Success?
  {
    var f := InitialFilters();
    ListingOfDashboardQuery(f, DefaultEventLimit);
    assert Dimensions[1..][1..][1..][1..] == [];
  }

  predicate AnyDimension(f: Filters) {
    f.provider != "" || f.model != "" || f.user_id != "" || f.service != ""
  }

  predicate DimensionsChanged(prev: Filters, next: Filters) {
    prev.provider != next.provider || prev.model != next.model || prev.user_id != next.user_id || prev.service != next.service
  }

  /** The two effects, in declaration order, on mount (every dependency is new). */
  function OnMount(f: Filters): (rs: seq<Request>)
    ensures |rs| >= 2 && rs[0] == AnalyticsRequest(f.days) && rs[1] == EventsRequest(EventsQuery(f, DefaultEventLimit))
    ensures |rs| == 3 <==> AnyDimension(f)
    ensures |rs| <= 3 && forall i :: 1 <= i < |rs| ==> rs[i] == EventsRequest(EventsQuery(f, DefaultEventLimit))
  {
    [AnalyticsRequest(f.days), EventsRequest(EventsQuery(f, DefaultEventLimit))]
      + (if AnyDimension(f) then [EventsRequest(EventsQuery(f, DefaultEventLimit))] else [])
  }

  /** The first load asks for a week of analytics and an unfiltered page of events. */
  lemma InitialLoad()
    ensures OnMount(InitialFilters()) == [AnalyticsRequest(7), EventsRequest([IntParam("limit", DefaultEventLimit)])]
  {
    InitialQueryAccepted();
  }

  /** Every window the filter panel can select is one the analytics endpoint answers. */
  lemma SelectableWindowsAccepted(f: Filters, days: int, store: seq<Events.UsageEvent>, now: int)
    requires days in TimeRangeChoices || days == TodayDays || days == WeekDays
    ensures UsageAnalytics.GetAnalytics(store, now, UpdateFilters(f, DaysPatch(days)).days).Success?
  {
    TimeRangesAccepted(f, days);
    UsageAnalytics.GetAnalyticsTotals(store, now, UpdateFilters(f, DaysPatch(days)).days);
  }

  /** The effects after a render whose filters changed from `prev` to `next`. */
  function Refetches(prev: Filters, next: Filters): (rs: seq<Request>)
    ensures forall r :: r in rs && r.EventsRequest? ==> r.params == EventsQuery(next, DefaultEventLimit)
    ensures forall r :: r in rs && r.AnalyticsRequest? ==> r.days == next.days
    ensures forall r :: r in rs ==> !r.DemoRequest?
  {
    (if prev.days != next.days then [AnalyticsRequest(next.days), EventsRequest(EventsQuery(next, DefaultEventLimit))] else [])
      + (if DimensionsChanged(prev, next) && AnyDimension(next) then [EventsRequest(EventsQuery(next, DefaultEventLimit))] else [])
  }

  function EventFetchCount(rs: seq<Request>): nat {
    if rs == [] then 0 else EventFetchCount(rs[..|rs| - 1]) + (if rs[|rs| - 1].EventsRequest? then 1 else 0)
  }

  lemma {:induction false} EventFetchCountAppend(a: seq<Request>, b: seq<Request>)
    ensures EventFetchCount(a + b) == EventFetchCount(a) + EventFetchCount(b)
  {
    if b != [] {
      assert (a + b)[..|a + b| - 1] == a + b[..|b| - 1];
      EventFetchCountAppend(a, b[..|b| - 1]);
    } else {
      assert a + b == a;
    }
  }

  /**
   * Analytics is refetched exactly when the window changed. Events are fetched
   * once for a window change and once more for a dimension change that leaves
   * some dimension non-empty, so one update can fetch them twice, and a change
   * that empties every dimension fetches nothing.
   */
  lemma RefetchFacts(prev: Filters, next: Filters)
    ensures (exists r :: r in Refetches(prev, next) && r.AnalyticsRequest?) <==> prev.days != next.days
    ensures EventFetchCount(Refetches(prev, next)) ==
              (if prev.days != next.days then 1 else 0) + (if DimensionsChanged(prev, next) && AnyDimension(next) then 1 else 0)
  {
    var a: seq<Request> := if prev.days != next.days then [AnalyticsRequest(next.days), EventsRequest(EventsQuery(next, DefaultEventLimit))] else [];
    var b: seq<Request> := if DimensionsChanged(prev, next) && AnyDimension(next) then [EventsRequest(EventsQuery(next, DefaultEventLimit))] else [];
    EventFetchCountAppend(a, b);
    if prev.days != next.days {
      assert a[..1] == [AnalyticsRequest(next.days)];
      assert EventFetchCount(a) == 1;
      assert a[0] in Refetches(prev, next);
    }
    if b != [] {
      assert b[..0] == [];
    }
  }

  /** "Clear all" from a filtered state with another window sends the rejected query twice. */
  lemma ClearAllFetchesEventsTwice(f: Filters)
    requires f.days != 7 && f.provider != "all"
    ensures EventFetchCount(Refetches(f, UpdateFilters(f, ClearPatch))) == 2
  {
    ClearFacts(f, f);
    RefetchFacts(f, UpdateFilters(f, ClearPatch));
  }

  /** Removing the last chip refetches nothing: the list stays filtered by the removed value. */
  lemma RemovingLastChipFetchesNothing(f: Filters, d: Dimension)
    requires d in Chips(f)
    requires forall e: Dimension :: e != d ==> f.Get(e) == ""
    ensures Refetches(f, UpdateFilters(f, RemoveChip(d))) == []
  {
    var g := UpdateFilters(f, RemoveChip(d));
    RemoveChipFacts(f, d);
    assert g.Get(ProviderDim) == "" && g.Get(ModelDim) == "" && g.Get(UserDim) == "" && g.Get(ServiceDim) == "";
  }

  /** A response handler's effect on the value it sets: success replaces, failure keeps. */
  function Settle<T>(current: T, response: Outcome<T>): (r: T)
    ensures response.Failed? ==> r == current
    ensures response.Received? ==> r == response.data
  {
    if response.Received? then response.data else current
  }

  /** Responses handled in the order they arrive, with no check of which request they answer. */
  function SettleAll<T>(current: T, responses: seq<Outcome<T>>): (r: T)
    ensures responses != [] && responses[|responses| - 1].Received? ==> r == responses[|responses| - 1].data
    ensures responses == [] ==> r == current
  {
    if responses == [] then current
    else Settle(SettleAll(current, responses[..|responses| - 1]), responses[|responses| - 1])
  }

  /** Every response after the `i`-th failed. */
  predicate LaterFailed<T>(responses: seq<Outcome<T>>, i: nat) {
    forall j :: i < j < |responses| ==> responses[j].Failed?
  }

  /** The last response that arrived successfully, if any. */
  function LastReceived<T>(responses: seq<Outcome<T>>): (r: Option<T>)
    ensures r.Some? ==>
              exists i :: 0 <= i < |responses| && responses[i] == Received(r.value) && LaterFailed(responses, i)
    ensures r.None? <==> forall o :: o in responses ==> o.Failed?
  {
    if responses == [] then None
    else if responses[|responses| - 1].Received? then Some(responses[|responses| - 1].data)
    else LastReceived(responses[..|responses| - 1])
  }

  /**
   * The value left after several responses is the last successful one to arrive,
   * whichever request it answers, or the old value when all failed.
   */
  lemma {:induction false} LastArrivalWins<T>(current: T, responses: seq<Outcome<T>>)
    ensures SettleAll(current, responses) == LastReceived(responses).GetOr(current)
  {
    if responses != [] {
      LastArrivalWins(current, responses[..|responses| - 1]);
    }
  }

  class Dashboard {
    var events: seq<Wire.EventRow>
    var analytics: Option<Wire.AnalyticsData>
    var loading: bool
    var filters: Filters

    constructor()
      ensures events == [] && analytics == None && !loading && filters == InitialFilters()
    {
      events := [];
      analytics := None;
      loading := false;
      filters := InitialFilters();
    }

    /** `updateFilters(patch)`, returning the requests the effects then send. */
    method UpdateFilters(p: FilterPatch) returns (requests: seq<Request>)
      modifies this
      ensures filters == FilterState.UpdateFilters(old(filters), p)
      ensures requests == Refetches(old(filters), filters)
      ensures events == old(events) && analytics == old(analytics) && loading == old(loading)
    {
      var prev := filters;
      filters := FilterState.UpdateFilters(filters, p);
      requests := Refetches(prev, filters);
    }

    /** `fetchAnalytics()`: a success replaces the analytics, a failure keeps them. */
    method FetchAnalytics(response: Outcome<Wire.AnalyticsData>) returns (request: Request)
      modifies this
      ensures request == AnalyticsRequest(filters.days)
      ensures analytics == if response.Received? then Some(response.data) else old(analytics)
      ensures !loading
      ensures events == old(events) && filters == old(filters)
    {
      loading := true;
      request := AnalyticsRequest(filters.days);
      if response.Received? {
        analytics := Some(response.data);
      }
      loading := false;
    }

    /** `fetchEvents(limit)`: the query is built one append at a time. */
    method FetchEvents(limit: int, response: Outcome<seq<Wire.EventRow>>) returns (request: Request)
      modifies this
      ensures request == EventsRequest(EventsQuery(filters, limit))
      ensures events == Settle(old(events), response)
      ensures !loading
      ensures analytics == old(analytics) && filters == old(filters)
    {
      loading := true;
      var f := filters;
      var params := [IntParam("limit", limit)];
      if f.provider != "" {
        params := params + [StrParam("provider", f.provider)];
      }
      ghost var upToProvider := params;
      assert upToProvider == [IntParam("limit", limit)] + (if f.provider != "" then [StrParam("provider", f.provider)] else []);
      if f.model != "" {
        params := params + [StrParam("model", f.model)];
      }
      ghost var upToModel := params;
      assert upToModel == upToProvider + (if f.model != "" then [StrParam("model", f.model)] else []);
      if f.user_id != "" {
        params := params + [StrParam("user_id", f.user_id)];
      }
      ghost var upToUser := params;
      assert upToUser == upToModel + (if f.user_id != "" then [StrParam("user_id", f.user_id)] else []);
      if f.service != "" {
        params := params + [StrParam("service", f.service)];
      }
      assert params == upToUser + (if f.service != "" then [StrParam("service", f.service)] else []);
      QueryIsAppends(f, limit);
      request := EventsRequest(params);
      events := Settle(events, response);
      loading := false;
    }

    /** `generateDemoData()`: on success both views are refreshed. */
    method GenerateDemoData(demo: Outcome<int>, analyticsResponse: Outcome<Wire.AnalyticsData>,
                            eventsResponse: Outcome<seq<Wire.EventRow>>)
      returns (requests: seq<Request>)
      modifies this
      ensures demo.Failed? ==> requests == [DemoRequest(DemoCount)] && analytics == old(analytics) && events == old(events)
      ensures demo.Received? ==>
                && requests == [DemoRequest(DemoCount), AnalyticsRequest(filters.days), EventsRequest(EventsQuery(filters, DefaultEventLimit))]
                && analytics == (if analyticsResponse.Received? then Some(analyticsResponse.data) else old(analytics))
                && events == Settle(old(events), eventsResponse)
      ensures filters == old(filters) && !loading
    {
      loading := true;
      requests := [DemoRequest(DemoCount)];
      if demo.Received? {
        var a := FetchAnalytics(analyticsResponse);
        var e := FetchEvents(DefaultEventLimit, eventsResponse);
        requests := requests + [a, e];
      }
      loading := false;
    }
  }

  /** The appends in `fetchEvents` spell out the query. */
  lemma QueryIsAppends(f: Filters, limit: int)
    ensures EventsQuery(f, limit) ==
      [IntParam("limit", limit)]
        + (if f.provider != "" then [StrParam("provider", f.provider)] else [])
        + (if f.model != "" then [StrParam("model", f.model)] else [])
        + (if f.user_id != "" then [StrParam("user_id", f.user_id)] else [])
        + (if f.service != "" then [StrParam("service", f.service)] else [])
  {
    var sv := if f.service != "" then [StrParam("service", f.service)] else [];
    var us := if f.user_id != "" then [StrParam("user_id", f.user_id)] else [];
    var md := if f.model != "" then [StrParam("model", f.model)] else [];
    var pr := if f.provider != "" then [StrParam("provider", f.provider)] else [];
    assert [ServiceDim][1..] == [];
    assert DimensionParams(f, [ServiceDim]) == sv;
    assert [UserDim, ServiceDim][1..] == [ServiceDim];
    assert DimensionParams(f, [UserDim, ServiceDim]) == us + sv;
    assert [ModelDim, UserDim, ServiceDim][1..] == [UserDim, ServiceDim];
    assert DimensionParams(f, [ModelDim, UserDim, ServiceDim]) == md + (us + sv);
    assert Dimensions[1..] == [ModelDim, UserDim, ServiceDim];
    assert DimensionParams(f, Dimensions) == pr + (md + (us + sv));
  }
}
