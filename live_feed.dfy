/**
 * The live event feed: the relative "time ago" label, the provider and
 * event-type badges, the paging rule behind "Load More Events", and the
 * controls' own state (auto-refresh flag, last refresh time, the refreshes it
 * asked for).
 */
module LiveFeed {
  import opened Wrappers
  import opened JsText
  import Events
  import EventQuery
  import FilterState
  import App

  const MinuteMs: int := 60000
  const HourMs: int := 3600000
  const DayMs: int := 86400000

  datatype Elapsed = JustNow | MinutesAgo(n: int) | HoursAgo(n: int) | DaysAgo(n: int)

  /** The label for an event at `timestamp` seen at `now`; `Math.floor` on a positive divisor is `/`. */
  function FormatTime(timestamp: int, now: int): (r: Elapsed)
    ensures r == JustNow <==> now - timestamp < MinuteMs
    ensures r.MinutesAgo? <==> MinuteMs <= now - timestamp < HourMs
    ensures r.HoursAgo? <==> HourMs <= now - timestamp < DayMs
    ensures r.DaysAgo? <==> DayMs <= now - timestamp
    ensures r.MinutesAgo? ==> 1 <= r.n <= 59 && r.n * MinuteMs <= now - timestamp < (r.n + 1) * MinuteMs
    ensures r.HoursAgo? ==> 1 <= r.n <= 23 && r.n * HourMs <= now - timestamp < (r.n + 1) * HourMs
    ensures r.DaysAgo? ==> 1 <= r.n && r.n * DayMs <= now - timestamp < (r.n + 1) * DayMs
  {
    var diffMs := now - timestamp;
    var diffMins := diffMs / MinuteMs;
    var diffHours := diffMs / HourMs;
    var diffDays := diffMs / DayMs;
    if diffMins < 1 then JustNow
    else if diffMins < 60 then MinutesAgo(diffMins)
    else if diffHours < 24 then HoursAgo(diffHours)
    else DaysAgo(diffDays)
  }

  /** The least age, in milliseconds, the label stands for. */
  function LeastAge(r: Elapsed): int {
    match r
    case JustNow => 0
    case MinutesAgo(n) => n * MinuteMs
    case HoursAgo(n) => n * HourMs
    case DaysAgo(n) => n * DayMs
  }

  /** An older event never gets a label for a younger age. */
  lemma FormatTimeMonotone(older: int, newer: int, now: int)
    requires older <= newer
    ensures LeastAge(FormatTime(newer, now)) <= LeastAge(FormatTime(older, now))
  {
    var a := FormatTime(older, now);
    var b := FormatTime(newer, now);
    if b.MinutesAgo? && a.MinutesAgo? {
      assert b.n * MinuteMs <= now - older < (a.n + 1) * MinuteMs;
    } else if b.HoursAgo? && a.HoursAgo? {
      assert b.n * HourMs <= now - older < (a.n + 1) * HourMs;
    } else if b.DaysAgo? && a.DaysAgo? {
      assert b.n * DayMs <= now - older < (a.n + 1) * DayMs;
    }
  }

  const ProviderColors: map<string, string> := map[
    "openai" := "bg-green-100 text-green-800",
    "anthropic" := "bg-orange-100 text-orange-800",
    "google" := "bg-blue-100 text-blue-800",
    "cohere" := "bg-purple-100 text-purple-800",
    "other" := "bg-gray-100 text-gray-800"]

  const EventTypeColors: map<string, string> := map[
    "text_generation" := "bg-blue-100 text-blue-800",
    "image_generation" := "bg-purple-100 text-purple-800",
    "embedding" := "bg-green-100 text-green-800",
    "fine_tuning" := "bg-yellow-100 text-yellow-800",
    "other" := "bg-gray-100 text-gray-800"]

  /** Provider badge: looked up lower-cased, unknown providers fall back to 'other'. */
  function ProviderColor(provider: string): (c: string)
    ensures c in ProviderColors.Values
    ensures ToLowerCase(provider) in ProviderColors ==> c == ProviderColors[ToLowerCase(provider)]
    ensures ToLowerCase(provider) !in ProviderColors ==> c == ProviderColors["other"]
  {
    LookupOr(ProviderColors, ToLowerCase(provider), "other")
  }

  /** Case does not matter to the provider badge. */
  lemma ProviderColorIgnoresCase(provider: string)
    ensures ProviderColor(ToLowerCase(provider)) == ProviderColor(provider)
  {
    ToLowerCaseIdempotent(provider);
  }

  /** Every provider the backend stores has its own badge. */
  lemma ProviderColorOfBackend(p: Events.Provider)
    ensures ProviderColor(Events.ProviderName(p)) == ProviderColors[Events.ProviderName(p)]
  {
    var name := Events.ProviderName(p);
    assert HasNoUpper(name);
  }

  /** Event-type badge: an exact-key lookup with the 'other' fallback. */
  function EventTypeColor(eventType: string): (c: string)
    ensures c in EventTypeColors.Values
    ensures eventType in EventTypeColors ==> c == EventTypeColors[eventType]
    ensures eventType !in EventTypeColors ==> c == EventTypeColors["other"]
  {
    LookupOr(EventTypeColors, eventType, "other")
  }

  /** Every event type the backend stores has a key in the table; a differently cased one does not. */
  lemma EventTypeColorOfBackend(t: Events.EventType)
    ensures Events.EventTypeName(t) in EventTypeColors
    ensures EventTypeColor("Embedding") == EventTypeColors["other"]
  {
  }

  /** `event.event_type.replace('_', ' ')`: the first underscore becomes a space, nothing else changes. */
  function EventTypeLabel(eventType: string): (shown: string)
    ensures |shown| == |eventType|
    ensures '_' !in eventType ==> shown == eventType
    ensures '_' in eventType ==> shown[IndexOf(eventType, '_')] == ' '
    ensures forall i :: 0 <= i < |eventType| && i != IndexOf(eventType, '_') ==> shown[i] == eventType[i]
  {
    ReplaceFirst(eventType, '_', ' ')
  }

  /** A type with a single underscore, as every stored type name has at most, shows none. */
  lemma LabelOfSingleUnderscore(eventType: string)
    requires '_' in eventType
    requires '_' !in eventType[IndexOf(eventType, '_') + 1..]
    ensures '_' !in EventTypeLabel(eventType)
  {
    var k := IndexOf(eventType, '_');
    var shown := EventTypeLabel(eventType);
    forall i | 0 <= i < |shown| ensures shown[i] != '_' {
      if i < k {
        assert eventType[..k][i] == eventType[i];
      } else if i > k {
        assert eventType[k + 1..][i - k - 1] == eventType[i];
      }
    }
  }

  /** Only the first underscore becomes a space. */
  lemma EventTypeLabelExample()
    ensures EventTypeLabel("a_b_c") == "a b_c"
  {
    var t := "a_b_c";
    assert t[..1] == "a";
    IndexOfUnique(t, '_', 1);
    assert t[..1] + [' '] + t[2..] == "a b_c";
  }

  const PageSize: int := 100

  /** "Load More Events" is offered once a full page is shown. */
  predicate ShowLoadMore(eventCount: int) { eventCount >= PageSize }

  /** It asks for everything shown plus one more page. */
  function LoadMoreLimit(eventCount: int): (limit: int)
    ensures limit > eventCount
  {
    eventCount + PageSize
  }

  /**
   * The backend caps a page at 1000 events: loading more from 100..900 shown
   * events is accepted (when the provider filter is), and from more than 900 it
   * is always rejected.
   */
  lemma LoadMoreAgainstBackend(f: FilterState.Filters, eventCount: int)
    requires ShowLoadMore(eventCount)
    ensures eventCount > 900 ==>
              EventQuery.ValidateListing(App.ReceivedListing(App.EventsQuery(f, LoadMoreLimit(eventCount)))).Failure?
    ensures eventCount <= 900 && (f.provider == "" || Events.ParseProvider(f.provider).Some?) ==>
              EventQuery.ValidateListing(App.ReceivedListing(App.EventsQuery(f, LoadMoreLimit(eventCount)))).Success?
  {
    App.ListingOfDashboardQuery(f, LoadMoreLimit(eventCount));
  }

  /** The feed controls. A refresh is recorded with the limit passed to `onRefresh`, if any. */
  class Controls {
    var isAutoRefresh: bool
    var lastRefresh: int
    var refreshes: seq<Option<int>>

    constructor(now: int)
      ensures !isAutoRefresh && lastRefresh == now && refreshes == []
    {
      isAutoRefresh := false;
      lastRefresh := now;
      refreshes := [];
    }

    /** "Live" exactly when auto-refresh is on. */
    function Badge(): (text: string)
      reads this
      ensures text == "Live" <==> isAutoRefresh
      ensures text == "Paused" <==> !isAutoRefresh
    {
      if isAutoRefresh then "Live" else "Paused"
    }

    method Toggle()
      modifies this
      ensures isAutoRefresh == !old(isAutoRefresh)
      ensures lastRefresh == old(lastRefresh) && refreshes == old(refreshes)
    {
      isAutoRefresh := !isAutoRefresh;
    }

    /** The Refresh button: one default-sized refresh, and the time is recorded. */
    method ManualRefresh(now: int)
      modifies this
      ensures refreshes == old(refreshes) + [None]
      ensures lastRefresh == now && isAutoRefresh == old(isAutoRefresh)
    {
      refreshes := refreshes + [None];
      lastRefresh := now;
    }

    /** The Load More button: a larger page, and the time is not recorded. */
    method LoadMore(eventCount: int)
      modifies this
      ensures refreshes == old(refreshes) + [Some(LoadMoreLimit(eventCount))]
      ensures lastRefresh == old(lastRefresh) && isAutoRefresh == old(isAutoRefresh)
    {
      refreshes := refreshes + [Some(LoadMoreLimit(eventCount))];
    }
  }

  /** The limit `fetchEvents` uses for a recorded refresh (its default is one page). */
  function RefreshLimit(r: Option<int>): (limit: int)
    ensures r.None? ==> limit == App.DefaultEventLimit
  {
    r.GetOr(App.DefaultEventLimit)
  }
}
