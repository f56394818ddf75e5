# AI usage monitoring — a Dafny model

This project models the core of an AI usage monitoring service and its dashboard.

The backend records usage events: one record per call to an AI provider. Each record holds the
provider, the model, the event type, the user, the service, token counts and cost. On intake a
prompt is checked for personal data (PII), redacted when some is found, hashed, and optionally
copied to object storage. A missing cost is estimated from the total token count. Two read
endpoints serve the dashboard:

- a filtered, paginated listing of events, newest first;
- an analytics summary: totals, 24-hour totals, the top five models, users and services of a time
  window, and a per-day series.

The frontend keeps one piece of state: the events, the analytics, a loading flag and a filter
object. It builds the query strings, refetches when filters change, and renders the summary.
The rendering covers averages, a per-provider breakdown, bar charts, chips and a badge for active
filters, and a live feed with relative times and "load more".

Modules, one per concern of the source:

- `Wrappers`: `Option` and `Result`.
- `Sorting`: a stable descending sort by an integer rank, with `Take` and `Drop`. This is the model
  of the database's `$sort`/`$limit` and of `Array.prototype.sort`.
- `Rollup`: a generic group-by over `Row(key, count, cost)` contributions. It is the model of
  `$group` with `$sum` and of the frontend's `reduce` into providers.
- `Events`: the event records, `detect_pii`, `redact_pii`, `calculate_hash` and
  `process_usage_event`.
- `EventQuery`: the listing endpoint, covering parameter validation, the filter document built
  key by key, and the page.
- `UsageAnalytics`: the analytics endpoint as reference functions over an in-memory store.
- `Wire`: the JSON rows the dashboard receives.
- `JsText`: the JavaScript string operations used (`toLowerCase` on ASCII, `indexOf`,
  `replace` of a single character, and object lookup with a fallback key).
- `FilterState`: the filter object, `updateFilters` patches, "Clear all", the chips, the badge, the
  time-range choices and the option lists.
- `App`: the query strings, the two effects, response handling, and the `Dashboard` class whose
  methods update state step by step.
- `AnalyticsView`, `Bars`, `UsageChart`, `TopModelsChart`, `LiveFeed`: the rendering logic of
  those components, plus the live feed's `Controls` class.

Conventions:

- Timestamps are integer milliseconds.
- A date is a day number, `timestamp / 86400000`. `YYYY-MM-DD` strings sort the same way as day
  numbers.
- Costs are `real`.
- The regular expressions and SHA-256 are functions passed in as a `Library` value.
- The current time, generated ids, whether object storage accepted the upload, and each HTTP
  response are parameters.

Behaviour of the code that the lemmas make explicit:

- Responses are not matched to requests. `fetchAnalytics` and `fetchEvents` store whatever
  arrives (frontend/src/App.js:41-78), so when requests overlap the last response to arrive wins,
  even when it answers an older filter state (`App.LastArrivalWins`).
- "all" reaches the backend. The provider and model selects offer the value "all" as "All
  providers" and "All models" (frontend/src/components/FilterPanel.js:104, 130), "Clear all" sets
  every dimension to "all" (FilterPanel.js:9-17), and `hasActiveFilters` treats "all" as inactive
  (FilterPanel.js:19-22). `fetchEvents` sends every non-empty dimension (App.js:63-66), so after
  "Clear all" the listing receives `provider=all`, which the backend's provider enumeration
  rejects (`App.ClearedFiltersQueryRejected`).
- Two effects fetch events. The effect on the window refetches analytics and events; the effect on
  the four dimensions refetches events when one of them is non-empty (App.js:108-118). A change of
  both fetches events twice (`App.ClearAllFetchesEventsTwice`). Removing the only chip leaves
  every dimension empty and the window unchanged, so neither effect fetches and the list stays
  filtered (`App.RemovingLastChipFetchesNothing`).
- The card labelled "most expensive service" shows the first row of the top services, which the
  backend orders by event count (`AnalyticsView.MostExpensiveIsBusiest`).
- "Load more" past 900 shown events asks for more than the backend's 1000-event cap
  (`LiveFeed.LoadMoreAgainstBackend`).
- The daily series is cut to `days` rows after an ascending sort, so it keeps the oldest dates
  (`UsageAnalytics.SeriesDropsNewestDate`).

## Model

| member | source | states |
|---|---|---|
| Events.ParseProvider | backend/server.py:51-56 | parsing a provider name inverts `ProviderName`: the result names the text, and every provider with that name is the result |
| Events.DetectPii | backend/server.py:125-140 | the result is true exactly when one of the four patterns is found; the empty text never has PII |
| Events.RedactPii | backend/server.py:142-153 | the result is the four substitutions applied in order; the empty text is returned unchanged |
| Events.SubstituteAllWithoutMatches | backend/server.py:147-153 | substituting patterns that none of them match leaves the text unchanged |
| Events.RedactionWithoutPiiIsIdentity | backend/server.py:194-196 | a text without PII redacts to itself, so keeping the prompt verbatim agrees with redaction |
| Events.CalculateHash | backend/server.py:155-159 | no hash exactly for the empty text, otherwise the SHA-256 digest |
| Events.S3KeyFor | backend/server.py:201 | the key is `prompts/<id>.txt`, and the id can be read back out of it |
| Events.ProcessUsageEvent | backend/server.py:182-214 | the new event copies every submitted field; a non-empty prompt sets the PII flag, the redacted or verbatim copy, the hash and (when stored) the key `prompts/<id>.txt`; without a prompt all four stay empty; a non-empty response is hashed; a supplied cost is kept, otherwise a non-zero token count costs 0.00002 per token, otherwise there is no cost |
| EventQuery.ValidateListing | backend/server.py:270-274 | the request is accepted exactly when limit (default 100) is in 1..1000, offset (default 0) is at least 0, and a given provider is one of the enumeration's values |
| EventQuery.MatchesKeyByKey | backend/server.py:283-300 | a filter document matches an event exactly when every key present is satisfied |
| EventQuery.ProviderNameInjective | backend/server.py:51-56 | distinct providers have distinct names |
| EventQuery.BuildQuery | backend/server.py:283-300 | each key is present exactly when its parameter is given (text parameters only when non-empty), with the given value; the time range carries exactly the given bounds; the document selects exactly the events the parameters admit |
| EventQuery.KeysSelectAdmitted | backend/server.py:283-300 | a document holding exactly the keys the parameters give, with their values, selects exactly the events the parameters admit |
| EventQuery.Select | backend/server.py:302 | the selection holds exactly the stored events that match |
| EventQuery.Page | backend/server.py:302 | a page holds at most `limit` events, and is shorter only when the matches after `offset` run out |
| EventQuery.GetUsageEvents | backend/server.py:270-307 | rejected exactly when validation fails; otherwise at most `limit` events, newest first, each stored and admitted by the parameters, and equal to the matching events sorted newest first with `offset` skipped and `limit` kept |
| EventQuery.PageProperties | backend/server.py:302 | a page is no longer than the limit, ordered newest first, and holds only stored matching events |
| Sorting.Insert | backend/server.py:344 | inserting into a list adds exactly that element |
| Sorting.InsertSorted | backend/server.py:344 | inserting into a list sorted by descending rank keeps it sorted |
| Sorting.SortDesc | backend/server.py:344 | the result is a permutation of the input, sorted by descending rank |
| Sorting.SortKeepsTies | backend/server.py:344 | the sort is stable: elements of equal rank keep their relative order |
| Sorting.Take | backend/server.py:345 | `$limit` keeps a prefix of at most `n` elements, all of them when there are no more than `n` |
| Sorting.Drop | backend/server.py:302 | `skip(n)` removes exactly the first `n` elements |
| Rollup.Distinct | frontend/src/components/FilterPanel.js:27 | the distinct keys: every element occurs, nothing else, no duplicates |
| Rollup.DistinctInFirstOccurrenceOrder | frontend/src/components/FilterPanel.js:27 | distinct keys appear in the order of their first occurrence, as a `Set` iterates |
| Rollup.Group | backend/server.py:339-343 | one row per distinct key in first-occurrence order, holding that key's summed count and cost |
| Rollup.AbsentKeyIsZero | backend/server.py:339-343 | a key with no contribution sums to zero count and zero cost |
| Rollup.GroupSnocNew | frontend/src/components/Analytics.js:190-196 | a contribution with a new key appends a row of its own |
| Rollup.GroupSnocExisting | frontend/src/components/Analytics.js:186-189 | a contribution with a known key adds its count and cost to that key's row and changes nothing else |
| Rollup.GroupConservesTotals | backend/server.py:339-343 | grouping preserves the total count and the total cost |
| Rollup.ByCountDesc | backend/server.py:344 | sorting by count is a permutation ordered by descending count |
| Rollup.GroupHasDistinctKeys | backend/server.py:339-343 | grouped rows have pairwise distinct keys |
| Rollup.SortKeepsDistinctKeys | backend/server.py:344 | sorting keeps the keys distinct |
| Rollup.SortKeepsTotals | backend/server.py:344 | sorting preserves the total count and cost |
| Rollup.PrefixCountAtMostTotal | backend/server.py:345 | a prefix of rows with non-negative counts counts no more than the whole list |
| UsageAnalytics.Since | backend/server.py:326-328 | the events at or after the cut-off, and only those |
| UsageAnalytics.Contributions | backend/server.py:339-343 | one contribution per event, with count 1 and its cost (a missing cost as 0) |
| UsageAnalytics.EventsWith | backend/server.py:339-343 | the events whose key is the given key, and only those |
| UsageAnalytics.ContributionTotals | backend/server.py:341-342 | a key's summed count is the number of its events, and its summed cost their summed cost |
| UsageAnalytics.ContributionsTotalCount | backend/server.py:341 | the contributions count every event once |
| UsageAnalytics.SumPipeline | backend/server.py:321-324 | a total-only aggregation yields at most one result, and none exactly for an empty input |
| UsageAnalytics.TotalOrZero | backend/server.py:324 | the total of the single result, or 0.0 when the aggregation yields none |
| UsageAnalytics.GroupSummarises | backend/server.py:339-343 | every grouped row's count is the number of events with its key, and its cost their summed cost |
| UsageAnalytics.GroupCovers | backend/server.py:339-343 | every event's key has a grouped row |
| UsageAnalytics.PermutedGroupFacts | backend/server.py:344 | any reordering of the grouped rows still summarises and covers the events |
| UsageAnalytics.RankedFacts | backend/server.py:337-344 | the ranked rows summarise and cover the events, have distinct keys, descend by count, and count every event once |
| UsageAnalytics.RankedPrefix | backend/server.py:345 | cutting a ranked list to a limit keeps rows that summarise, stay distinct and descend; a key left out means the limit was reached by rows at least as busy |
| UsageAnalytics.TopRows | backend/server.py:337-353 | a top list is the leading rows of the ranking, at most 5, and the whole ranking when it has fewer |
| UsageAnalytics.TopRowsFacts | backend/server.py:337-389 | each top list has at most 5 rows, descends by count, has distinct keys, and each row is its key's count and cost; a key missing from the list means 5 rows are at least as busy; the rows count no more events than the window |
| UsageAnalytics.DatedAscending | backend/server.py:404 | dates sorted with distinct keys are strictly ascending |
| UsageAnalytics.DatedFacts | backend/server.py:392-404 | the per-day rows summarise and cover the events and ascend by date |
| UsageAnalytics.DatedPrefix | backend/server.py:411 | cutting the per-day rows to `days` keeps rows that summarise and ascend; a date left out means `days` earlier dates were kept |
| UsageAnalytics.DailySeries | backend/server.py:392-411 | the series is the leading rows of the date-ordered grouping, at most `days`, and all of them when there are fewer |
| UsageAnalytics.DailySeriesFacts | backend/server.py:392-411 | the series has at most `days` rows, ascending by date, each the date's count and cost; a date left out means `days` earlier dates fill the series |
| UsageAnalytics.GetAnalytics | backend/server.py:309-426 | rejected as unprocessable exactly when `days` is outside 1..365; otherwise `total_events` is the store size and bounds the 24-hour count, each top list has at most 5 rows, and the series at most `days` |
| UsageAnalytics.GetAnalyticsTotals | backend/server.py:309-334 | the endpoint answers exactly when `days` is in 1..365; `total_events` is the whole store and bounds the 24-hour count; the cost totals are the summed costs, 0 for an empty store |
| UsageAnalytics.GetAnalyticsRollups | backend/server.py:336-411 | the three top lists (models, users, services) and the series are the top-five and per-day pipelines over the `days` window; each top list counts at most `total_events` events; the series has at most `days` rows |
| UsageAnalytics.SummarisedKeyOccurs | backend/server.py:339-343 | every summarised row's key belongs to some event |
| UsageAnalytics.SeriesDropsNewestDate | backend/server.py:404-411 | a one-day window over two dates returns only the older date, dropping the day of the request |
| Wire.EventRowOf | backend/server.py:71-88 | a serialised event keeps its id and timestamp, and its provider name parses back to the provider |
| JsText.LowerChar | frontend/src/components/LiveFeed.js:57 | a lowered character is not upper-case, and a character that is not upper-case is kept |
| JsText.ToLowerCase | frontend/src/components/LiveFeed.js:57 | lowering keeps the length, leaves no upper-case letter, and leaves lower-case text unchanged |
| JsText.ToLowerCaseIdempotent | frontend/src/components/LiveFeed.js:57 | lowering twice is lowering once |
| JsText.IndexOf | frontend/src/components/LiveFeed.js:197 | -1 exactly when the character is absent, otherwise the position of its first occurrence |
| JsText.IndexOfUnique | frontend/src/components/LiveFeed.js:197 | a position holding the character with no earlier occurrence is the index found |
| JsText.ReplaceFirst | frontend/src/components/LiveFeed.js:197 | same length; unchanged when the character is absent; only the first occurrence is replaced |
| JsText.LookupOr | frontend/src/components/LiveFeed.js:57 | a key of the table gives its entry, any other key the fallback's entry |
| FilterState.KeyInjective | frontend/src/App.js:24-30 | distinct dimensions have distinct keys |
| FilterState.InitialFilters | frontend/src/App.js:24-30 | every dimension starts empty and the window at 7 days |
| FilterState.UpdateFilters | frontend/src/App.js:103-105 | keys in the patch take the patch's value, all others keep theirs |
| FilterState.Combine | frontend/src/App.js:104 | a combined patch takes the later patch where it has a key and the earlier one elsewhere |
| FilterState.FiltersEqual | frontend/src/App.js:24-30 | filter states agreeing on every dimension and on the window are equal |
| FilterState.UpdateTwice | frontend/src/App.js:103-105 | two updates in a row equal one update with the combined patch |
| FilterState.DisjointUpdatesCommute | frontend/src/App.js:103-105 | updates on disjoint keys can be applied in either order |
| FilterState.UpdateIdempotent | frontend/src/App.js:103-105 | applying the same patch twice changes nothing the second time |
| FilterState.HasActiveFilters | frontend/src/components/FilterPanel.js:19-22 | filters are active exactly when some dimension is neither empty nor "all" |
| FilterState.ClearFacts | frontend/src/components/FilterPanel.js:9-17 | "Clear all" gives the same state from any state: every dimension "all", a 7-day window, nothing active |
| FilterState.Chips | frontend/src/components/FilterPanel.js:227-279 | the chip block is drawn only while filters are active; then a chip is shown exactly for each non-empty dimension, in panel order (provider, model, user, service) |
| FilterState.ActiveHasChip | frontend/src/components/FilterPanel.js:227-279 | every active dimension has a chip |
| FilterState.BadgeCount | frontend/src/components/FilterPanel.js:54 | the number of truthy filter values minus one: within -1..4, and -1 exactly for empty dimensions with window 0 |
| FilterState.ActiveBadge | frontend/src/components/FilterPanel.js:52-56 | the badge is drawn exactly when filters are active |
| FilterState.BadgeCountsChips | frontend/src/components/FilterPanel.js:52-56 | the badge and the chips appear together; with a non-zero window the badge number equals the number of chips and is at least 1, with window 0 it is one less |
| FilterState.RemoveChip | frontend/src/components/FilterPanel.js:236 | a chip's close button patches only its own dimension, to "" |
| FilterState.RemoveChipFacts | frontend/src/components/FilterPanel.js:232-275 | after closing a chip its dimension is inactive and has no chip; other dimensions and the window are unchanged |
| FilterState.DaysPatch | frontend/src/components/FilterPanel.js:78 | the time-range patch sets only the window |
| FilterState.TimeRangesAccepted | frontend/src/components/FilterPanel.js:76-93 | every window the select and quick buttons offer is in 1..365, and picking one keeps the dimensions |
| FilterState.ModelProviders | frontend/src/components/FilterPanel.js:27 | the providers of the model rows, position by position |
| FilterState.ModelNames | frontend/src/components/FilterPanel.js:32 | the model names of the model rows, position by position |
| FilterState.UniqueProviders | frontend/src/components/FilterPanel.js:25-28 | no options without model rows; otherwise each provider once, and only providers of the rows |
| FilterState.UniqueModels | frontend/src/components/FilterPanel.js:30-33 | no options without model rows; otherwise each model once, and only models of the rows |
| FilterState.UniqueProvidersInFirstOccurrenceOrder | frontend/src/components/FilterPanel.js:25-28 | the provider options are the distinct providers in order of first occurrence |
| FilterState.UniqueUsers | frontend/src/components/FilterPanel.js:35-38 | no options without user rows; otherwise the user ids in row order, not deduplicated |
| FilterState.UniqueServices | frontend/src/components/FilterPanel.js:40-43 | no options without service rows; otherwise the service names in row order, not deduplicated |
| App.DimensionParams | frontend/src/App.js:63-66 | no more arguments than dimensions |
| App.DimensionParamNamesDistinct | frontend/src/App.js:63-66 | distinct dimensions give arguments with distinct names, so each dimension is sent at most once |
| App.DimensionParamsFacts | frontend/src/App.js:63-66 | the dimension arguments are exactly the non-empty dimensions with their values |
| App.EventsQuery | frontend/src/App.js:60-66 | the query starts with the limit |
| App.EventsQueryFacts | frontend/src/App.js:60-66 | a non-empty dimension is sent with its value, an empty one is not sent, the only number is the limit, and there are at most five arguments |
| App.StrArg | backend/server.py:275-278 | a text argument the server reads was sent under that name, and no argument of that name follows it (the last value of a repeated name is read); one it misses was not sent |
| App.IntArg | backend/server.py:271-272 | a number argument the server reads was sent under that name, and no argument of that name follows it (the last value of a repeated name is read); one it misses was not sent |
| App.ReceivedListing | backend/server.py:270-278 | the listing parameters read out of a query string (no contract; `App.ReceivedListingOfQuery` states what the dashboard's query yields) |
| App.ReceivedDimension | frontend/src/App.js:63-66 | the server reads a dimension exactly when it is non-empty, with its value |
| App.Sent | frontend/src/App.js:63-66 | a dimension is sent exactly when non-empty, with its value |
| App.ReceivedListingOfQuery | frontend/src/App.js:60-68 | the server receives the limit, no offset, no dates, and each non-empty dimension |
| App.ReceivedNoOffset | frontend/src/App.js:60-61 | the server reads the given limit and no offset |
| App.ListingOfDashboardQuery | frontend/src/App.js:57-78 | the dashboard's event query is accepted exactly when the limit is in 1..1000 and the provider is empty or a known provider |
| App.ClearedFiltersQueryRejected | frontend/src/components/FilterPanel.js:9-17 | after "Clear all" the event query carries provider "all" and is rejected |
| App.InitialQueryAccepted | frontend/src/App.js:24-30 | the first event query is the default limit alone, and it is accepted |
| App.InitialLoad | frontend/src/App.js:108-111 | on mount a week of analytics and an unfiltered page of events are requested |
| App.OnMount | frontend/src/App.js:108-118 | on mount the window's analytics and the events are requested, and the events once more exactly when a dimension is already set |
| App.SelectableWindowsAccepted | frontend/src/components/FilterPanel.js:76-93 | every window the panel can select is one the analytics endpoint answers |
| App.Refetches | frontend/src/App.js:108-118 | every request after a change carries the new filters, and no demo request is sent |
| App.EventFetchCountAppend | frontend/src/App.js:108-118 | event fetches add up over concatenated request lists |
| App.RefetchFacts | frontend/src/App.js:108-118 | analytics are refetched exactly when the window changed; each of the two effects that fires fetches events once |
| App.ClearAllFetchesEventsTwice | frontend/src/App.js:108-118 | "Clear all" from another window and provider fetches events twice |
| App.RemovingLastChipFetchesNothing | frontend/src/App.js:108-118 | closing the chip of the only set dimension sends no request, so the list stays filtered |
| App.Settle | frontend/src/App.js:71-74 | a successful response replaces the value with its data; a failed one keeps the current value |
| App.SettleAll | frontend/src/App.js:41-78 | handling responses in arrival order ends with the last response's data when it succeeded, and with the current value when there are none |
| App.LastReceived | frontend/src/App.js:71 | the data of a successful response after which every response failed; none exactly when all failed |
| App.LastArrivalWins | frontend/src/App.js:47 | handling responses in arrival order leaves the last successful one, or the old value when all failed |
| App.Dashboard.constructor | frontend/src/App.js:21-30 | no events, no analytics, not loading, the initial filters |
| App.Dashboard.UpdateFilters | frontend/src/App.js:103-118 | the filters become the patched filters; the requests are the effects' refetches; nothing else changes |
| App.Dashboard.FetchAnalytics | frontend/src/App.js:41-54 | requests the current window; a success replaces the analytics, a failure keeps them; loading ends |
| App.Dashboard.FetchEvents | frontend/src/App.js:57-78 | requests the query for the current filters and limit; a success replaces the events, a failure keeps them; loading ends |
| App.Dashboard.GenerateDemoData | frontend/src/App.js:81-100 | asks for 100 demo events; on success both views are refetched and updated; on failure nothing else is requested or changed |
| App.QueryIsAppends | frontend/src/App.js:60-66 | the query equals the limit followed by the four conditional appends in order |
| AnalyticsView.FaceOf | frontend/src/components/Analytics.js:19-58 | the skeleton exactly while loading with no analytics; the metrics exactly when analytics with events exist |
| AnalyticsView.AvgCostPerEvent | frontend/src/components/Analytics.js:61 | with events the average times the count is the total cost; otherwise 0 |
| AnalyticsView.AvgEventsPerDay | frontend/src/components/Analytics.js:62-64 | 0 without a series; otherwise the average times the number of days is the summed counts |
| AnalyticsView.SumDayCounts | frontend/src/components/Analytics.js:63 | the summed daily counts (no contract; `AnalyticsView.SumDayCountsBounds` bounds them) |
| AnalyticsView.SumDayCountsBounds | frontend/src/components/Analytics.js:63 | the summed counts lie between the days times the least and greatest count |
| AnalyticsView.AvgEventsPerDayBounds | frontend/src/components/Analytics.js:62-64 | the average lies between the least and greatest daily count |
| AnalyticsView.MeanBounds | frontend/src/components/Analytics.js:62-64 | a mean of values within bounds lies within them |
| AnalyticsView.Contributions | frontend/src/components/Analytics.js:185-196 | one contribution per model row, with its provider, count and cost (missing as 0) |
| AnalyticsView.FindProvider | frontend/src/components/Analytics.js:186 | the index of a row with the provider, or -1 exactly when there is none |
| AnalyticsView.ProviderBreakdown | frontend/src/components/Analytics.js:185-198 | the loop's result is the grouped contributions sorted by descending count |
| AnalyticsView.BreakdownFacts | frontend/src/components/Analytics.js:185-198 | one row per provider, each provider of the model rows present, each row its provider's summed count and cost, totals preserved |
| AnalyticsView.BreakdownOrder | frontend/src/components/Analytics.js:198 | descending by count; providers with equal counts keep first-occurrence order |
| AnalyticsView.ModelRowsOf | backend/server.py:346-352 | one model row per top-models row, with its count and cost |
| AnalyticsView.ContributionsCountTotal | frontend/src/components/Analytics.js:185-198 | the contributions of backend model rows count as many events as those rows |
| AnalyticsView.BreakdownOfBackendBounded | frontend/src/components/Analytics.js:185-198 | the breakdown of the backend's top models counts no more events than the store |
| AnalyticsView.DailyAverage | frontend/src/components/Analytics.js:288 | the daily spend times the window (at least 1) is the total cost |
| AnalyticsView.MostExpensiveService | frontend/src/components/Analytics.js:297 | the first service row's non-empty name, otherwise "N/A" |
| AnalyticsView.MostExpensiveIsBusiest | frontend/src/components/Analytics.js:297 | a costlier second service is not the one named |
| AnalyticsView.ActiveModels | frontend/src/components/Analytics.js:120 | the number of model rows, 0 when missing |
| AnalyticsView.ActiveServices | frontend/src/components/Analytics.js:137 | the number of service rows, 0 when missing |
| Bars.Column | frontend/src/components/UsageChart.js:13-14 | a column has one value per row, each that row's value |
| Bars.MaxOf | frontend/src/components/UsageChart.js:13-14 | the maximum is at least every value and is one of them |
| Bars.Width | frontend/src/components/UsageChart.js:50 | 0 when the maximum is not positive; otherwise the width is the value's share of the maximum, in percent |
| Bars.WidthFacts | frontend/src/components/UsageChart.js:50 | a value within the maximum has a width in 0..100, the maximum is 100, and the width is 0 exactly for 0 |
| Bars.WidthMonotone | frontend/src/components/TopModelsChart.js:67 | a larger value never has a narrower bar |
| Bars.MinWidth | frontend/src/components/UsageChart.js:51 | the minimum width is set exactly for a positive value |
| UsageChart.HasData | frontend/src/components/UsageChart.js:4-10 | the chart is drawn only for present, non-empty data (no contract) |
| UsageChart.Chart | frontend/src/components/UsageChart.js:32-72 | one pair of bars per day |
| UsageChart.ChartFacts | frontend/src/components/UsageChart.js:50-51 | both widths lie in 0..100, the busiest and the costliest day reach 100, and the 4px minimum applies exactly to positive values |
| UsageChart.ChartShare | frontend/src/components/UsageChart.js:50-65 | with a positive column maximum each width is its value's share of it, in percent, for counts and for costs |
| UsageChart.TotalEvents | frontend/src/components/UsageChart.js:80 | the summed counts (no contract; bounded by the next two lemmas) |
| UsageChart.TotalCost | frontend/src/components/UsageChart.js:86 | the summed costs, missing as 0 (no contract; bounded by `UsageChart.TotalCostBounds`) |
| UsageChart.TotalEventsBounds | frontend/src/components/UsageChart.js:80 | the total lies between 0 and the days times the largest count |
| UsageChart.TotalEventsCoversRow | frontend/src/components/UsageChart.js:80 | every day's count is at most the total |
| UsageChart.TotalCostBounds | frontend/src/components/UsageChart.js:86 | the total cost lies between 0 and the days times the largest cost |
| TopModelsChart.BarColor | frontend/src/components/TopModelsChart.js:15-24 | the lower-cased provider's colour, or the fallback's colour |
| TopModelsChart.BadgeColor | frontend/src/components/TopModelsChart.js:26-35 | the lower-cased provider's badge colour, or the fallback's |
| TopModelsChart.ColorsAgreeOnFallback | frontend/src/components/TopModelsChart.js:15-35 | the bar falls back to grey exactly when the badge does |
| TopModelsChart.HasData | frontend/src/components/TopModelsChart.js:5-11 | the chart is drawn only for present, non-empty data (no contract) |
| TopModelsChart.Chart | frontend/src/components/TopModelsChart.js:39-77 | one bar per row, ranked from 1 in order, each with its provider's bar and badge colours |
| TopModelsChart.ChartFacts | frontend/src/components/TopModelsChart.js:67-68 | widths lie in 0..100, the busiest model reaches 100, a smaller count never has a wider bar, and the 8px minimum applies exactly to positive counts |
| TopModelsChart.ChartShare | frontend/src/components/TopModelsChart.js:67 | with a positive largest count each width is its count's share of it, in percent |
| TopModelsChart.TotalEvents | frontend/src/components/TopModelsChart.js:84 | the summed counts (no contract; `TopModelsChart.TotalsAppend` relates them) |
| TopModelsChart.TotalCost | frontend/src/components/TopModelsChart.js:90 | the summed costs, missing as 0 (no contract; `TopModelsChart.TotalsAppend` relates them) |
| TopModelsChart.TotalsAppend | frontend/src/components/TopModelsChart.js:84-90 | the summary totals add up over concatenated rows |
| LiveFeed.FormatTime | frontend/src/components/LiveFeed.js:35-47 | "just now" under a minute, minutes under an hour, hours under a day, days beyond; each count is the floor of the elapsed time in its unit |
| LiveFeed.FormatTimeMonotone | frontend/src/components/LiveFeed.js:35-47 | an older event never shows a younger age |
| LiveFeed.ProviderColor | frontend/src/components/LiveFeed.js:49-58 | always a colour of the table; a known lower-cased provider gets its entry, an unknown one the fallback |
| LiveFeed.ProviderColorIgnoresCase | frontend/src/components/LiveFeed.js:57 | the colour does not depend on letter case |
| LiveFeed.ProviderColorOfBackend | frontend/src/components/LiveFeed.js:49-58 | every provider the backend stores has its own table entry |
| LiveFeed.EventTypeColor | frontend/src/components/LiveFeed.js:60-69 | the table's entry for a known event type, otherwise the fallback |
| LiveFeed.EventTypeColorOfBackend | frontend/src/components/LiveFeed.js:60-69 | every backend event type has an entry; a capitalised name is not found |
| LiveFeed.EventTypeLabel | frontend/src/components/LiveFeed.js:197 | same length; the first underscore becomes a space and every other character is kept; a name without an underscore is shown as is |
| LiveFeed.LabelOfSingleUnderscore | frontend/src/components/LiveFeed.js:197 | a name with exactly one underscore is shown without underscores |
| LiveFeed.EventTypeLabelExample | frontend/src/components/LiveFeed.js:197 | only the first underscore is replaced: "a_b_c" shows as "a b_c" |
| LiveFeed.ShowLoadMore | frontend/src/components/LiveFeed.js:294 | "Load More Events" is offered exactly when a full page of 100 is shown (no contract) |
| LiveFeed.LoadMoreLimit | frontend/src/components/LiveFeed.js:298 | "load more" asks for more events than are shown |
| LiveFeed.LoadMoreAgainstBackend | frontend/src/components/LiveFeed.js:294-298 | from more than 900 shown events "load more" is rejected by the backend; from 100..900 it is accepted when the provider filter is |
| LiveFeed.Controls.constructor | frontend/src/components/LiveFeed.js:20-21 | auto-refresh off, last refresh now, no refreshes |
| LiveFeed.Controls.Badge | frontend/src/components/LiveFeed.js:96 | "Live" exactly when auto-refresh is on, "Paused" exactly when it is off |
| LiveFeed.Controls.Toggle | frontend/src/components/LiveFeed.js:108 | auto-refresh flips; nothing else changes |
| LiveFeed.Controls.ManualRefresh | frontend/src/components/LiveFeed.js:71-74 | one refresh with the default limit is recorded and the time is updated |
| LiveFeed.Controls.LoadMore | frontend/src/components/LiveFeed.js:298 | one refresh with the shown count plus a page is recorded |
| LiveFeed.RefreshLimit | frontend/src/App.js:57 | a refresh without a limit fetches the default 100 |

## Left out

- Storage and transport: MongoDB, S3, FastAPI routing, CORS, axios and toasts are left out. The
  store is a sequence of events, and each HTTP response is a parameter.
- Authentication: `get_current_user` and the mock bearer token are left out. Every request is
  treated as authorised.
- Regular expressions and SHA-256 are not modelled. Each is a function in a `Library` value.
  Only the empty-input rules and the order of the four substitutions are modelled.
- Events.RedactPii: does not state what each placeholder replaces. Redaction is stated only
  through the uninterpreted substitution functions.
- The batch endpoint, the demo-data generator's random events, health checks and the
  export/compliance routes are not part of this model. They are outside the core.
- Mongo's `$group` output order and its tie order under `$sort` are unspecified. The model fixes
  both: first occurrence, then a stable sort.
- In the listing, `sort` applies before `skip` and `limit`, as MongoDB does for a find cursor.
- Dates are day numbers. The `%Y-%m-%d` formatting and `Date` parsing are left out.
- Floating point: costs are exact `real`s. Rounding, `toFixed`, `toLocaleString` and the time of
  day shown are left out.
- JavaScript `toLowerCase` is modelled on ASCII letters only.
- Object lookups ignore inherited prototype keys (such as "constructor").
- LiveFeed.Controls: the 10-second auto-refresh timer is not modelled. Toggling only flips the flag.
- App.Dashboard: concurrent requests and their interleaving are not modelled. Each method handles
  its own response at once, and `App.LastArrivalWins` states what any arrival order yields.
- React rendering, stale closures and the component tree are left out. The effects are modelled
  as the request list a filter change produces.
- Presentational components (Header, Sidebar, StatsCard, RecentEvents, EventDetail, Dashboard
  layout) are not part of this model.
