/**
 * The JSON shapes the dashboard receives, as the browser sees them: provider and
 * event type are plain strings, dates are already formatted, and any field the
 * components read through optional chaining (`analytics?.top_models`) or a
 * `|| 0` fallback may be missing.
 */
module Wire {
  import opened Wrappers
  import Events

  datatype ModelRow = ModelRow(provider: string, model: string, count: int, cost: Option<real>)
  datatype UserRow = UserRow(user_id: string, count: int, cost: Option<real>)
  datatype ServiceRow = ServiceRow(service: string, count: int, cost: Option<real>)
  datatype DayRow = DayRow(date: string, count: int, cost: Option<real>)

  datatype AnalyticsData = AnalyticsData(
    total_events: int,
    total_cost: real,
    events_last_24h: int,
    cost_last_24h: real,
    top_models: Option<seq<ModelRow>>,
    top_users: Option<seq<UserRow>>,
    top_services: Option<seq<ServiceRow>>,
    usage_over_time: Option<seq<DayRow>>)

  datatype EventRow = EventRow(
    id: string,
    timestamp: int,
    provider: string,
    model: string,
    event_type: string,
    user_id: string,
    service: string,
    total_tokens: Option<int>,
    cost_usd: Option<real>,
    has_pii: bool,
    redacted_prompt: Option<string>)

  /** An event as the listing endpoint serialises it. */
  function EventRowOf(e: Events.UsageEvent): (r: EventRow)
    ensures r.id == e.id && r.timestamp == e.timestamp
    ensures Events.ParseProvider(r.provider) == Some(e.provider)
  {
    EventRow(e.id, e.timestamp, Events.ProviderName(e.provider), e.model,
             Events.EventTypeName(e.event_type), e.user_id, e.service,
             e.total_tokens, e.cost_usd, e.has_pii, e.redacted_prompt)
  }

  /** `cost || 0`: a missing cost (and a zero one) reads as 0. */
  function CostOrZero(c: Option<real>): real { c.GetOr(0.0) }
}
