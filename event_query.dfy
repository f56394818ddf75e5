/**
 * Listing stored events: parameter validation, the filter document the server
 * builds one key at a time, what that document selects, and the page returned
 * (newest first, after `offset` events, at most `limit` of them).
 */
module EventQuery {
  import opened Wrappers
  import opened Sorting
  import opened Events

  /** Request validation failed (HTTP 422). */
  datatype ApiError = Unprocessable

  /** A selector in the filter document: equality on a text field, or a time range. */
  datatype Criterion = Equals(text: string) | Within(gte: Option<int>, lte: Option<int>)

  type Query = map<string, Criterion>

  /** The validated query parameters of the listing endpoint. */
  datatype ListParams = ListParams(
    limit: int,
    offset: int,
    provider: Option<Provider>,
    model: Option<string>,
    user_id: Option<string>,
    service: Option<string>,
    start_date: Option<int>,
    end_date: Option<int>)

  /** The query parameters as they arrive; absent ones take the defaults 100 and 0. */
  datatype ListRequest = ListRequest(
    limit: Option<int>,
    offset: Option<int>,
    provider: Option<string>,
    model: Option<string>,
    user_id: Option<string>,
    service: Option<string>,
    start_date: Option<int>,
    end_date: Option<int>)

  const DefaultLimit: int := 100
  const MaxLimit: int := 1000

  /** `limit` in 1..1000, `offset` at least 0, `provider` one of the enumeration's values. */
  function ValidateListing(req: ListRequest): (r: Result<ListParams, ApiError>)
    ensures r.Success? <==>
              && 1 <= req.limit.GetOr(DefaultLimit) <= MaxLimit
              && 0 <= req.offset.GetOr(0)
              && (req.provider.Some? ==> ParseProvider(req.provider.value).Some?)
    ensures r.Success? ==> 1 <= r.value.limit <= MaxLimit && 0 <= r.value.offset
  {
    var limit := req.limit.GetOr(DefaultLimit);
    var offset := req.offset.GetOr(0);
    if !(1 <= limit <= MaxLimit) || offset < 0 then Failure(Unprocessable)
    else if req.provider.Some? && ParseProvider(req.provider.value).None? then Failure(Unprocessable)
    else
      var provider := if req.provider.Some? then ParseProvider(req.provider.value) else None;
      Success(ListParams(limit, offset, provider, req.model, req.user_id, req.service, req.start_date, req.end_date))
  }

  /** What the parameters ask for, stated field by field. */
  ghost predicate Admits(p: ListParams, e: UsageEvent) {
    && (p.provider.Some? ==> e.provider == p.provider.value)
    && (PresentText(p.model) ==> e.model == p.model.value)
    && (PresentText(p.user_id) ==> e.user_id == p.user_id.value)
    && (PresentText(p.service) ==> e.service == p.service.value)
    && (p.start_date.Some? ==> p.start_date.value <= e.timestamp)
    && (p.end_date.Some? ==> e.timestamp <= p.end_date.value)
  }

  datatype FieldValue = Text(s: string) | Instant(t: int)

  function FieldOf(e: UsageEvent, name: string): Option<FieldValue> {
    if name == "provider" then Some(Text(ProviderName(e.provider)))
    else if name == "model" then Some(Text(e.model))
    else if name == "user_id" then Some(Text(e.user_id))
    else if name == "service" then Some(Text(e.service))
    else if name == "timestamp" then Some(Instant(e.timestamp))
    else None
  }

  predicate Satisfies(v: Option<FieldValue>, c: Criterion) {
    match (v, c)
    case (Some(Text(s)), Equals(t)) => s == t
    case (Some(Instant(t)), Within(lo, hi)) => (lo.Some? ==> lo.value <= t) && (hi.Some? ==> t <= hi.value)
    case _ => false
  }

  /** A document matches when every selector in the filter holds of it. */
  predicate Matches(e: UsageEvent, q: Query) {
    forall name :: name in q ==> Satisfies(FieldOf(e, name), q[name])
  }

  lemma MatchesKeyByKey(e: UsageEvent, q: Query)
    requires q.Keys <= {"provider", "model", "user_id", "service", "timestamp"}
    ensures Matches(e, q) <==>
              && ("provider" in q ==> Satisfies(FieldOf(e, "provider"), q["provider"]))
              && ("model" in q ==> Satisfies(FieldOf(e, "model"), q["model"]))
              && ("user_id" in q ==> Satisfies(FieldOf(e, "user_id"), q["user_id"]))
              && ("service" in q ==> Satisfies(FieldOf(e, "service"), q["service"]))
              && ("timestamp" in q ==> Satisfies(FieldOf(e, "timestamp"), q["timestamp"]))
  {
  }

  lemma ProviderNameInjective(a: Provider, b: Provider)
    ensures ProviderName(a) == ProviderName(b) ==> a == b
  {
  }

  /**
   * The filter document, built as the server builds it. A key is present exactly
   * when its parameter was given (a text parameter only when non-empty), and the
   * document selects exactly the events the parameters ask for.
   */
  method BuildQuery(p: ListParams) returns (q: Query)
    ensures "provider" in q <==> p.provider.Some?
    ensures p.provider.Some? ==> q["provider"] == Equals(ProviderName(p.provider.value))
    ensures "model" in q <==> PresentText(p.model)
    ensures PresentText(p.model) ==> q["model"] == Equals(p.model.value)
    ensures "user_id" in q <==> PresentText(p.user_id)
    ensures PresentText(p.user_id) ==> q["user_id"] == Equals(p.user_id.value)
    ensures "service" in q <==> PresentText(p.service)
    ensures PresentText(p.service) ==> q["service"] == Equals(p.service.value)
    ensures "timestamp" in q <==> p.start_date.Some? || p.end_date.Some?
    ensures "timestamp" in q ==> q["timestamp"] == Within(p.start_date, p.end_date)
    ensures q.Keys <= {"provider", "model", "user_id", "service", "timestamp"}
    ensures forall e :: Matches(e, q) <==> Admits(p, e)
  {
    q := map[];
    if p.provider.Some? {
      q := q["provider" := Equals(ProviderName(p.provider.value))];
    }
    if PresentText(p.model) {
      q := q["model" := Equals(p.model.value)];
    }
    if PresentText(p.user_id) {
      q := q["user_id" := Equals(p.user_id.value)];
    }
    if PresentText(p.service) {
      q := q["service" := Equals(p.service.value)];
    }
    if p.start_date.Some? || p.end_date.Some? {
      var range := Within(None, None);
      if p.start_date.Some? {
        range := range.(gte := p.start_date);
      }
      if p.end_date.Some? {
        range := range.(lte := p.end_date);
      }
      q := q["timestamp" := range];
    }
    KeysSelectAdmitted(p, q);
  }

  /** A document with exactly the keys the parameters give selects exactly the events they admit. */
  lemma KeysSelectAdmitted(p: ListParams, q: Query)
    requires "provider" in q <==> p.provider.Some?
    requires p.provider.Some? ==> q["provider"] == Equals(ProviderName(p.provider.value))
    requires "model" in q <==> PresentText(p.model)
    requires PresentText(p.model) ==> q["model"] == Equals(p.model.value)
    requires "user_id" in q <==> PresentText(p.user_id)
    requires PresentText(p.user_id) ==> q["user_id"] == Equals(p.user_id.value)
    requires "service" in q <==> PresentText(p.service)
    requires PresentText(p.service) ==> q["service"] == Equals(p.service.value)
    requires "timestamp" in q <==> p.start_date.Some? || p.end_date.Some?
    requires "timestamp" in q ==> q["timestamp"] == Within(p.start_date, p.end_date)
    requires q.Keys <= {"provider", "model", "user_id", "service", "timestamp"}
    ensures forall e :: Matches(e, q) <==> Admits(p, e)
  {
    forall e ensures Matches(e, q) <==> Admits(p, e) {
      MatchesKeyByKey(e, q);
      if p.provider.Some? {
        assert Satisfies(FieldOf(e, "provider"), q["provider"]) <==> e.provider == p.provider.value by {
          ProviderNameInjective(e.provider, p.provider.value);
        }
      }
    }
  }

  function Select(store: seq<UsageEvent>, q: Query): (r: seq<UsageEvent>)
    ensures |r| <= |store|
    ensures forall e :: e in r <==> e in store && Matches(e, q)
  {
    if store == [] then []
    else (if Matches(store[0], q) then [store[0]] else []) + Select(store[1..], q)
  }

  function TimestampRank(e: UsageEvent): int { e.timestamp }

  /**
   * `find(query).skip(offset).limit(limit).sort("timestamp", -1)`: the sort applies
   * first. A page is short of the limit only when the matches run out.
   */
  function Page(store: seq<UsageEvent>, q: Query, offset: nat, limit: nat): (page: seq<UsageEvent>)
    ensures |page| <= limit
    ensures |page| == limit || offset + |page| >= |Select(store, q)|
  {
    Take(Drop(SortDesc(Select(store, q), TimestampRank), offset), limit)
  }

  /** The listing endpoint over an in-memory store. */
  method GetUsageEvents(store: seq<UsageEvent>, req: ListRequest) returns (r: Result<seq<UsageEvent>, ApiError>)
    ensures r.Failure? <==> ValidateListing(req).Failure?
    ensures r.Success? ==>
              var p := ValidateListing(req).value;
              && |r.value| <= p.limit
              && (forall i, j :: 0 <= i < j < |r.value| ==> r.value[i].timestamp >= r.value[j].timestamp)
              && (forall e :: e in r.value ==> e in store && Admits(p, e))
              && exists q: Query :: (forall e :: Matches(e, q) <==> Admits(p, e)) && r.value == Page(store, q, p.offset, p.limit)
  {
    var v := ValidateListing(req);
    if v.Failure? {
      return Failure(Unprocessable);
    }
    var p := v.value;
    var q := BuildQuery(p);
    var page := Page(store, q, p.offset, p.limit);
    PageProperties(store, q, p.offset, p.limit);
    return Success(page);
  }

  /** A page is no longer than the limit, newest first, and holds only stored events that match. */
  lemma PageProperties(store: seq<UsageEvent>, q: Query, offset: nat, limit: nat)
    ensures var page := Page(store, q, offset, limit);
      && |page| <= limit
      && (forall i, j :: 0 <= i < j < |page| ==> page[i].timestamp >= page[j].timestamp)
      && (forall e :: e in page ==> e in store && Matches(e, q))
  {
    var sorted := SortDesc(Select(store, q), TimestampRank);
    var rest := Drop(sorted, offset);
    var page := Take(rest, limit);
    forall i, j | 0 <= i < j < |page| ensures page[i].timestamp >= page[j].timestamp {
      assert page[i] == sorted[offset + i] && page[j] == sorted[offset + j];
      assert TimestampRank(sorted[offset + i]) >= TimestampRank(sorted[offset + j]);
    }
    forall e | e in page ensures e in store && Matches(e, q) {
      var i :| 0 <= i < |page| && page[i] == e;
      assert e == sorted[offset + i];
      assert e in multiset(sorted);
    }
  }
}
