/**
 * The server's event records and how an incoming event is enriched before it is
 * stored: PII detection and redaction of the prompt, content hashes, the S3
 * reference and the fallback cost estimate.
 *
 * Regular-expression matching and SHA-256 are library calls; they are the
 * fields of a `Library` value passed in, so that only what the server itself
 * decides (the empty-input rules, the order of the steps, which result is kept)
 * is modelled.
 */
module Events {
  import opened Wrappers

  datatype Provider = OpenAI | Anthropic | Google | Cohere | OtherProvider

  function ProviderName(p: Provider): string {
    match p
    case OpenAI => "openai"
    case Anthropic => "anthropic"
    case Google => "google"
    case Cohere => "cohere"
    case OtherProvider => "other"
  }

  /** Validation of a provider value against the `AIProvider` enumeration. */
  function ParseProvider(s: string): (r: Option<Provider>)
    ensures r.Some? ==> ProviderName(r.value) == s
    ensures forall p :: ProviderName(p) == s ==> r == Some(p)
  {
    if s == "openai" then Some(OpenAI)
    else if s == "anthropic" then Some(Anthropic)
    else if s == "google" then Some(Google)
    else if s == "cohere" then Some(Cohere)
    else if s == "other" then Some(OtherProvider)
    else None
  }

  datatype EventType = TextGeneration | ImageGeneration | Embedding | FineTuning | OtherEventType

  function EventTypeName(t: EventType): string {
    match t
    case TextGeneration => "text_generation"
    case ImageGeneration => "image_generation"
    case Embedding => "embedding"
    case FineTuning => "fine_tuning"
    case OtherEventType => "other"
  }

  /** The body of a create request. */
  datatype UsageEventCreate = UsageEventCreate(
    provider: Provider,
    model: string,
    event_type: EventType,
    user_id: string,
    service: string,
    prompt_tokens: Option<int>,
    completion_tokens: Option<int>,
    total_tokens: Option<int>,
    cost_usd: Option<real>,
    prompt: Option<string>,
    response: Option<string>,
    metadata: map<string, string>)

  /** A stored usage event; `timestamp` is in milliseconds since the epoch. */
  datatype UsageEvent = UsageEvent(
    id: string,
    timestamp: int,
    provider: Provider,
    model: string,
    event_type: EventType,
    user_id: string,
    service: string,
    prompt_tokens: Option<int>,
    completion_tokens: Option<int>,
    total_tokens: Option<int>,
    cost_usd: Option<real>,
    prompt_hash: Option<string>,
    response_hash: Option<string>,
    metadata: map<string, string>,
    has_pii: bool,
    redacted_prompt: Option<string>,
    s3_key: Option<string>)

  /** The four PII patterns, in the order the server tries them. */
  datatype PiiPattern = Ssn | Email | CreditCard | Phone

  const PiiPatterns: seq<PiiPattern> := [Ssn, Email, CreditCard, Phone]

  function Placeholder(p: PiiPattern): string {
    match p
    case Ssn => "[REDACTED-SSN]"
    case Email => "[REDACTED-EMAIL]"
    case CreditCard => "[REDACTED-CARD]"
    case Phone => "[REDACTED-PHONE]"
  }

  /**
   * The library calls: `re.search(pattern, text)`, `re.sub(pattern, placeholder, text)`
   * and `hashlib.sha256(text.encode()).hexdigest()`.
   */
  datatype Library = Library(
    search: (PiiPattern, string) -> bool,
    substitute: (PiiPattern, string, string) -> string,
    sha256Hex: string -> string)

  /** A substitution leaves a text alone when its pattern does not occur in it. */
  ghost predicate SubstitutionIsConservative(lib: Library) {
    forall p, placeholder, t :: !lib.search(p, t) ==> lib.substitute(p, placeholder, t) == t
  }

  ghost predicate HasPii(lib: Library, text: string) {
    text != "" && exists k :: 0 <= k < |PiiPatterns| && lib.search(PiiPatterns[k], text)
  }

  /** `detect_pii`: true as soon as one pattern matches; an empty text has none. */
  method DetectPii(lib: Library, text: string) returns (found: bool)
    ensures found <==> HasPii(lib, text)
    ensures text == "" ==> !found
  {
    if text == "" {
      return false;
    }
    for k := 0 to |PiiPatterns|
      invariant forall j :: 0 <= j < k ==> !lib.search(PiiPatterns[j], text)
    {
      if lib.search(PiiPatterns[k], text) {
        return true;
      }
    }
    return false;
  }

  /** The text after substituting, in order, each of `patterns` by its placeholder. */
  function SubstituteAll(lib: Library, patterns: seq<PiiPattern>, text: string): string {
    if patterns == [] then text
    else
      var p := patterns[|patterns| - 1];
      lib.substitute(p, Placeholder(p), SubstituteAll(lib, patterns[..|patterns| - 1], text))
  }

  ghost function Redaction(lib: Library, text: string): string {
    if text == "" then text else SubstituteAll(lib, PiiPatterns, text)
  }

  /** `redact_pii`: the four substitutions applied one after the other; an empty text is returned as is. */
  method RedactPii(lib: Library, text: string) returns (redacted: string)
    ensures redacted == Redaction(lib, text)
    ensures text == "" ==> redacted == text
  {
    if text == "" {
      return text;
    }
    redacted := text;
    for k := 0 to |PiiPatterns|
      invariant redacted == SubstituteAll(lib, PiiPatterns[..k], text)
    {
      var p := PiiPatterns[k];
      assert PiiPatterns[..k + 1][..k] == PiiPatterns[..k];
      redacted := lib.substitute(p, Placeholder(p), redacted);
    }
    assert PiiPatterns[..|PiiPatterns|] == PiiPatterns;
  }

  lemma {:induction false} SubstituteAllWithoutMatches(lib: Library, patterns: seq<PiiPattern>, text: string)
    requires SubstitutionIsConservative(lib)
    requires forall k :: 0 <= k < |patterns| ==> !lib.search(patterns[k], text)
    ensures SubstituteAll(lib, patterns, text) == text
  {
    if patterns != [] {
      SubstituteAllWithoutMatches(lib, patterns[..|patterns| - 1], text);
    }
  }

  /**
   * When no pattern is found, redaction returns the text unchanged, so keeping
   * the prompt verbatim in that case agrees with redacting it.
   */
  lemma RedactionWithoutPiiIsIdentity(lib: Library, text: string)
    requires SubstitutionIsConservative(lib)
    requires !HasPii(lib, text)
    ensures Redaction(lib, text) == text
  {
    if text != "" {
      SubstituteAllWithoutMatches(lib, PiiPatterns, text);
    }
  }

  /** `calculate_hash`: no hash for an empty text. */
  function CalculateHash(lib: Library, text: string): (h: Option<string>)
    ensures h.None? <==> text == ""
    ensures h.Some? ==> h.value == lib.sha256Hex(text)
  {
    if text == "" then None else Some(lib.sha256Hex(text))
  }

  /** $0.02 per thousand tokens. */
  const CostPerToken: real := 0.00002

  /** Python truthiness of an optional string or number. */
  predicate PresentText(s: Option<string>) { s.Some? && s.value != "" }
  predicate PresentCount(n: Option<int>) { n.Some? && n.value != 0 }

  /** `prompts/{id}.txt`: the id can be read back out of the key. */
  function S3KeyFor(id: string): (key: string)
    ensures |key| == |id| + 12 && key[..8] == "prompts/" && key[|key| - 4..] == ".txt"
    ensures key[8..|key| - 4] == id
  {
    "prompts/" + id + ".txt"
  }

  /**
   * `process_usage_event`. The generated id and the current time are parameters;
   * `stored` is whether an S3 client is configured and the upload succeeded.
   */
  method ProcessUsageEvent(data: UsageEventCreate, id: string, now: int, stored: bool, lib: Library)
    returns (event: UsageEvent)
    ensures event.id == id && event.timestamp == now
    ensures event.provider == data.provider && event.model == data.model
    ensures event.event_type == data.event_type && event.user_id == data.user_id
    ensures event.service == data.service && event.metadata == data.metadata
    ensures event.prompt_tokens == data.prompt_tokens && event.completion_tokens == data.completion_tokens
    ensures event.total_tokens == data.total_tokens
    // the prompt: PII flag, redacted or verbatim copy, hash and S3 key
    ensures PresentText(data.prompt) ==>
              var prompt := data.prompt.value;
              && event.has_pii == HasPii(lib, prompt)
              && event.redacted_prompt == Some(if event.has_pii then Redaction(lib, prompt) else prompt)
              && event.prompt_hash == Some(lib.sha256Hex(prompt))
              && event.s3_key == (if stored then Some(S3KeyFor(id)) else None)
    ensures !PresentText(data.prompt) ==>
              !event.has_pii && event.redacted_prompt.None? && event.prompt_hash.None? && event.s3_key.None?
    ensures event.response_hash == (if PresentText(data.response) then Some(lib.sha256Hex(data.response.value)) else None)
    // the cost: a supplied cost is kept, otherwise it is estimated from a non-zero token count
    ensures data.cost_usd.Some? ==> event.cost_usd == data.cost_usd
    ensures data.cost_usd.None? && PresentCount(data.total_tokens) ==>
              event.cost_usd == Some(data.total_tokens.value as real * CostPerToken)
    ensures data.cost_usd.None? && !PresentCount(data.total_tokens) ==> event.cost_usd.None?
  {
    event := UsageEvent(id, now, data.provider, data.model, data.event_type, data.user_id, data.service,
                        data.prompt_tokens, data.completion_tokens, data.total_tokens, data.cost_usd,
                        None, None, data.metadata, false, None, None);
    if PresentText(data.prompt) {
      var prompt := data.prompt.value;
      var found := DetectPii(lib, prompt);
      event := event.(has_pii := found);
      if event.has_pii {
        var redacted := RedactPii(lib, prompt);
        event := event.(redacted_prompt := Some(redacted));
      } else {
        event := event.(redacted_prompt := Some(prompt));
      }
      event := event.(prompt_hash := CalculateHash(lib, prompt));
      if stored {
        event := event.(s3_key := Some(S3KeyFor(id)));
      }
    }
    if PresentText(data.response) {
      event := event.(response_hash := CalculateHash(lib, data.response.value));
    }
    if event.cost_usd.None? && PresentCount(event.total_tokens) {
      event := event.(cost_usd := Some(event.total_tokens.value as real * CostPerToken));
    }
  }
}
