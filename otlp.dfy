// The OTLP/HTTP exporter's wire format: the traces URL, the typed attribute
// list, one OTLP span per `SpanData` and the `resourceSpans` envelope. The
// buffering shared with the other network exporters lives in `Batching`.

module Otlp {
  import opened Common
  import opened SpanRecords
  import opened Http

  const TracesPath: string := "/v1/traces"

  /** The endpoint loses one trailing '/' and gains "/v1/traces" unless it
      already contains that path somewhere. */
  function TracesUrl(endpoint: string): (url: string)
    ensures Contains(url, TracesPath)
    ensures url == StripTrailingSlash(endpoint) || url == StripTrailingSlash(endpoint) + TracesPath
  {
    var url := StripTrailingSlash(endpoint);
    if Contains(url, TracesPath) then url
    else
      ContainsOwnSuffix(url, TracesPath);
      url + TracesPath
  }

  /** An endpoint that already names the traces path is used unchanged. */
  lemma TracesUrlKeepsFullEndpoint(endpoint: string)
    requires EndsWith(endpoint, TracesPath)
    ensures TracesUrl(endpoint) == endpoint
  {
    var base := endpoint[..|endpoint| - |TracesPath|];
    assert endpoint == base + TracesPath;
    assert endpoint[|endpoint| - 1] == 's';
    StripTrailingSlashKeeps(endpoint);
    ContainsOwnSuffix(base, TracesPath);
  }

  /** A bare collector address gets the traces path appended. */
  lemma TracesUrlAppendsPath(endpoint: string)
    requires !Contains(endpoint, "/") && |endpoint| > 0 && !IsLineTerminator(endpoint[|endpoint| - 1])
    ensures TracesUrl(endpoint) == endpoint + TracesPath
  {
    assert !EndsWith(endpoint, "/");
    StripTrailingSlashKeeps(endpoint);
    if Contains(endpoint, TracesPath) {
      ContainsPrefixOfMatch(endpoint, TracesPath, "/");
    }
  }

  /** A string that contains `sub` contains every prefix of `sub`. */
  lemma {:induction false} ContainsPrefixOfMatch(s: string, sub: string, pre: string)
    requires Contains(s, sub) && pre <= sub
    ensures Contains(s, pre)
    decreases |s|
  {
    if sub <= s {
      assert pre <= s;
    } else {
      ContainsPrefixOfMatch(s[1..], sub, pre);
    }
  }

  // ---------------------------------------------------------------------
  // Attributes
  // ---------------------------------------------------------------------

  /** An OTLP `AnyValue`; integers travel as decimal strings. No attribute the
      exporter adds is a `Double`, so `doubleValue` never occurs. */
  datatype AnyValue = StringValue(s: string) | IntValue(digits: string)

  /** The attribute keys the exporter writes; `KeyName` gives each its wire text. */
  datatype AttrKey =
    | SpanTypeKey | WorkflowKey | ModelNameKey | ModelProviderKey
    | InputTokensKey | OutputTokensKey | TotalTokensKey
    | EmbeddingModelKey | VectorStoreKey | DocumentsKey
    | ToolNameKey | AgentNameKey | AgentTypeKey
    | ErrorMessageKey | ErrorTypeKey
    | ServiceNameKey | SdkNameKey | SdkLanguageKey

  function KeyName(k: AttrKey): string
  {
    match k
    case SpanTypeKey => "gen_ai.span_type"
    case WorkflowKey => "gen_ai.workflow_name"
    case ModelNameKey => "gen_ai.model.name"
    case ModelProviderKey => "gen_ai.model.provider"
    case InputTokensKey => "gen_ai.usage.input_tokens"
    case OutputTokensKey => "gen_ai.usage.output_tokens"
    case TotalTokensKey => "gen_ai.usage.total_tokens"
    case EmbeddingModelKey => "gen_ai.embedding.model"
    case VectorStoreKey => "gen_ai.vector_store"
    case DocumentsKey => "gen_ai.documents_retrieved"
    case ToolNameKey => "gen_ai.tool.name"
    case AgentNameKey => "gen_ai.agent.name"
    case AgentTypeKey => "gen_ai.agent.type"
    case ErrorMessageKey => "error.message"
    case ErrorTypeKey => "error.type"
    case ServiceNameKey => "service.name"
    case SdkNameKey => "telemetry.sdk.name"
    case SdkLanguageKey => "telemetry.sdk.language"
  }

  datatype KeyValue = KeyValue(key: AttrKey, value: AnyValue)

  /** `addAttribute` on a `String` field: nothing for null. */
  function Text(key: AttrKey, v: Option<string>): Option<KeyValue>
  {
    if v.Some? then Some(KeyValue(key, StringValue(v.value))) else None
  }

  /** `addAttribute` on an `Integer` field: the decimal rendering, nothing for null. */
  function Number(key: AttrKey, v: Option<Int32>): Option<KeyValue>
  {
    if v.Some? then Some(KeyValue(key, IntValue(IntToString(v.value)))) else None
  }

  /** The attributes actually appended, in call order. */
  function Present(candidates: seq<Option<KeyValue>>): (r: seq<KeyValue>)
    ensures |r| <= |candidates|
  {
    if |candidates| == 0 then []
    else
      var rest := Present(candidates[1..]);
      if candidates[0].Some? then [candidates[0].value] + rest else rest
  }

  /** An attribute is appended exactly when it was offered. */
  lemma {:induction false} PresentHas(candidates: seq<Option<KeyValue>>, kv: KeyValue)
    ensures kv in Present(candidates) <==> Some(kv) in candidates
    decreases |candidates|
  {
    if |candidates| > 0 {
      PresentHas(candidates[1..], kv);
      assert candidates == [candidates[0]] + candidates[1..];
    }
  }

  /** The `addAttribute` call made for key `k`; the resource keys are not span attributes. */
  function Candidate(k: AttrKey, span: SpanData): (c: Option<KeyValue>)
    ensures c.Some? ==> c.value.key == k
  {
    match k
    case SpanTypeKey => Text(k, span.spanType)
    case WorkflowKey => Text(k, span.workflowName)
    case ModelNameKey => Text(k, span.modelName)
    case ModelProviderKey => Text(k, span.modelProvider)
    case InputTokensKey => Number(k, span.inputTokens)
    case OutputTokensKey => Number(k, span.outputTokens)
    case TotalTokensKey => Number(k, span.totalTokens)
    case EmbeddingModelKey => Text(k, span.embeddingModel)
    case VectorStoreKey => Text(k, span.vectorStore)
    case DocumentsKey => Number(k, span.documentsRetrieved)
    case ToolNameKey => Text(k, span.toolName)
    case AgentNameKey => Text(k, span.agentName)
    case AgentTypeKey => Text(k, span.agentType)
    case ErrorMessageKey => Text(k, span.errorMessage)
    case ErrorTypeKey => Text(k, span.errorType)
    case ServiceNameKey => None
    case SdkNameKey => None
    case SdkLanguageKey => None
  }

  /** The order of the `addAttribute` calls every span gets. */
  const NameOrder: seq<AttrKey> := [
    SpanTypeKey, WorkflowKey, ModelNameKey, ModelProviderKey,
    InputTokensKey, OutputTokensKey, TotalTokensKey,
    EmbeddingModelKey, VectorStoreKey, DocumentsKey,
    ToolNameKey, AgentNameKey, AgentTypeKey]

  /** The keys offered for a span: the error keys only for an error span. */
  function OfferedKeys(span: SpanData): seq<AttrKey>
  {
    NameOrder + (if span.isError == 1 then [ErrorMessageKey, ErrorTypeKey] else [])
  }

  function Candidates(span: SpanData): seq<Option<KeyValue>>
  {
    var keys := OfferedKeys(span);
    seq(|keys|, i requires 0 <= i < |keys| => Candidate(keys[i], span))
  }

  function Attributes(span: SpanData): (attrs: seq<KeyValue>)
  {
    Present(Candidates(span))
  }

  /** A span carries an attribute exactly when its key is offered for the
      span and the field behind the key is set to that value. */
  lemma AttributesByKey(span: SpanData, kv: KeyValue)
    ensures kv in Attributes(span) <==> kv.key in OfferedKeys(span) && Candidate(kv.key, span) == Some(kv)
  {
    var keys := OfferedKeys(span);
    PresentHas(Candidates(span), kv);
    if Some(kv) in Candidates(span) {
      var i :| 0 <= i < |keys| && Candidates(span)[i] == Some(kv);
      assert keys[i] == kv.key;
    }
    if kv.key in keys && Candidate(kv.key, span) == Some(kv) {
      var i :| 0 <= i < |keys| && keys[i] == kv.key;
      assert Candidates(span)[i] == Some(kv);
    }
  }

  /** The error message becomes an attribute exactly when the span is flagged
      as an error and carries a message. */
  lemma ErrorMessageAttribute(span: SpanData, msg: string)
    ensures (KeyValue(ErrorMessageKey, StringValue(msg)) in Attributes(span))
        <==> (span.isError == 1 && span.errorMessage == Some(msg))
  {
    AttributesByKey(span, KeyValue(ErrorMessageKey, StringValue(msg)));
    assert ErrorMessageKey !in NameOrder;
  }

  /** An integer field is sent as its decimal text, and a null one not at all. */
  lemma InputTokensAttribute(span: SpanData)
    ensures span.inputTokens.Some? ==>
      KeyValue(InputTokensKey, IntValue(IntToString(span.inputTokens.value))) in Attributes(span)
    ensures span.inputTokens.None? ==>
      forall v :: KeyValue(InputTokensKey, v) !in Attributes(span)
  {
    assert InputTokensKey == NameOrder[4];
    forall v {
      AttributesByKey(span, KeyValue(InputTokensKey, v));
    }
  }

  // ---------------------------------------------------------------------
  // Spans
  // ---------------------------------------------------------------------

  /** `(long) x` on a double: truncation toward zero. */
  function Truncate(x: real): (n: int)
    ensures 0.0 <= x ==> n as real <= x < n as real + 1.0
    ensures x < 0.0 ==> n as real - 1.0 < x <= n as real
  {
    if x >= 0.0 then x.Floor else -((-x).Floor)
  }

  /** One span in OTLP form; `parentSpanId` is absent unless the span has a parent. */
  datatype OtlpSpan = OtlpSpan(
    traceId: Option<string>,
    spanId: Option<string>,
    parentSpanId: Option<string>,
    name: Option<string>,
    kind: int,
    startTimeUnixNano: string,
    endTimeUnixNano: string,
    attributes: seq<KeyValue>,
    statusCode: int,
    statusMessage: string)

  const SPAN_KIND_INTERNAL: int := 1
  const STATUS_CODE_OK: int := 1
  const STATUS_CODE_ERROR: int := 2

  /**
   * `spanToOTLP`. `parse` is `Instant.parse(..).toEpochMilli()`, None when the
   * timestamp does not parse (the exception aborts the whole batch).
   */
  function SpanToOtlp(span: SpanData, parse: string -> Option<int>): (r: Result<OtlpSpan>)
    ensures r.Ok? <==> parse(span.timestamp).Some?
  {
    match parse(span.timestamp)
    case None => Fail(DateTimeParse)
    case Some(millis) =>
      Ok(OtlpSpan(span.traceId, span.spanId, span.parentSpanId, span.name,
                  SPAN_KIND_INTERNAL, IntToString(StartNanos(millis)), IntToString(EndNanos(millis, span.durationMs)),
                  Attributes(span),
                  if span.isError == 1 then STATUS_CODE_ERROR else STATUS_CODE_OK,
                  OrElse(span.errorMessage, "")))
  }

  /** The status code says ERROR exactly for spans flagged as errors, and the
      status message is the error message or empty. */
  lemma StatusFollowsErrorFlag(span: SpanData, parse: string -> Option<int>)
    requires parse(span.timestamp).Some?
    ensures SpanToOtlp(span, parse).value.statusCode == STATUS_CODE_ERROR <==> span.isError == 1
    ensures SpanToOtlp(span, parse).value.statusCode == STATUS_CODE_OK <==> span.isError != 1
    ensures span.errorMessage.None? ==> SpanToOtlp(span, parse).value.statusMessage == ""
  {
  }

  /** The start time in nanoseconds: the epoch milliseconds times 10^6. */
  function StartNanos(millis: int): int
  {
    millis * 1_000_000
  }

  /** The end time: the start plus the duration in nanoseconds, cast to `long`. */
  function EndNanos(millis: int, durationMs: real): int
  {
    StartNanos(millis) + Truncate(durationMs * 1_000_000.0)
  }

  /** A non-negative duration never ends before it starts. */
  lemma NanosInOrder(millis: int, durationMs: real)
    requires millis >= 0 && durationMs >= 0.0
    ensures 0 <= StartNanos(millis) <= EndNanos(millis, durationMs)
  {
    assert durationMs * 1_000_000.0 >= 0.0;
  }

  /** The end time is the start time plus the truncated duration, both in
      nanoseconds since the epoch; a non-negative duration never ends before
      it starts. */
  lemma EndNotBeforeStart(span: SpanData, parse: string -> Option<int>)
    requires parse(span.timestamp).Some? && parse(span.timestamp).value >= 0
    requires span.durationMs >= 0.0
    ensures var o := SpanToOtlp(span, parse).value;
      IsDecimal(o.startTimeUnixNano) && IsDecimal(o.endTimeUnixNano) &&
      DecimalValue(o.startTimeUnixNano) == parse(span.timestamp).value * 1_000_000 &&
      DecimalValue(o.startTimeUnixNano) <= DecimalValue(o.endTimeUnixNano)
  {
    var millis := parse(span.timestamp).value;
    var o := SpanToOtlp(span, parse).value;
    var start, end := StartNanos(millis), EndNanos(millis, span.durationMs);
    assert o.startTimeUnixNano == IntToString(start) && o.endTimeUnixNano == IntToString(end);
    NanosInOrder(millis, span.durationMs);
    NatToStringRoundTrip(start);
    NatToStringRoundTrip(end);
  }

  /** `spans.stream().map(this::spanToOTLP).toList()`: the first span whose
      timestamp does not parse aborts the conversion. */
  function SpansToOtlp(spans: seq<SpanData>, parse: string -> Option<int>): (r: Result<seq<OtlpSpan>>)
    ensures r.Ok? <==> forall i :: 0 <= i < |spans| ==> parse(spans[i].timestamp).Some?
    ensures r.Ok? ==> |r.value| == |spans|
    ensures r.Ok? ==> forall i :: 0 <= i < |spans| ==> SpanToOtlp(spans[i], parse) == Ok(r.value[i])
  {
    Traverse(spans, span => SpanToOtlp(span, parse))
  }

  // ---------------------------------------------------------------------
  // Envelope and outcome
  // ---------------------------------------------------------------------

  /** `resourceSpans[0]`: the resource attributes and the single scope. */
  datatype Payload = Payload(resource: seq<KeyValue>, scopeName: string, spans: seq<OtlpSpan>)

  /**
   * The request body. `Map.of` refuses a null value, so a null service name
   * makes the send fail before anything goes out.
   */
  function BuildPayload(serviceName: Option<string>, spans: seq<SpanData>, parse: string -> Option<int>): (r: Result<Payload>)
    ensures r.Ok? <==> serviceName.Some? && SpansToOtlp(spans, parse).Ok?
    ensures r.Ok? ==> r.value.spans == SpansToOtlp(spans, parse).value
    ensures r.Ok? ==> KeyValue(ServiceNameKey, StringValue(serviceName.value)) in r.value.resource
  {
    match SpansToOtlp(spans, parse)
    case Fail(e) => Fail(e)
    case Ok(otlpSpans) =>
      if serviceName.None? then Fail(NullPointer)
      else
        Ok(Payload([ KeyValue(ServiceNameKey, StringValue(serviceName.value)),
                     KeyValue(SdkNameKey, StringValue("genai-telemetry")),
                     KeyValue(SdkLanguageKey, StringValue("java")) ],
                   "genai-telemetry", otlpSpans))
  }

  /** A delivery counts as accepted only on HTTP 200. */
  predicate Accepted(reply: Reply)
  {
    StatusIs(reply, 200)
  }

  // ---------------------------------------------------------------------
  // Configuration
  // ---------------------------------------------------------------------

  datatype Config = Config(
    endpoint: string,
    headers: seq<Header>,
    serviceName: Option<string>,
    batchSize: int,
    flushIntervalMs: int)

  /** The constructor: the endpoint is normalised and null headers become none. */
  function NewConfig(endpoint: string, headers: Option<seq<Header>>, serviceName: Option<string>,
                     batchSize: int, flushIntervalMs: int): (c: Config)
    ensures Contains(c.endpoint, TracesPath)
    ensures headers.None? ==> c.headers == []
  {
    Config(TracesUrl(endpoint), if headers.Some? then headers.value else [], serviceName,
           batchSize, flushIntervalMs)
  }

  /** What `OTLPExporter.builder().build()` configures. */
  function DefaultConfig(): (c: Config)
    ensures c.serviceName == Some("genai-app") && c.batchSize == 10 && c.flushIntervalMs == 5000
    ensures c.headers == []
  {
    NewConfig("http://localhost:4318", Some([]), Some("genai-app"), 10, 5000)
  }
}
