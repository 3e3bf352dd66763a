// The Datadog exporter's wire format: hexadecimal ids folded into Java
// `long`s, the split of span fields into string `meta` and numeric
// `metrics`, and the one-trace payload sent to the trace intake.

module Datadog {
  import opened Common
  import opened SpanRecords
  import opened Http

  // ---------------------------------------------------------------------
  // `hexToLong`
  // ---------------------------------------------------------------------

  const TWO_TO_64: int := 0x1_0000_0000_0000_0000
  const TWO_TO_63: int := 0x8000_0000_0000_0000

  /** The digit value `Character.digit(c, 16)` gives an ASCII hex digit. */
  function HexDigit(c: char): Option<nat>
  {
    if '0' <= c <= '9' then Some(c as int - '0' as int)
    else if 'a' <= c <= 'f' then Some(c as int - 'a' as int + 10)
    else if 'A' <= c <= 'F' then Some(c as int - 'A' as int + 10)
    else None
  }

  predicate IsHex(s: string)
  {
    forall i :: 0 <= i < |s| ==> HexDigit(s[i]).Some?
  }

  function Pow16(k: nat): (p: nat)
    ensures p >= 1
  {
    if k == 0 then 1 else 16 * Pow16(k - 1)
  }

  /** The unsigned value of a string of hex digits, most significant first. */
  function HexValue(s: string): (v: nat)
    requires IsHex(s)
    ensures v < Pow16(|s|)
  {
    if |s| == 0 then 0
    else
      var d := HexDigit(s[|s| - 1]).value;
      assert d < 16;
      16 * HexValue(s[..|s| - 1]) + d
  }

  lemma IsHexConcat(a: string, b: string)
    requires IsHex(a) && IsHex(b)
    ensures IsHex(a + b)
  {
    forall i | 0 <= i < |a + b| ensures HexDigit((a + b)[i]).Some? {
      if i >= |a| { assert (a + b)[i] == b[i - |a|]; }
    }
  }

  /** Appending digits shifts the value left by four bits per digit. */
  lemma {:induction false} HexValueAppend(a: string, b: string)
    requires IsHex(a) && IsHex(b)
    ensures IsHex(a + b)
    ensures HexValue(a + b) == HexValue(a) * Pow16(|b|) + HexValue(b)
    decreases |b|
  {
    IsHexConcat(a, b);
    if |b| == 0 {
      assert a + b == a;
    } else {
      var b' := b[..|b| - 1];
      var d := HexDigit(b[|b| - 1]).value;
      assert IsHex(b');
      HexValueAppend(a, b');
      assert (a + b)[..|a + b| - 1] == a + b';
      assert (a + b)[|a + b| - 1] == b[|b| - 1];
      HexValueSnoc(a + b);
      HexValueSnoc(b);
      var x, y, p := HexValue(a), HexValue(b'), Pow16(|b'|);
      assert Pow16(|b|) == 16 * p;
      calc {
        HexValue(a + b);
        16 * HexValue(a + b') + d;
        16 * (x * p + y) + d;
        { Distribute(x, p, y, d); }
        x * (16 * p) + (16 * y + d);
        x * Pow16(|b|) + HexValue(b);
      }
    }
  }

  lemma HexValueSnoc(s: string)
    requires IsHex(s) && |s| > 0
    ensures HexValue(s) == 16 * HexValue(s[..|s| - 1]) + HexDigit(s[|s| - 1]).value
  {
  }

  lemma Distribute(x: int, p: int, y: int, d: int)
    ensures 16 * (x * p + y) + d == x * (16 * p) + (16 * y + d)
  {
  }

  lemma Pow16Is2To64()
    ensures Pow16(16) == TWO_TO_64
  {
    assert Pow16(4) == 0x1_0000;
    assert Pow16(8) == 0x1_0000 * Pow16(4) by { Pow16Add(4, 4); }
    assert Pow16(16) == Pow16(8) * Pow16(8) by { Pow16Add(8, 8); }
  }

  lemma {:induction false} Pow16Add(a: nat, b: nat)
    ensures Pow16(a + b) == Pow16(a) * Pow16(b)
    decreases b
  {
    if b > 0 {
      Pow16Add(a, b - 1);
      assert Pow16(a + b) == 16 * Pow16(a + b - 1);
    }
  }

  /** The last 16 characters, or the whole string when it is shorter. */
  function Last16(s: string): (t: string)
    ensures |t| <= 16 && EndsWith(s, t)
  {
    if |s| > 16 then s[|s| - 16..] else s
  }

  /**
   * `Long.parseUnsignedLong(t, 16)`: empty input and a leading '-' are
   * rejected, a leading '+' is accepted when digits follow, and every other
   * character must be a hex digit.
   */
  function ParseUnsignedHex(t: string): (r: Result<nat>)
    ensures r.Ok? ==> r.value < Pow16(|t|)
  {
    if |t| == 0 || t[0] == '-' then Fail(NumberFormat)
    else
      var digits := if t[0] == '+' then t[1..] else t;
      if |digits| == 0 || !IsHex(digits) then Fail(NumberFormat)
      else
        Pow16Monotone(|digits|, |t|);
        Ok(HexValue(digits))
  }

  lemma {:induction false} Pow16Monotone(a: nat, b: nat)
    requires a <= b
    ensures Pow16(a) <= Pow16(b)
    decreases b
  {
    if a < b {
      Pow16Monotone(a, b - 1);
    }
  }

  /** How a Java `long` holds an unsigned 64-bit value: two's complement. */
  function AsSignedLong(u: nat): (v: int)
    requires u < TWO_TO_64
    ensures -TWO_TO_63 <= v < TWO_TO_63
    ensures (v - u) % TWO_TO_64 == 0
  {
    if u >= TWO_TO_63 then u - TWO_TO_64 else u
  }

  /** `hexToLong`: a null id throws, like any string the parser rejects. */
  function HexToLong(id: Option<string>): (r: Result<int>)
    ensures r.Ok? ==> -TWO_TO_63 <= r.value < TWO_TO_63
  {
    if id.None? then Fail(NullPointer)
    else
      var t := Last16(id.value);
      match ParseUnsignedHex(t)
      case Fail(e) => Fail(e)
      case Ok(u) =>
        Pow16Is2To64();
        Pow16Monotone(|t|, 16);
        Ok(AsSignedLong(u))
  }

  /** A 32-digit trace id is worth `high * 2^64 + low`, where `high` and
      `low` are its two 16-digit halves. */
  lemma TraceIdHalves(id: string)
    requires |id| == 32 && IsHex(id)
    ensures IsHex(id[..16]) && IsHex(id[16..])
    ensures HexValue(id) == HexValue(id[..16]) * TWO_TO_64 + HexValue(id[16..])
    ensures HexValue(id[16..]) < TWO_TO_64
  {
    var high, low := id[..16], id[16..];
    assert id == high + low;
    assert IsHex(high) && IsHex(low);
    HexValueAppend(high, low);
    Pow16Is2To64();
  }

  /** A 32-digit trace id keeps only its low 64 bits: only the low half
      reaches the wire. */
  lemma TraceIdKeepsLow64Bits(id: string)
    requires |id| == 32 && IsHex(id)
    ensures IsHex(id[16..]) && HexValue(id[16..]) < TWO_TO_64 &&
            HexToLong(Some(id)) == Ok(AsSignedLong(HexValue(id[16..])))
  {
    var low := id[16..];
    assert IsHex(low);
    Pow16Is2To64();
    assert Last16(id) == low;
    assert low[0] != '-' && low[0] != '+' by {
      assert HexDigit(low[0]).Some?;
    }
  }

  /** Ids of the shape the SDK generates always convert. */
  lemma GeneratedIdsConvert(id: string)
    requires |id| > 0 && forall i :: 0 <= i < |id| ==> '0' <= id[i] <= '9' || 'a' <= id[i] <= 'f'
    ensures HexToLong(Some(id)).Ok?
  {
    var t := Last16(id);
    assert forall i :: 0 <= i < |t| ==> t[i] == id[|id| - |t| + i];
    assert IsHex(t);
  }

  /** An empty or signed-negative id makes the whole batch fail. */
  lemma BadIdsRejected(id: string)
    requires |id| == 0 || id[0] == '-'
    requires |id| <= 16
    ensures HexToLong(Some(id)).Fail?
  {
  }

  // ---------------------------------------------------------------------
  // `spanToDatadog`
  // ---------------------------------------------------------------------

  /** The tag names of `meta` and `metrics`; `KeyName` gives each its wire text. */
  datatype MetaKey =
    | SpanTypeTag | WorkflowTag | ModelNameTag | ModelProviderTag | EmbeddingModelTag
    | VectorStoreTag | ToolNameTag | AgentNameTag | AgentTypeTag | ErrorMessageTag | ErrorTypeTag

  function KeyName(k: MetaKey): string
  {
    match k
    case SpanTypeTag => "gen_ai.span_type"
    case WorkflowTag => "gen_ai.workflow_name"
    case ModelNameTag => "gen_ai.model.name"
    case ModelProviderTag => "gen_ai.model.provider"
    case EmbeddingModelTag => "gen_ai.embedding.model"
    case VectorStoreTag => "gen_ai.vector_store"
    case ToolNameTag => "gen_ai.tool.name"
    case AgentNameTag => "gen_ai.agent.name"
    case AgentTypeTag => "gen_ai.agent.type"
    case ErrorMessageTag => "error.message"
    case ErrorTypeTag => "error.type"
  }

  datatype MetricKey = InputTokens | OutputTokens | TotalTokens | DocumentsRetrieved

  function MetricName(k: MetricKey): string
  {
    match k
    case InputTokens => "gen_ai.usage.input_tokens"
    case OutputTokens => "gen_ai.usage.output_tokens"
    case TotalTokens => "gen_ai.usage.total_tokens"
    case DocumentsRetrieved => "gen_ai.documents_retrieved"
  }

  /** One Datadog span. `parent_id` is absent for a root span. */
  datatype DdSpan = DdSpan(
    traceId: int,
    spanId: int,
    parentId: Option<int>,
    name: string,
    resource: Option<string>,
    service: Option<string>,
    kind: string,
    start: int,
    duration: int,
    meta: map<MetaKey, string>,
    metrics: map<MetricKey, int>,
    error: int)

  /** `m.put(key, v)` when `v` is not null. */
  function PutIf<K, V>(m: map<K, V>, key: K, v: Option<V>): (r: map<K, V>)
    ensures key in r <==> key in m || v.Some?
    ensures forall k :: k in m && k != key ==> k in r && r[k] == m[k]
    ensures forall k :: k in r && k != key ==> k in m
    ensures v.Some? ==> r[key] == v.value
    ensures v.None? && key in m ==> r[key] == m[key]
  {
    if v.Some? then m[key := v.value] else m
  }

  /** The tag each name of a span is written under; the error tags are not names. */
  function NameOf(k: MetaKey, spanType: string, span: SpanData): Option<string>
  {
    match k
    case SpanTypeTag => Some(spanType)
    case WorkflowTag => span.workflowName
    case ModelNameTag => span.modelName
    case ModelProviderTag => span.modelProvider
    case EmbeddingModelTag => span.embeddingModel
    case VectorStoreTag => span.vectorStore
    case ToolNameTag => span.toolName
    case AgentNameTag => span.agentName
    case AgentTypeTag => span.agentType
    case ErrorMessageTag => None
    case ErrorTypeTag => None
  }

  const NameKeys: set<MetaKey> := {SpanTypeTag, WorkflowTag, ModelNameTag, ModelProviderTag,
    EmbeddingModelTag, VectorStoreTag, ToolNameTag, AgentNameTag, AgentTypeTag}

  /** The string tags every span gets: its type always, and each name that
      is set (one `put` per non-null name). */
  function NameTags(spanType: string, span: SpanData): (m: map<MetaKey, string>)
    ensures SpanTypeTag in m && m[SpanTypeTag] == spanType
    ensures ErrorMessageTag !in m && ErrorTypeTag !in m
    ensures WorkflowTag in m <==> span.workflowName.Some?
    ensures forall k :: k in m <==> NameOf(k, spanType, span).Some?
  {
    map k | k in NameKeys && NameOf(k, spanType, span).Some? :: NameOf(k, spanType, span).value
  }

  /** The string tags: the name tags, plus the error details only for a
      span flagged as an error. */
  function Meta(spanType: string, span: SpanData): (meta: map<MetaKey, string>)
    ensures SpanTypeTag in meta && meta[SpanTypeTag] == spanType
    ensures forall k :: k in NameKeys ==>
              (k in meta <==> NameOf(k, spanType, span).Some?) &&
              (k in meta ==> meta[k] == NameOf(k, spanType, span).value)
    ensures ErrorMessageTag in meta <==> span.isError == 1 && span.errorMessage.Some?
    ensures ErrorMessageTag in meta ==> meta[ErrorMessageTag] == span.errorMessage.value
    ensures ErrorTypeTag in meta <==> span.isError == 1 && span.errorType.Some?
    ensures ErrorTypeTag in meta ==> meta[ErrorTypeTag] == span.errorType.value
  {
    var m := NameTags(spanType, span);
    if span.isError == 1 then
      PutIf(PutIf(m, ErrorMessageTag, span.errorMessage), ErrorTypeTag, span.errorType)
    else m
  }

  /** The numeric measures: the token and document counts that are set. */
  function Metrics(span: SpanData): (metrics: map<MetricKey, int>)
    ensures InputTokens in metrics <==> span.inputTokens.Some?
    ensures OutputTokens in metrics <==> span.outputTokens.Some?
    ensures TotalTokens in metrics <==> span.totalTokens.Some?
    ensures DocumentsRetrieved in metrics <==> span.documentsRetrieved.Some?
    ensures span.inputTokens.Some? ==> metrics[InputTokens] == span.inputTokens.value
    ensures span.outputTokens.Some? ==> metrics[OutputTokens] == span.outputTokens.value
    ensures span.totalTokens.Some? ==> metrics[TotalTokens] == span.totalTokens.value
    ensures span.documentsRetrieved.Some? ==> metrics[DocumentsRetrieved] == span.documentsRetrieved.value
  {
    var m: map<MetricKey, int> := map[];
    var m := PutIf(m, InputTokens, OptionInt(span.inputTokens));
    var m := PutIf(m, OutputTokens, OptionInt(span.outputTokens));
    var m := PutIf(m, TotalTokens, OptionInt(span.totalTokens));
    PutIf(m, DocumentsRetrieved, OptionInt(span.documentsRetrieved))
  }

  function OptionInt(v: Option<Int32>): (r: Option<int>)
    ensures r.Some? <==> v.Some?
    ensures v.Some? ==> r.value == v.value
  {
    if v.Some? then Some(v.value) else None
  }

  /** `(long) x` on a double: truncation toward zero. */
  function TruncateToLong(x: real): int
  {
    if x >= 0.0 then x.Floor else -((-x).Floor)
  }

  /**
   * `spanToDatadog`. It throws, failing the whole batch, when the timestamp
   * does not parse (`parse` is `Instant.parse(..).toEpochMilli()`), when an
   * id does not convert, or when the span type is null.
   */
  function SpanToDatadog(span: SpanData, serviceName: Option<string>, parse: string -> Option<int>): (r: Result<DdSpan>)
    ensures r.Ok? <==>
      parse(span.timestamp).Some? && HexToLong(span.traceId).Ok? && HexToLong(span.spanId).Ok? &&
      (span.parentSpanId.None? || HexToLong(span.parentSpanId).Ok?) && span.spanType.Some?
  {
    if parse(span.timestamp).None? then Fail(DateTimeParse)
    else
      var start := parse(span.timestamp).value * 1_000_000;
      var duration := TruncateToLong(span.durationMs * 1_000_000.0);
      match HexToLong(span.traceId)
      case Fail(e) => Fail(e)
      case Ok(traceId) =>
        match HexToLong(span.spanId)
        case Fail(e) => Fail(e)
        case Ok(spanId) =>
          var parent := if span.parentSpanId.Some? then HexToLong(span.parentSpanId) else Ok(0);
          if parent.Fail? then Fail(parent.reason)
          else if span.spanType.None? then Fail(NullPointer)
          else
            Ok(DdSpan(traceId, spanId,
                      if span.parentSpanId.Some? then Some(parent.value) else None,
                      Lower(span.spanType.value), span.name, serviceName, "custom",
                      start, duration, Meta(span.spanType.value, span), Metrics(span),
                      span.isError))
  }

  /** The span's name is its type, lower-cased; its resource is the span
      name; the error flag is copied; a parent id appears only with a parent. */
  lemma DdSpanShape(span: SpanData, serviceName: Option<string>, parse: string -> Option<int>)
    requires SpanToDatadog(span, serviceName, parse).Ok?
    ensures var d := SpanToDatadog(span, serviceName, parse).value;
      d.name == Lower(span.spanType.value) && d.resource == span.name &&
      d.error == span.isError && (d.parentId.Some? <==> span.parentSpanId.Some?) &&
      d.service == serviceName && d.kind == "custom"
  {
  }

  /** The stream of conversions: the first failure aborts the batch. */
  function SpansToDatadog(spans: seq<SpanData>, serviceName: Option<string>, parse: string -> Option<int>): (r: Result<seq<DdSpan>>)
    ensures r.Ok? <==> forall i :: 0 <= i < |spans| ==> SpanToDatadog(spans[i], serviceName, parse).Ok?
    ensures r.Ok? ==> |r.value| == |spans|
    ensures r.Ok? ==> forall i :: 0 <= i < |spans| ==> SpanToDatadog(spans[i], serviceName, parse) == Ok(r.value[i])
  {
    Traverse(spans, span => SpanToDatadog(span, serviceName, parse))
  }

  /** The body: a list holding one trace, which holds every converted span. */
  function Payload(spans: seq<SpanData>, serviceName: Option<string>, parse: string -> Option<int>): (r: Result<seq<seq<DdSpan>>>)
    ensures r.Ok? ==> |r.value| == 1 && |r.value[0]| == |spans|
  {
    match SpansToDatadog(spans, serviceName, parse)
    case Fail(e) => Fail(e)
    case Ok(ds) => Ok([ds])
  }

  /** The trace intake URL; a null site is printed as "null". */
  function IntakeUrl(site: Option<string>): (url: string)
    ensures site.Some? ==> url == "https://trace.agent." + site.value + "/api/v0.2/traces"
  {
    "https://trace.agent." + OrNull(site) + "/api/v0.2/traces"
  }

  predicate Accepted(reply: Reply)
  {
    StatusIs(reply, 200)
  }

  datatype Config = Config(
    apiKey: string,
    site: Option<string>,
    serviceName: Option<string>,
    batchSize: int,
    flushIntervalMs: int)

  function ApiKeyHeader(c: Config): (h: Header)
    ensures h.name == "DD-API-KEY" && h.value == c.apiKey
  {
    Header("DD-API-KEY", c.apiKey)
  }

  datatype Builder = Builder(
    apiKey: Option<string>,
    site: Option<string>,
    serviceName: Option<string>,
    batchSize: int,
    flushIntervalMs: int)

  function DefaultBuilder(): (b: Builder)
    ensures b.apiKey.None? && b.site == Some("datadoghq.com") && b.serviceName == Some("genai-app")
    ensures b.batchSize == 10 && b.flushIntervalMs == 5000
  {
    Builder(None, Some("datadoghq.com"), Some("genai-app"), 10, 5000)
  }

  /** `Builder.build()`: the API key is required. */
  function Build(b: Builder): (r: Result<Config>)
    ensures r.Ok? <==> b.apiKey.Some?
    ensures r.Fail? ==> r.reason == IllegalArgument("apiKey is required")
    ensures r.Ok? ==> r.value == Config(b.apiKey.value, b.site, b.serviceName, b.batchSize, b.flushIntervalMs)
  {
    if b.apiKey.None? then Fail(IllegalArgument("apiKey is required"))
    else Ok(Config(b.apiKey.value, b.site, b.serviceName, b.batchSize, b.flushIntervalMs))
  }

  /** With the default site the intake is Datadog's US1 trace endpoint. */
  lemma DefaultIntake()
    ensures IntakeUrl(DefaultBuilder().site) == "https://trace.agent.datadoghq.com/api/v0.2/traces"
  {
  }
}
