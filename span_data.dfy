// `SpanType`, `SpanStatus` and `SpanData`: the immutable-in-practice record
// that every exporter consumes, and its builder, which fills one record field
// by field and derives the token total when it is built.

module SpanRecords {
  import opened Common

  datatype SpanType = LLM | EMBEDDING | RETRIEVER | TOOL | CHAIN | AGENT

  /** `SpanType.name()` */
  function TypeName(t: SpanType): string
  {
    match t
    case LLM => "LLM"
    case EMBEDDING => "EMBEDDING"
    case RETRIEVER => "RETRIEVER"
    case TOOL => "TOOL"
    case CHAIN => "CHAIN"
    case AGENT => "AGENT"
  }

  lemma TypeNamesDistinct(a: SpanType, b: SpanType)
    ensures TypeName(a) == TypeName(b) <==> a == b
  {
  }

  datatype SpanStatus = OK | ERROR

  /** `SpanStatus.name()` */
  function StatusName(s: SpanStatus): string
  {
    match s
    case OK => "OK"
    case ERROR => "ERROR"
  }

  /** A value stored in the custom attribute map (`Map<String, Object>`). */
  datatype AttrValue = AStr(s: string) | AInt(i: int) | AReal(r: real) | ABool(b: bool) | ANull

  /** One span as exported; `None` is Java's `null` in a nullable field. */
  datatype SpanData = SpanData(
    traceId: Option<string>,
    spanId: Option<string>,
    parentSpanId: Option<string>,
    name: Option<string>,
    spanType: Option<string>,
    workflowName: Option<string>,
    timestamp: string,
    durationMs: real,
    status: string,
    isError: int,
    errorMessage: Option<string>,
    errorType: Option<string>,
    modelName: Option<string>,
    modelProvider: Option<string>,
    inputTokens: Option<Int32>,
    outputTokens: Option<Int32>,
    totalTokens: Option<Int32>,
    temperature: Option<real>,
    maxTokens: Option<Int32>,
    embeddingModel: Option<string>,
    embeddingDimensions: Option<Int32>,
    vectorStore: Option<string>,
    documentsRetrieved: Option<Int32>,
    relevanceScore: Option<real>,
    toolName: Option<string>,
    agentName: Option<string>,
    agentType: Option<string>,
    customAttributes: map<string, AttrValue>)

  /** A freshly constructed record: only the timestamp (the clock reading
      `now`), the status "OK" and the error flag 0 are set. */
  function EmptySpanData(now: string): (d: SpanData)
    ensures d.status == "OK" && d.isError == 0 && d.timestamp == now
    ensures d.totalTokens.None? && d.customAttributes == map[]
  {
    SpanData(None, None, None, None, None, None, now, 0.0, "OK", 0,
             None, None, None, None, None, None, None, None, None, None, None,
             None, None, None, None, None, None, map[])
  }

  /**
   * What `build()` does to the record: when no total was given and both
   * token counts were, the total becomes their Java `int` sum; nothing else
   * is touched.
   */
  function WithDerivedTotal(d: SpanData): (r: SpanData)
    ensures r == d.(totalTokens := r.totalTokens)
    ensures d.totalTokens.Some? ==> r.totalTokens == d.totalTokens
    ensures d.totalTokens.None? && d.inputTokens.Some? && d.outputTokens.Some? ==>
              r.totalTokens == Some(AddInt32(d.inputTokens.value, d.outputTokens.value))
    ensures d.totalTokens.None? && (d.inputTokens.None? || d.outputTokens.None?) ==>
              r.totalTokens.None?
  {
    if d.totalTokens.None? && d.inputTokens.Some? && d.outputTokens.Some? then
      d.(totalTokens := Some(AddInt32(d.inputTokens.value, d.outputTokens.value)))
    else d
  }

  /** Building twice changes nothing more than building once. */
  lemma DerivedTotalIdempotent(d: SpanData)
    ensures WithDerivedTotal(WithDerivedTotal(d)) == WithDerivedTotal(d)
  {
  }

  /** An explicitly set total survives `build()`, whatever the two counts
      are. */
  lemma ExplicitTotalWins(d: SpanData, total: Int32)
    ensures WithDerivedTotal(d.(totalTokens := Some(total))).totalTokens == Some(total)
  {
  }

  /** The derived total is the exact sum whenever the sum fits in an `int`. */
  lemma DerivedTotalExact(d: SpanData)
    requires d.totalTokens.None? && d.inputTokens.Some? && d.outputTokens.Some?
    requires IsInt32(d.inputTokens.value + d.outputTokens.value)
    ensures WithDerivedTotal(d).totalTokens == Some(d.inputTokens.value + d.outputTokens.value)
  {
  }

  /** `SpanData.Builder`: wraps one record and assigns its fields in place. */
  class SpanDataBuilder {
    var data: SpanData

    /** `SpanData.builder()`; `now` is the clock reading of the constructor. */
    constructor(now: string)
      ensures data == EmptySpanData(now)
    {
      data := EmptySpanData(now);
    }

    method TraceId(v: Option<string>)
      modifies this
      ensures data == old(data).(traceId := v)
    {
      data := data.(traceId := v);
    }

    method SpanId(v: Option<string>)
      modifies this
      ensures data == old(data).(spanId := v)
    {
      data := data.(spanId := v);
    }

    method ParentSpanId(v: Option<string>)
      modifies this
      ensures data == old(data).(parentSpanId := v)
    {
      data := data.(parentSpanId := v);
    }

    method Name(v: Option<string>)
      modifies this
      ensures data == old(data).(name := v)
    {
      data := data.(name := v);
    }

    /** `spanType(SpanType)` stores the constant's name. */
    method SpanTypeOf(t: SpanType)
      modifies this
      ensures data == old(data).(spanType := Some(TypeName(t)))
    {
      data := data.(spanType := Some(TypeName(t)));
    }

    /** `spanType(String)` stores the text as given. */
    method SpanTypeText(v: Option<string>)
      modifies this
      ensures data == old(data).(spanType := v)
    {
      data := data.(spanType := v);
    }

    method WorkflowName(v: Option<string>)
      modifies this
      ensures data == old(data).(workflowName := v)
    {
      data := data.(workflowName := v);
    }

    method Timestamp(v: string)
      modifies this
      ensures data == old(data).(timestamp := v)
    {
      data := data.(timestamp := v);
    }

    method DurationMs(v: real)
      modifies this
      ensures data == old(data).(durationMs := v)
    {
      data := data.(durationMs := v);
    }

    /** `status(SpanStatus)` stores the constant's name. */
    method Status(s: SpanStatus)
      modifies this
      ensures data == old(data).(status := StatusName(s))
    {
      data := data.(status := StatusName(s));
    }

    /** `isError(boolean)` stores 1 or 0. */
    method IsError(b: bool)
      modifies this
      ensures data == old(data).(isError := if b then 1 else 0)
    {
      data := data.(isError := if b then 1 else 0);
    }

    method ErrorMessage(v: Option<string>)
      modifies this
      ensures data == old(data).(errorMessage := v)
    {
      data := data.(errorMessage := v);
    }

    method ErrorType(v: Option<string>)
      modifies this
      ensures data == old(data).(errorType := v)
    {
      data := data.(errorType := v);
    }

    method ModelName(v: Option<string>)
      modifies this
      ensures data == old(data).(modelName := v)
    {
      data := data.(modelName := v);
    }

    method ModelProvider(v: Option<string>)
      modifies this
      ensures data == old(data).(modelProvider := v)
    {
      data := data.(modelProvider := v);
    }

    method InputTokens(v: Int32)
      modifies this
      ensures data == old(data).(inputTokens := Some(v))
    {
      data := data.(inputTokens := Some(v));
    }

    method OutputTokens(v: Int32)
      modifies this
      ensures data == old(data).(outputTokens := Some(v))
    {
      data := data.(outputTokens := Some(v));
    }

    method TotalTokens(v: Int32)
      modifies this
      ensures data == old(data).(totalTokens := Some(v))
    {
      data := data.(totalTokens := Some(v));
    }

    method Temperature(v: real)
      modifies this
      ensures data == old(data).(temperature := Some(v))
    {
      data := data.(temperature := Some(v));
    }

    method MaxTokens(v: Int32)
      modifies this
      ensures data == old(data).(maxTokens := Some(v))
    {
      data := data.(maxTokens := Some(v));
    }

    method EmbeddingModel(v: Option<string>)
      modifies this
      ensures data == old(data).(embeddingModel := v)
    {
      data := data.(embeddingModel := v);
    }

    method EmbeddingDimensions(v: Int32)
      modifies this
      ensures data == old(data).(embeddingDimensions := Some(v))
    {
      data := data.(embeddingDimensions := Some(v));
    }

    method VectorStore(v: Option<string>)
      modifies this
      ensures data == old(data).(vectorStore := v)
    {
      data := data.(vectorStore := v);
    }

    method DocumentsRetrieved(v: Int32)
      modifies this
      ensures data == old(data).(documentsRetrieved := Some(v))
    {
      data := data.(documentsRetrieved := Some(v));
    }

    method RelevanceScore(v: real)
      modifies this
      ensures data == old(data).(relevanceScore := Some(v))
    {
      data := data.(relevanceScore := Some(v));
    }

    method ToolName(v: Option<string>)
      modifies this
      ensures data == old(data).(toolName := v)
    {
      data := data.(toolName := v);
    }

    method AgentName(v: Option<string>)
      modifies this
      ensures data == old(data).(agentName := v)
    {
      data := data.(agentName := v);
    }

    method AgentType(v: Option<string>)
      modifies this
      ensures data == old(data).(agentType := v)
    {
      data := data.(agentType := v);
    }

    /** `attribute(key, value)`: a map put, replacing an earlier value. */
    method Attribute(key: string, value: AttrValue)
      modifies this
      ensures data == old(data).(customAttributes := old(data).customAttributes[key := value])
    {
      data := data.(customAttributes := data.customAttributes[key := value]);
    }

    /** `build()`: derives the total in the wrapped record and returns it. */
    method Build() returns (d: SpanData)
      modifies this
      ensures d == WithDerivedTotal(old(data)) && data == d
    {
      if data.totalTokens.None? && data.inputTokens.Some? && data.outputTokens.Some? {
        data := data.(totalTokens := Some(AddInt32(data.inputTokens.value, data.outputTokens.value)));
      }
      d := data;
    }
  }
}
