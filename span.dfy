// `Span`: the mutable, in-flight record of one operation. It is created when
// the operation starts, collects model, token and retrieval details through
// setters, is finished once with an optional error, and is turned into a
// `SpanData` for export. Clock readings are parameters.

module Spans {
  import opened Common
  import opened SpanRecords

  /** A `Throwable`: its `getMessage()` (possibly null), the simple name of its
      class, and whether it is an `Exception` (as opposed to an `Error`). */
  datatype Failure = Failure(message: Option<string>, kind: string, isException: bool)

  /** `Math.round(elapsedNanos / 1e6 * 100) / 100`: milliseconds rounded half
      up to two decimals, in exact arithmetic. */
  function RoundedMs(elapsedNanos: int): (ms: real)
    ensures elapsedNanos >= 0 ==> ms >= 0.0
  {
    (((elapsedNanos as real) / 1000000.0 * 100.0 + 0.5).Floor as real) / 100.0
  }

  /** A longer elapsed time never gives a shorter rounded duration. */
  lemma RoundedMsMonotone(a: int, b: int)
    requires a <= b
    ensures RoundedMs(a) <= RoundedMs(b)
  {
    var x := (a as real) / 1000000.0 * 100.0 + 0.5;
    var y := (b as real) / 1000000.0 * 100.0 + 0.5;
    assert (x.Floor as real) <= x <= y < (y.Floor as real) + 1.0;
  }

  class Span {
    const traceId: string
    const spanId: string
    const name: Option<string>
    const spanType: SpanType
    const workflowName: Option<string>
    const parentSpanId: Option<string>
    const startTimeNanos: int

    var endTimeNanos: Option<int>
    var durationMs: Option<real>
    var status: SpanStatus
    var isError: bool
    var errorMessage: Option<string>
    var errorType: Option<string>

    var modelName: Option<string>
    var modelProvider: Option<string>
    var inputTokens: Int32
    var outputTokens: Int32
    var temperature: Option<real>
    var maxTokens: Option<Int32>

    var embeddingModel: Option<string>
    var embeddingDimensions: Option<Int32>

    var vectorStore: Option<string>
    var documentsRetrieved: Int32
    var relevanceScore: Option<real>

    var toolName: Option<string>
    var agentName: Option<string>
    var agentType: Option<string>

    var attributes: map<string, AttrValue>

    /** A span that has not finished, with status OK and every counter 0;
        `nowNanos` is the `System.nanoTime()` reading. */
    constructor(traceId: string, spanId: string, name: Option<string>, spanType: SpanType,
                workflowName: Option<string>, parentSpanId: Option<string>, nowNanos: int)
      ensures this.traceId == traceId && this.spanId == spanId && this.name == name
      ensures this.spanType == spanType && this.workflowName == workflowName
      ensures this.parentSpanId == parentSpanId && startTimeNanos == nowNanos
      ensures Unfinished()
      ensures status == OK && !isError && errorMessage.None? && errorType.None?
      ensures modelName.None? && modelProvider.None? && inputTokens == 0 && outputTokens == 0
      ensures temperature.None? && maxTokens.None? && embeddingModel.None? && embeddingDimensions.None?
      ensures vectorStore.None? && documentsRetrieved == 0 && relevanceScore.None?
      ensures toolName.None? && agentName.None? && agentType.None? && attributes == map[]
    {
      this.traceId := traceId;
      this.spanId := spanId;
      this.name := name;
      this.spanType := spanType;
      this.workflowName := workflowName;
      this.parentSpanId := parentSpanId;
      this.startTimeNanos := nowNanos;
      endTimeNanos := None;
      durationMs := None;
      status := OK;
      isError := false;
      errorMessage := None;
      errorType := None;
      modelName := None;
      modelProvider := None;
      inputTokens := 0;
      outputTokens := 0;
      temperature := None;
      maxTokens := None;
      embeddingModel := None;
      embeddingDimensions := None;
      vectorStore := None;
      documentsRetrieved := 0;
      relevanceScore := None;
      toolName := None;
      agentName := None;
      agentType := None;
      attributes := map[];
    }

    predicate Unfinished()
      reads this
    {
      endTimeNanos.None? && durationMs.None?
    }

    method SetAttribute(key: string, value: AttrValue)
      modifies this`attributes
      ensures attributes == old(attributes)[key := value]
    {
      attributes := attributes[key := value];
    }

    /** Marks the span failed and records the error's message and class name. */
    method SetError(error: Failure)
      modifies this`status, this`isError, this`errorMessage, this`errorType
      ensures status == ERROR && isError
      ensures errorMessage == error.message && errorType == Some(error.kind)
    {
      status := ERROR;
      isError := true;
      errorMessage := error.message;
      errorType := Some(error.kind);
    }

    /**
     * Records the end time and the rounded duration, then the error if there
     * is one. Finishing again overwrites the end time; an earlier error is
     * kept when the later call has none.
     */
    method Finish(error: Option<Failure>, nowNanos: int)
      modifies this`endTimeNanos, this`durationMs, this`status, this`isError,
               this`errorMessage, this`errorType
      ensures endTimeNanos == Some(nowNanos)
      ensures durationMs == Some(RoundedMs(nowNanos - startTimeNanos))
      ensures error.None? ==> status == old(status) && isError == old(isError) &&
                              errorMessage == old(errorMessage) && errorType == old(errorType)
      ensures error.Some? ==> status == ERROR && isError &&
                              errorMessage == error.value.message && errorType == Some(error.value.kind)
    {
      endTimeNanos := Some(nowNanos);
      durationMs := Some(RoundedMs(nowNanos - startTimeNanos));
      if error.Some? {
        SetError(error.value);
      }
    }

    method SetModelName(v: Option<string>)
      modifies this`modelName
      ensures modelName == v
    {
      modelName := v;
    }

    method SetModelProvider(v: Option<string>)
      modifies this`modelProvider
      ensures modelProvider == v
    {
      modelProvider := v;
    }

    method SetInputTokens(v: Int32)
      modifies this`inputTokens
      ensures inputTokens == v
    {
      inputTokens := v;
    }

    method SetOutputTokens(v: Int32)
      modifies this`outputTokens
      ensures outputTokens == v
    {
      outputTokens := v;
    }

    method SetTemperature(v: Option<real>)
      modifies this`temperature
      ensures temperature == v
    {
      temperature := v;
    }

    method SetMaxTokens(v: Option<Int32>)
      modifies this`maxTokens
      ensures maxTokens == v
    {
      maxTokens := v;
    }

    method SetEmbeddingModel(v: Option<string>)
      modifies this`embeddingModel
      ensures embeddingModel == v
    {
      embeddingModel := v;
    }

    method SetEmbeddingDimensions(v: Option<Int32>)
      modifies this`embeddingDimensions
      ensures embeddingDimensions == v
    {
      embeddingDimensions := v;
    }

    method SetVectorStore(v: Option<string>)
      modifies this`vectorStore
      ensures vectorStore == v
    {
      vectorStore := v;
    }

    method SetDocumentsRetrieved(v: Int32)
      modifies this`documentsRetrieved
      ensures documentsRetrieved == v
    {
      documentsRetrieved := v;
    }

    method SetRelevanceScore(v: Option<real>)
      modifies this`relevanceScore
      ensures relevanceScore == v
    {
      relevanceScore := v;
    }

    method SetToolName(v: Option<string>)
      modifies this`toolName
      ensures toolName == v
    {
      toolName := v;
    }

    method SetAgentName(v: Option<string>)
      modifies this`agentName
      ensures agentName == v
    {
      agentName := v;
    }

    method SetAgentType(v: Option<string>)
      modifies this`agentType
      ensures agentType == v
    {
      agentType := v;
    }

    /** A positive counter is exported; zero or negative means "not set". */
    static function IfPositive(n: Int32): Option<Int32>
    {
      if n > 0 then Some(n) else None
    }

    /**
     * `toSpanData()`: the exported record, stamped with the clock reading
     * `now`. LLM spans always carry the three token counts; other spans carry
     * a count only when it is positive, and `build()` then derives the total
     * when both are. Absent optional fields stay absent, and every custom
     * attribute is copied.
     */
    function ToSpanData(now: string): (d: SpanData)
      reads this
      ensures d.traceId == Some(traceId) && d.spanId == Some(spanId) && d.name == name
      ensures d.spanType == Some(TypeName(spanType)) && d.workflowName == workflowName
      ensures d.parentSpanId == parentSpanId && d.timestamp == now
      ensures d.durationMs == (if durationMs.Some? then durationMs.value else 0.0)
      ensures d.status == StatusName(status) && (d.isError == 1 <==> isError) && (d.isError == 0 <==> !isError)
      ensures d.errorMessage == errorMessage && d.errorType == errorType
      ensures d.modelName == modelName && d.modelProvider == modelProvider
      ensures spanType == LLM ==>
                d.inputTokens == Some(inputTokens) && d.outputTokens == Some(outputTokens) &&
                d.totalTokens == Some(AddInt32(inputTokens, outputTokens))
      ensures spanType != LLM ==>
                (d.inputTokens.Some? <==> inputTokens > 0) && (d.outputTokens.Some? <==> outputTokens > 0) &&
                (d.totalTokens.Some? <==> inputTokens > 0 && outputTokens > 0)
      ensures d.inputTokens.Some? ==> d.inputTokens.value == inputTokens
      ensures d.outputTokens.Some? ==> d.outputTokens.value == outputTokens
      ensures d.totalTokens.Some? ==> d.totalTokens.value == AddInt32(inputTokens, outputTokens)
      ensures d.temperature == temperature && d.maxTokens == maxTokens
      ensures d.embeddingModel == embeddingModel && d.embeddingDimensions == embeddingDimensions
      ensures d.vectorStore == vectorStore && d.relevanceScore == relevanceScore
      ensures d.documentsRetrieved == IfPositive(documentsRetrieved)
      ensures d.toolName == toolName && d.agentName == agentName && d.agentType == agentType
      ensures d.customAttributes == attributes
    {
      var base := EmptySpanData(now).(
        traceId := Some(traceId), spanId := Some(spanId), name := name,
        spanType := Some(TypeName(spanType)), workflowName := workflowName,
        parentSpanId := parentSpanId,
        durationMs := if durationMs.Some? then durationMs.value else 0.0,
        status := StatusName(status), isError := if isError then 1 else 0,
        errorMessage := errorMessage, errorType := errorType,
        modelName := modelName, modelProvider := modelProvider);
      var tokens :=
        if spanType == LLM then
          base.(inputTokens := Some(inputTokens), outputTokens := Some(outputTokens),
                totalTokens := Some(AddInt32(inputTokens, outputTokens)))
        else
          base.(inputTokens := IfPositive(inputTokens), outputTokens := IfPositive(outputTokens));
      WithDerivedTotal(tokens.(
        temperature := temperature, maxTokens := maxTokens,
        embeddingModel := embeddingModel, embeddingDimensions := embeddingDimensions,
        vectorStore := vectorStore, documentsRetrieved := IfPositive(documentsRetrieved),
        relevanceScore := relevanceScore, toolName := toolName,
        agentName := agentName, agentType := agentType,
        customAttributes := attributes))
    }
  }
}
