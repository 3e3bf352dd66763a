// `GenAITelemetry`: the per-thread trace context (current trace id and a
// stack of open spans), the helpers that time one operation and send one
// span for it, and the process-wide instance. The exporter behind the manager
// is seen through the calls made on it; clock readings are parameters.

module Telemetry {
  import opened Common
  import opened SpanRecords
  import opened Spans
  import opened IdGenerator
  import opened TokenExtractor
  import opened Exporters

  /** How the traced operation ended: with a result or an exception. */
  datatype Outcome = Returned(value: Response) | Threw(error: Failure)

  /** The helpers catch `Exception` only: an `Error` thrown by the operation
      propagates before any span is sent. */
  predicate Escapes(outcome: Outcome)
  {
    outcome.Threw? && !outcome.error.isException
  }

  /** `(System.nanoTime() - start) / 1_000_000.0` */
  function ElapsedMs(elapsedNanos: int): real
  {
    (elapsedNanos as real) / 1000000.0
  }

  /** The span id of the top of a span stack, if any: a new span's parent. */
  function ParentIdOf(stack: seq<Span>): (r: Option<string>)
    ensures r.Some? <==> |stack| > 0
  {
    if |stack| == 0 then None else Some(stack[|stack| - 1].spanId)
  }

  /** What `sendSpan` stamps on the builder's record before building it. */
  function Stamped(fields: SpanData, traceId: string, spanId: string, parent: Option<string>,
                   spanType: SpanType, name: Option<string>, workflowName: Option<string>,
                   now: string): (d: SpanData)
    ensures d.traceId == Some(traceId) && d.spanId == Some(spanId) && d.parentSpanId == parent
    ensures d.spanType == Some(TypeName(spanType)) && d.name == name
    ensures d.workflowName == workflowName && d.timestamp == now
    ensures d.status == fields.status && d.isError == fields.isError
    ensures d.inputTokens == fields.inputTokens && d.outputTokens == fields.outputTokens
    ensures d.errorMessage == fields.errorMessage && d.errorType == fields.errorType
    ensures d.modelName == fields.modelName && d.modelProvider == fields.modelProvider
    ensures fields.totalTokens.Some? ==> d.totalTokens == fields.totalTokens
    ensures fields.totalTokens.None? && fields.inputTokens.Some? && fields.outputTokens.Some? ==>
              d.totalTokens == Some(AddInt32(fields.inputTokens.value, fields.outputTokens.value))
    ensures fields.totalTokens.None? && (fields.inputTokens.None? || fields.outputTokens.None?) ==>
              d.totalTokens.None?
  {
    WithDerivedTotal(fields.(traceId := Some(traceId), spanId := Some(spanId), parentSpanId := parent,
                             spanType := Some(TypeName(spanType)), name := name,
                             workflowName := workflowName, timestamp := now))
  }

  /** The status fields every helper sets: OK, or ERROR with the flag and the
      error's message (and, where `withType`, its class name). */
  function StatusFields(d: SpanData, outcome: Outcome, withType: bool): (r: SpanData)
    ensures outcome.Returned? ==> r.status == "OK" && r.isError == d.isError
    ensures outcome.Threw? ==> r.status == "ERROR" && r.isError == 1 &&
                               r.errorMessage == outcome.error.message
  {
    match outcome
    case Returned(_) => d.(status := "OK")
    case Threw(e) =>
      var failed := d.(status := "ERROR", isError := 1, errorMessage := e.message);
      if withType then failed.(errorType := Some(e.kind)) else failed
  }

  /** The record `traceLLM` hands to `sendSpan`. */
  function LLMFields(modelName: Option<string>, modelProvider: Option<string>, outcome: Outcome,
                     elapsedNanos: int, now: string): SpanData
  {
    var d := EmptySpanData(now).(modelName := modelName, modelProvider := modelProvider,
                                  durationMs := ElapsedMs(elapsedNanos));
    var counted :=
      if outcome.Returned? then
        var t := ExtractTokens(outcome.value);
        d.(inputTokens := Some(t.input), outputTokens := Some(t.output))
      else d;
    StatusFields(counted, outcome, true)
  }

  /** The record `traceEmbedding` hands to `sendSpan`: only the input count is read. */
  function EmbeddingFields(model: Option<string>, outcome: Outcome, elapsedNanos: int, now: string): SpanData
  {
    var d := EmptySpanData(now).(embeddingModel := model, durationMs := ElapsedMs(elapsedNanos));
    var counted :=
      if outcome.Returned? then d.(inputTokens := Some(ExtractTokens(outcome.value).input)) else d;
    StatusFields(counted, outcome, false)
  }

  /** The record `traceRetrieval` hands to `sendSpan`; the failure record
      carries neither the embedding model nor the document count. */
  function RetrievalFields(vectorStore: Option<string>, embeddingModel: Option<string>,
                           documents: Int32, outcome: Outcome, elapsedNanos: int, now: string): SpanData
  {
    var d := EmptySpanData(now).(vectorStore := vectorStore, durationMs := ElapsedMs(elapsedNanos));
    var detailed :=
      if outcome.Returned? then d.(embeddingModel := embeddingModel, documentsRetrieved := Some(documents))
      else d;
    StatusFields(detailed, outcome, false)
  }

  function ToolFields(toolName: Option<string>, outcome: Outcome, elapsedNanos: int, now: string): SpanData
  {
    StatusFields(EmptySpanData(now).(toolName := toolName, durationMs := ElapsedMs(elapsedNanos)), outcome, false)
  }

  function ChainFields(outcome: Outcome, elapsedNanos: int, now: string): SpanData
  {
    StatusFields(EmptySpanData(now).(durationMs := ElapsedMs(elapsedNanos)), outcome, false)
  }

  function AgentFields(agentName: Option<string>, agentType: Option<string>, outcome: Outcome,
                       elapsedNanos: int, now: string): SpanData
  {
    StatusFields(EmptySpanData(now).(agentName := agentName, agentType := agentType,
                                      durationMs := ElapsedMs(elapsedNanos)), outcome, false)
  }

  /** A successful LLM call exports the extracted counts and their sum. */
  lemma LLMSuccessCarriesTokens(modelName: Option<string>, provider: Option<string>, result: Response,
                                elapsedNanos: int, now: string, traceId: string, spanId: string,
                                parent: Option<string>, name: Option<string>, workflow: Option<string>)
    ensures
      var d := Stamped(LLMFields(modelName, provider, Returned(result), elapsedNanos, now),
                       traceId, spanId, parent, LLM, name, workflow, now);
      var t := ExtractTokens(result);
      d.status == "OK" && d.isError == 0 && d.errorMessage.None? && d.errorType.None? &&
      d.inputTokens == Some(t.input) && d.outputTokens == Some(t.output) &&
      d.totalTokens == Some(AddInt32(t.input, t.output)) &&
      d.modelName == modelName && d.modelProvider == provider
  {
    LLMSuccessFields(modelName, provider, result, elapsedNanos, now);
  }

  /** The record a successful LLM call hands to `sendSpan`, before stamping. */
  lemma LLMSuccessFields(modelName: Option<string>, provider: Option<string>, result: Response,
                         elapsedNanos: int, now: string)
    ensures
      var f := LLMFields(modelName, provider, Returned(result), elapsedNanos, now);
      var t := ExtractTokens(result);
      f.status == "OK" && f.isError == 0 && f.totalTokens.None? &&
      f.inputTokens == Some(t.input) && f.outputTokens == Some(t.output) &&
      f.errorMessage.None? && f.errorType.None? &&
      f.modelName == modelName && f.modelProvider == provider
  {
    var t := ExtractTokens(result);
    var d := EmptySpanData(now).(modelName := modelName, modelProvider := provider,
                                  durationMs := ElapsedMs(elapsedNanos));
    var counted := d.(inputTokens := Some(t.input), outputTokens := Some(t.output));
    assert LLMFields(modelName, provider, Returned(result), elapsedNanos, now) == counted.(status := "OK");
  }

  /** A failed LLM call exports the error's message and class name, and no counts. */
  lemma LLMFailureCarriesError(modelName: Option<string>, provider: Option<string>, e: Failure,
                               elapsedNanos: int, now: string)
    ensures
      var d := LLMFields(modelName, provider, Threw(e), elapsedNanos, now);
      d.status == "ERROR" && d.isError == 1 && d.errorMessage == e.message &&
      d.errorType == Some(e.kind) && d.inputTokens.None? && d.totalTokens.None?
  {
  }

  /** Only the LLM helper records the error's class name. */
  lemma OtherHelpersOmitErrorType(e: Failure, elapsedNanos: int, now: string, s: Option<string>, docs: Int32)
    ensures EmbeddingFields(s, Threw(e), elapsedNanos, now).errorType.None?
    ensures RetrievalFields(s, s, docs, Threw(e), elapsedNanos, now).errorType.None?
    ensures ToolFields(s, Threw(e), elapsedNanos, now).errorType.None?
    ensures ChainFields(Threw(e), elapsedNanos, now).errorType.None?
    ensures AgentFields(s, s, Threw(e), elapsedNanos, now).errorType.None?
  {
  }

  /** An embedding span never gets a total: only the input count is set. */
  lemma EmbeddingHasNoTotal(model: Option<string>, outcome: Outcome, elapsedNanos: int, now: string,
                            traceId: string, spanId: string, parent: Option<string>,
                            name: Option<string>, workflow: Option<string>)
    ensures Stamped(EmbeddingFields(model, outcome, elapsedNanos, now), traceId, spanId, parent,
                    EMBEDDING, name, workflow, now).totalTokens.None?
  {
  }

  class GenAITelemetry {
    const workflowName: Option<string>
    const serviceName: Option<string>
    var traceId: Option<string>
    /** Open spans; the last element is the top of the stack. */
    var stack: seq<Span>
    /** Calls made on the exporter, in order. */
    var calls: seq<Call>

    /** The service name defaults to the workflow name. */
    constructor(workflowName: Option<string>, serviceName: Option<string>)
      ensures this.workflowName == workflowName
      ensures this.serviceName == if serviceName.Some? then serviceName else workflowName
      ensures traceId.None? && stack == [] && calls == []
    {
      this.workflowName := workflowName;
      this.serviceName := if serviceName.Some? then serviceName else workflowName;
      traceId := None;
      stack := [];
      calls := [];
    }

    /** The current trace id, created on first use and stable afterwards. */
    method GetTraceId() returns (id: string)
      modifies this`traceId
      ensures traceId == Some(id)
      ensures old(traceId).Some? ==> id == old(traceId).value
      ensures old(traceId).None? ==> IsTraceId(id)
    {
      if traceId.None? {
        id := GenerateTraceId();
        traceId := Some(id);
      } else {
        id := traceId.value;
      }
    }

    method SetTraceId(id: Option<string>)
      modifies this`traceId
      ensures traceId == id
    {
      traceId := id;
    }

    /** Replaces the trace id with a freshly generated one. */
    method NewTrace() returns (id: string)
      modifies this`traceId
      ensures IsTraceId(id) && traceId == Some(id)
    {
      id := GenerateTraceId();
      traceId := Some(id);
    }

    function CurrentSpan(): (s: Option<Span>)
      reads this
      ensures s.Some? <==> |stack| > 0
      ensures s.Some? ==> s.value == stack[|stack| - 1]
    {
      if |stack| == 0 then None else Some(stack[|stack| - 1])
    }

    method Start()
      modifies this`calls
      ensures calls == old(calls) + [StartCall]
    {
      calls := calls + [StartCall];
    }

    method Stop()
      modifies this`calls
      ensures calls == old(calls) + [StopCall]
    {
      calls := calls + [StopCall];
    }

    /** Opens a child of the current span (or a root span) in the current
        trace and pushes it. */
    method StartSpan(name: Option<string>, spanType: SpanType, nowNanos: int) returns (span: Span)
      modifies this`traceId, this`stack
      ensures fresh(span) && stack == old(stack) + [span]
      ensures traceId.Some? && span.traceId == traceId.value
      ensures old(traceId).Some? ==> traceId == old(traceId)
      ensures old(traceId).None? ==> IsTraceId(traceId.value)
      ensures IsSpanId(span.spanId) && span.parentSpanId == ParentIdOf(old(stack))
      ensures span.name == name && span.spanType == spanType && span.workflowName == workflowName
      ensures span.startTimeNanos == nowNanos && span.Unfinished() && span.status == OK
    {
      var parentId := ParentIdOf(stack);
      var trace := GetTraceId();
      var id := GenerateSpanId();
      span := new Span(trace, id, name, spanType, workflowName, parentId, nowNanos);
      stack := stack + [span];
    }

    /**
     * Pops and finishes the top span and exports it; with no open span
     * nothing happens. `nowNanos` and `now` are the clock readings.
     */
    method EndSpan(error: Option<Failure>, nowNanos: int, now: string)
      modifies this`stack, this`calls
      modifies (if |stack| == 0 then {} else {stack[|stack| - 1]})`endTimeNanos,
               (if |stack| == 0 then {} else {stack[|stack| - 1]})`durationMs,
               (if |stack| == 0 then {} else {stack[|stack| - 1]})`status,
               (if |stack| == 0 then {} else {stack[|stack| - 1]})`isError,
               (if |stack| == 0 then {} else {stack[|stack| - 1]})`errorMessage,
               (if |stack| == 0 then {} else {stack[|stack| - 1]})`errorType
      ensures old(stack) == [] ==> stack == [] && calls == old(calls)
      ensures old(stack) != [] ==>
                var top := old(stack)[|old(stack)| - 1];
                stack == old(stack)[..|old(stack)| - 1] &&
                top.endTimeNanos == Some(nowNanos) &&
                top.durationMs == Some(RoundedMs(nowNanos - top.startTimeNanos)) &&
                (error.Some? ==> top.status == ERROR && top.isError &&
                                 top.errorMessage == error.value.message &&
                                 top.errorType == Some(error.value.kind)) &&
                (error.None? ==> top.status == old(top.status) && top.isError == old(top.isError)) &&
                calls == old(calls) + [ExportCall(top.ToSpanData(now))]
    {
      if |stack| == 0 {
        return;
      }
      var top := stack[|stack| - 1];
      stack := stack[..|stack| - 1];
      top.Finish(error, nowNanos);
      calls := calls + [ExportCall(top.ToSpanData(now))];
    }

    /**
     * Completes a record built by the caller with the current trace id, a new
     * span id, the current span as parent, the type, name, workflow and time,
     * builds it and exports it. The span stack is left alone; `accepted` is
     * the exporter's answer.
     */
    method SendSpan(spanType: SpanType, name: Option<string>, builder: SpanDataBuilder,
                    now: string, accepted: bool) returns (ok: bool)
      modifies this`traceId, this`calls, builder
      ensures ok == accepted
      ensures traceId.Some? && (old(traceId).Some? ==> traceId == old(traceId))
      ensures old(traceId).None? ==> IsTraceId(traceId.value)
      ensures exists spanId :: IsSpanId(spanId) &&
                calls == old(calls) + [ExportCall(Stamped(old(builder.data), traceId.value, spanId,
                                                          ParentIdOf(stack), spanType, name, workflowName, now))]
    {
      var parentId := ParentIdOf(stack);
      var trace := GetTraceId();
      builder.TraceId(Some(trace));
      var spanId := GenerateSpanId();
      builder.SpanId(Some(spanId));
      builder.ParentSpanId(parentId);
      builder.SpanTypeOf(spanType);
      builder.Name(name);
      builder.WorkflowName(workflowName);
      builder.Timestamp(now);
      var d := builder.Build();
      calls := calls + [ExportCall(d)];
      ok := accepted;
    }

    /** Runs an LLM call (its `outcome` is given), sends one LLM span for it
        unless an `Error` escapes, and returns the result or re-raises. */
    method TraceLLM(name: Option<string>, modelName: Option<string>, modelProvider: Option<string>,
                    outcome: Outcome, elapsedNanos: int, now: string) returns (r: Outcome)
      modifies this`traceId, this`calls
      ensures r == outcome
      ensures Escapes(outcome) ==> traceId == old(traceId) && calls == old(calls)
      ensures !Escapes(outcome) ==>
                traceId.Some? && (old(traceId).Some? ==> traceId == old(traceId)) &&
                (old(traceId).None? ==> IsTraceId(traceId.value))
      ensures !Escapes(outcome) ==>
                exists spanId :: IsSpanId(spanId) &&
                  calls == old(calls) + [ExportCall(Stamped(LLMFields(modelName, modelProvider, outcome, elapsedNanos, now),
                                                            traceId.value, spanId, ParentIdOf(stack), LLM, name, workflowName, now))]
    {
      if Escapes(outcome) {
        return outcome;
      }
      var b := new SpanDataBuilder(now);
      b.ModelName(modelName);
      b.ModelProvider(modelProvider);
      b.DurationMs(ElapsedMs(elapsedNanos));
      match outcome {
        case Returned(result) =>
          var tokens := ExtractTokens(result);
          b.InputTokens(tokens.input);
          b.OutputTokens(tokens.output);
          b.Status(OK);
        case Threw(e) =>
          b.Status(ERROR);
          b.IsError(true);
          b.ErrorMessage(e.message);
          b.ErrorType(Some(e.kind));
      }
      assert b.data == LLMFields(modelName, modelProvider, outcome, elapsedNanos, now);
      var _ := SendSpan(LLM, name, b, now, true);
      r := outcome;
    }

    method TraceEmbedding(name: Option<string>, model: Option<string>, outcome: Outcome,
                          elapsedNanos: int, now: string) returns (r: Outcome)
      modifies this`traceId, this`calls
      ensures r == outcome
      ensures Escapes(outcome) ==> traceId == old(traceId) && calls == old(calls)
      ensures !Escapes(outcome) ==>
                traceId.Some? && (old(traceId).Some? ==> traceId == old(traceId)) &&
                (old(traceId).None? ==> IsTraceId(traceId.value))
      ensures !Escapes(outcome) ==>
                exists spanId :: IsSpanId(spanId) &&
                  calls == old(calls) + [ExportCall(Stamped(EmbeddingFields(model, outcome, elapsedNanos, now),
                                                            traceId.value, spanId, ParentIdOf(stack), EMBEDDING, name, workflowName, now))]
    {
      if Escapes(outcome) {
        return outcome;
      }
      var b := new SpanDataBuilder(now);
      b.EmbeddingModel(model);
      b.DurationMs(ElapsedMs(elapsedNanos));
      match outcome {
        case Returned(result) =>
          b.InputTokens(ExtractTokens(result).input);
          b.Status(OK);
        case Threw(e) =>
          b.Status(ERROR);
          b.IsError(true);
          b.ErrorMessage(e.message);
      }
      assert b.data == EmbeddingFields(model, outcome, elapsedNanos, now);
      var _ := SendSpan(EMBEDDING, name, b, now, true);
      r := outcome;
    }

    method TraceRetrieval(name: Option<string>, vectorStore: Option<string>, embeddingModel: Option<string>,
                          outcome: Outcome, documents: Int32, elapsedNanos: int, now: string) returns (r: Outcome)
      modifies this`traceId, this`calls
      ensures r == outcome
      ensures Escapes(outcome) ==> traceId == old(traceId) && calls == old(calls)
      ensures !Escapes(outcome) ==>
                traceId.Some? && (old(traceId).Some? ==> traceId == old(traceId)) &&
                (old(traceId).None? ==> IsTraceId(traceId.value))
      ensures !Escapes(outcome) ==>
                exists spanId :: IsSpanId(spanId) &&
                  calls == old(calls) + [ExportCall(Stamped(RetrievalFields(vectorStore, embeddingModel, documents, outcome, elapsedNanos, now),
                                                            traceId.value, spanId, ParentIdOf(stack), RETRIEVER, name, workflowName, now))]
    {
      if Escapes(outcome) {
        return outcome;
      }
      var b := new SpanDataBuilder(now);
      b.VectorStore(vectorStore);
      match outcome {
        case Returned(_) =>
          b.EmbeddingModel(embeddingModel);
          b.DocumentsRetrieved(documents);
          b.DurationMs(ElapsedMs(elapsedNanos));
          b.Status(OK);
        case Threw(e) =>
          b.DurationMs(ElapsedMs(elapsedNanos));
          b.Status(ERROR);
          b.IsError(true);
          b.ErrorMessage(e.message);
      }
      assert b.data == RetrievalFields(vectorStore, embeddingModel, documents, outcome, elapsedNanos, now);
      var _ := SendSpan(RETRIEVER, name, b, now, true);
      r := outcome;
    }

    method TraceTool(name: Option<string>, toolName: Option<string>, outcome: Outcome,
                     elapsedNanos: int, now: string) returns (r: Outcome)
      modifies this`traceId, this`calls
      ensures r == outcome
      ensures Escapes(outcome) ==> traceId == old(traceId) && calls == old(calls)
      ensures !Escapes(outcome) ==>
                traceId.Some? && (old(traceId).Some? ==> traceId == old(traceId)) &&
                (old(traceId).None? ==> IsTraceId(traceId.value))
      ensures !Escapes(outcome) ==>
                exists spanId :: IsSpanId(spanId) &&
                  calls == old(calls) + [ExportCall(Stamped(ToolFields(toolName, outcome, elapsedNanos, now),
                                                            traceId.value, spanId, ParentIdOf(stack), TOOL, name, workflowName, now))]
    {
      if Escapes(outcome) {
        return outcome;
      }
      var b := new SpanDataBuilder(now);
      b.ToolName(toolName);
      b.DurationMs(ElapsedMs(elapsedNanos));
      match outcome {
        case Returned(_) =>
          b.Status(OK);
        case Threw(e) =>
          b.Status(ERROR);
          b.IsError(true);
          b.ErrorMessage(e.message);
      }
      assert b.data == ToolFields(toolName, outcome, elapsedNanos, now);
      var _ := SendSpan(TOOL, name, b, now, true);
      r := outcome;
    }

    /** Starts a new trace, then traces the chain in it. */
    method TraceChain(name: Option<string>, outcome: Outcome, elapsedNanos: int, now: string) returns (r: Outcome)
      modifies this`traceId, this`calls
      ensures r == outcome
      ensures traceId.Some? && IsTraceId(traceId.value)
      ensures Escapes(outcome) ==> calls == old(calls)
      ensures !Escapes(outcome) ==>
                exists spanId :: IsSpanId(spanId) &&
                  calls == old(calls) + [ExportCall(Stamped(ChainFields(outcome, elapsedNanos, now),
                                                            traceId.value, spanId, ParentIdOf(stack), CHAIN, name, workflowName, now))]
    {
      var _ := NewTrace();
      if Escapes(outcome) {
        return outcome;
      }
      var b := new SpanDataBuilder(now);
      b.DurationMs(ElapsedMs(elapsedNanos));
      match outcome {
        case Returned(_) =>
          b.Status(OK);
        case Threw(e) =>
          b.Status(ERROR);
          b.IsError(true);
          b.ErrorMessage(e.message);
      }
      assert b.data == ChainFields(outcome, elapsedNanos, now);
      var _ := SendSpan(CHAIN, name, b, now, true);
      r := outcome;
    }

    /** Starts a new trace, then traces the agent run in it. */
    method TraceAgent(name: Option<string>, agentName: Option<string>, agentType: Option<string>,
                      outcome: Outcome, elapsedNanos: int, now: string) returns (r: Outcome)
      modifies this`traceId, this`calls
      ensures r == outcome
      ensures traceId.Some? && IsTraceId(traceId.value)
      ensures Escapes(outcome) ==> calls == old(calls)
      ensures !Escapes(outcome) ==>
                exists spanId :: IsSpanId(spanId) &&
                  calls == old(calls) + [ExportCall(Stamped(AgentFields(agentName, agentType, outcome, elapsedNanos, now),
                                                            traceId.value, spanId, ParentIdOf(stack), AGENT, name, workflowName, now))]
    {
      var _ := NewTrace();
      if Escapes(outcome) {
        return outcome;
      }
      var b := new SpanDataBuilder(now);
      b.AgentName(agentName);
      b.AgentType(agentType);
      b.DurationMs(ElapsedMs(elapsedNanos));
      match outcome {
        case Returned(_) =>
          b.Status(OK);
        case Threw(e) =>
          b.Status(ERROR);
          b.IsError(true);
          b.ErrorMessage(e.message);
      }
      assert b.data == AgentFields(agentName, agentType, outcome, elapsedNanos, now);
      var _ := SendSpan(AGENT, name, b, now, true);
      r := outcome;
    }
  }

  /** The process-wide instance behind `getInstance()`. */
  class Registry {
    var instance: Option<GenAITelemetry>

    constructor()
      ensures instance.None?
    {
      instance := None;
    }

    /** Fails until an instance has been set up. */
    method GetInstance() returns (r: Result<GenAITelemetry>)
      ensures instance.None? <==> r.Fail?
      ensures instance.Some? ==> r == Ok(instance.value)
    {
      if instance.None? {
        return Fail(IllegalState("Call setupTelemetry() first"));
      }
      return Ok(instance.value);
    }

    /** `setupTelemetry`: replaces the instance and starts its exporter. */
    method SetupTelemetry(workflowName: Option<string>, serviceName: Option<string>) returns (t: GenAITelemetry)
      modifies this
      ensures fresh(t) && instance == Some(t)
      ensures t.workflowName == workflowName
      ensures t.serviceName == if serviceName.Some? then serviceName else workflowName
      ensures t.calls == [StartCall] && t.stack == [] && t.traceId.None?
    {
      t := new GenAITelemetry(workflowName, serviceName);
      t.Start();
      instance := Some(t);
    }

    /** `GenAITelemetry.Builder.build()`: a workflow name and an exporter are
        required; the new instance replaces the old one but is not started. */
    method BuildTelemetry(workflowName: Option<string>, serviceName: Option<string>, hasExporter: bool)
      returns (r: Result<GenAITelemetry>)
      modifies this
      ensures workflowName.None? ==> r == Fail(IllegalArgument("workflowName is required")) && instance == old(instance)
      ensures workflowName.Some? && !hasExporter ==> r == Fail(IllegalArgument("exporter is required")) && instance == old(instance)
      ensures workflowName.Some? && hasExporter ==>
                r.Ok? && fresh(r.value) && instance == Some(r.value) && r.value.calls == [] &&
                r.value.workflowName == workflowName &&
                r.value.serviceName == (if serviceName.Some? then serviceName else workflowName)
    {
      if workflowName.None? {
        return Fail(IllegalArgument("workflowName is required"));
      }
      if !hasExporter {
        return Fail(IllegalArgument("exporter is required"));
      }
      var t := new GenAITelemetry(workflowName, serviceName);
      instance := Some(t);
      return Ok(t);
    }
  }
}
