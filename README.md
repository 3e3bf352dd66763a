# genai-telemetry in Dafny

A model of the genai-telemetry SDK in Dafny, covering two parts.

**The Java tracing core**
- Spans: the in-flight `Span`, the `SpanData` record and its builder.
- The `GenAITelemetry` trace manager. It holds the trace id and the span stack of one execution context, and has the `traceX` helpers that record one span per call and hand back the call's own result or error.
- The id generator.
- The token and content extractor that reads LLM replies.
- The exporter contract and the multi-exporter fan-out.
- Six network exporters: OTLP, Splunk HEC, Elasticsearch, Datadog, Loki and CloudWatch. All six share one batch buffer.
- The Prometheus aggregator, which keeps per-workflow/model summaries and counters and pushes them to a Pushgateway.

**The Python instrumentation bookkeeping**
- The instrumentor base class, with its idempotent `instrument`/`uninstrument` and `wrap_method`/`unwrap_method`.
- The `auto_instrument`/`uninstrument` registry.
- The LangChain model-info and document-count helpers.

## Module layout

| file | models |
|---|---|
| `common.dfy` | Option/Result, Java `int` wrap-around, and the Java string operations the exporters use: `toLowerCase`, `contains`, `replace`, `split(":")`, the `/$` regex, `String.valueOf` |
| `json.dfy` | a JSON value, HTTP replies, reading a field |
| `ids.dfy` | `IdGenerator` |
| `span_data.dfy` | `SpanType`, `SpanStatus`, `SpanData` and `SpanData.Builder` |
| `span.dfy` | `Span` |
| `telemetry.dfy` | `GenAITelemetry` and its static singleton and builder |
| `token_extractor.dfy` | `TokenExtractor` |
| `exporters.dfy` | `BaseExporter` defaults and `MultiExporter` |
| `otlp.dfy`, `splunk.dfy`, `elasticsearch.dfy`, `datadog.dfy`, `loki.dfy`, `cloudwatch.dfy` | what each exporter puts on the wire: URL normalisation, authentication, payload construction, acceptance rules, builder defaults and argument checks |
| `batching.dfy` | the batch buffer, `start`/`stop`/`flush`/`export`/`sendBatch`/`healthCheck`, shared by the six exporters as one class over a backend value |
| `grouping.dfy` | `computeIfAbsent(...).add` grouping, used by Loki |
| `prometheus.dfy` | `PrometheusExporter` |
| `instrumentor.dfy` | `base.py` |
| `auto_instrument.dfy` | `auto.py` |
| `langchain.dfy` | `langchain_inst.py`: model info and document count |

Inputs the code does not control are parameters:
- the clock, as nanosecond readings and `Instant.now()` strings;
- `Instant.parse`, as a function `string -> Option<int>`;
- Base64;
- HTTP and AWS replies;
- whether a framework is installed or importable;
- whether an `_instrument`/`_uninstrument` hook completes or raises.

Random ids are a nondeterministic choice of one hex digit per position.

Some behaviour of the source is modelled as written, with a lemma that shows it:
- **Loki, model-less spans.** A span without a model name makes the `keyParts[3]` lookup throw, so the whole batch is not sent. See `Loki.ModelLessSpanFailsBatch` and `Batching.LokiModelLessSpanSendsNothing`.
- **Prometheus, ':' in a model name.** The label is cut at the first ':'. See `Prometheus.ColonInModelTruncates`.
- **Prometheus, empty names.** A span with an empty workflow and an empty model adds a `":"` key. That key makes every later payload fail. See `Prometheus.EmptyNamesPoisonThePayload`.
- **Datadog, bad ids.** A trace or span id that is not hex fails the whole batch.
- **OTLP, missing service name.** A null `serviceName` fails the whole batch through `Map.of`.
- **Batched `export`.** It reports success even when the flush it triggers fails.
- **Prometheus, falling token totals.** Token counts are added as they come, so a span with a negative count lowers a key's running total. See `Prometheus.TokenTotalsCanFall`.
- **Double wrapping.** Wrapping the same method twice overwrites the stored original with the first wrapper. See `Instrumentation.DoubleWrapKeepsFirstWrapper`.

## Model

| member | source | states |
|---|---|---|
| Common.WrapInt32 | java/src/main/java/io/github/genaitelemetry/core/SpanData.java:262-271 | Java `int` arithmetic: the result is the unique 32-bit value congruent to the exact sum, and equals it when it fits |
| Common.AddInt32Wraps | java/src/main/java/io/github/genaitelemetry/core/SpanData.java:267 | a token total above 2^31-1 wraps to a negative number, exactly sum − 2^32 |
| Common.Lower | genai_telemetry/instrumentation/auto.py:141-147 | lower-casing keeps the length and lower-cases each character |
| Common.EqualsIgnoreCase | java/src/main/java/io/github/genaitelemetry/utils/TokenExtractor.java:220 | equal ignoring case iff the same length and equal character by character after lower-casing |
| Common.ReplaceAllRemoves | java/src/main/java/io/github/genaitelemetry/exporters/CloudWatchExporter.java:43-45 | replacing one character by another keeps the length and leaves no occurrence of the replaced character |
| Common.ReplaceAllKeepsAbsent | java/src/main/java/io/github/genaitelemetry/exporters/CloudWatchExporter.java:43-45 | a replacement never introduces a character absent from the input and the replacement |
| Common.ReplaceAll | java/src/main/java/io/github/genaitelemetry/exporters/CloudWatchExporter.java:43-45 | replacing the target by itself leaves every string unchanged |
| Common.ReplaceAllPointwise | java/src/main/java/io/github/genaitelemetry/exporters/CloudWatchExporter.java:44 | replacing one character by another keeps the length and rewrites each position on its own: the target becomes the replacement, every other character stays |
| Common.StripTrailingSlash | java/src/main/java/io/github/genaitelemetry/exporters/OTLPExporter.java:39-41 | the `/$` regex removes at most one character, and removes the final '/' when there is one |
| Common.StripTrailingSlashKeeps | java/src/main/java/io/github/genaitelemetry/exporters/OTLPExporter.java:39 | a URL that does not end in '/' (or a line terminator) is left unchanged |
| Common.IndexOfChar | java/src/main/java/io/github/genaitelemetry/exporters/LokiExporter.java:114 | finds the first occurrence of the separator, and reports none exactly when it is absent |
| Common.SplitAll | java/src/main/java/io/github/genaitelemetry/exporters/LokiExporter.java:114 | splitting always yields at least one part |
| Common.JavaSplit | java/src/main/java/io/github/genaitelemetry/exporters/LokiExporter.java:114 | a string without the separator is its own single part; no part holds the separator, and when it was split the last part is not empty |
| Common.DropTrailingEmpty | java/src/main/java/io/github/genaitelemetry/exporters/LokiExporter.java:114 | Java's `split` drops exactly the trailing empty parts: the result is a prefix that does not end in "" and everything dropped is "" |
| Common.SplitAllCons | java/src/main/java/io/github/genaitelemetry/exporters/LokiExporter.java:114 | splitting a separator-free head followed by the separator gives the head followed by the split of the rest |
| Common.SplitAllNoSep | java/src/main/java/io/github/genaitelemetry/exporters/LokiExporter.java:114 | a string without the separator splits into itself |
| Common.NatToString | java/src/main/java/io/github/genaitelemetry/exporters/OTLPExporter.java:134-135 | `String.valueOf` of a non-negative number is a non-empty decimal numeral |
| Common.IntToString | java/src/main/java/io/github/genaitelemetry/exporters/LokiExporter.java:131 | the numeral is non-empty and starts with '-' exactly for negative numbers |
| Common.IntToStringValue | java/src/main/java/io/github/genaitelemetry/exporters/LokiExporter.java:131 | a negative number prints as '-' and the numeral of its magnitude, any other as its own numeral, and the digits read back as the magnitude |
| Common.NatToStringRoundTrip | java/src/main/java/io/github/genaitelemetry/exporters/OTLPExporter.java:134-135 | reading back the decimal numeral gives the original number |
| Common.Traverse | java/src/main/java/io/github/genaitelemetry/exporters/OTLPExporter.java:171-173 | mapping a fallible conversion over a batch succeeds iff every element converts, keeps order and length, and otherwise fails with the first element's failure |
| Common.FirstFailure | java/src/main/java/io/github/genaitelemetry/exporters/OTLPExporter.java:171-173 | the batch fails with exactly the failure of the first element that does not convert |
| JsonValues.Get | java/src/main/java/io/github/genaitelemetry/utils/TokenExtractor.java:159-193 | a field is present exactly when the node is an object that has it |
| JsonValues.AsText | java/src/main/java/io/github/genaitelemetry/utils/TokenExtractor.java:220-250 | `asText` gives a string node's text and "" for arrays and objects |
| IdGenerator.RandomHex | java/src/main/java/io/github/genaitelemetry/utils/IdGenerator.java:20-27 | the id has exactly the requested length and only lowercase hex digits |
| IdGenerator.GenerateTraceId | java/src/main/java/io/github/genaitelemetry/utils/IdGenerator.java:32-34 | a trace id is 32 lowercase hex digits |
| IdGenerator.GenerateSpanId | java/src/main/java/io/github/genaitelemetry/utils/IdGenerator.java:39-41 | a span id is 16 lowercase hex digits |
| SpanRecords.TypeNamesDistinct | java/src/main/java/io/github/genaitelemetry/core/SpanType.java:6-19 | the wire names of span types are distinct, so the name determines the type |
| SpanRecords.EmptySpanData | java/src/main/java/io/github/genaitelemetry/core/SpanData.java:40-44 | a fresh record has status "OK", isError 0, the current timestamp, no total and no custom attributes |
| SpanRecords.WithDerivedTotal | java/src/main/java/io/github/genaitelemetry/core/SpanData.java:262-271 | `build()` changes only totalTokens: an explicit total is kept; otherwise the total is the wrapped input+output when both are set; otherwise it stays null |
| SpanRecords.DerivedTotalIdempotent | java/src/main/java/io/github/genaitelemetry/core/SpanData.java:262-271 | building twice gives the same record as building once |
| SpanRecords.ExplicitTotalWins | java/src/main/java/io/github/genaitelemetry/core/SpanData.java:264 | an explicitly set total is not overwritten by input+output, whatever the counts |
| SpanRecords.DerivedTotalExact | java/src/main/java/io/github/genaitelemetry/core/SpanData.java:267 | without overflow the derived total is exactly input + output |
| SpanRecords.SpanDataBuilder.constructor | java/src/main/java/io/github/genaitelemetry/core/SpanData.java:105-113 | a new builder wraps the default record stamped with the current time |
| SpanRecords.SpanDataBuilder.TraceId | java/src/main/java/io/github/genaitelemetry/core/SpanData.java:117-120 | sets traceId and nothing else |
| SpanRecords.SpanDataBuilder.SpanId | java/src/main/java/io/github/genaitelemetry/core/SpanData.java:122-125 | sets spanId and nothing else |
| SpanRecords.SpanDataBuilder.ParentSpanId | java/src/main/java/io/github/genaitelemetry/core/SpanData.java:127-130 | sets parentSpanId and nothing else |
| SpanRecords.SpanDataBuilder.Name | java/src/main/java/io/github/genaitelemetry/core/SpanData.java:132-135 | sets name and nothing else |
| SpanRecords.SpanDataBuilder.SpanTypeOf | java/src/main/java/io/github/genaitelemetry/core/SpanData.java:137-140 | sets spanType to the enum's wire name and nothing else |
| SpanRecords.SpanDataBuilder.SpanTypeText | java/src/main/java/io/github/genaitelemetry/core/SpanData.java:142-145 | sets spanType to the given text and nothing else |
| SpanRecords.SpanDataBuilder.WorkflowName | java/src/main/java/io/github/genaitelemetry/core/SpanData.java:147-150 | sets workflowName and nothing else |
| SpanRecords.SpanDataBuilder.Timestamp | java/src/main/java/io/github/genaitelemetry/core/SpanData.java:152-155 | sets timestamp and nothing else |
| SpanRecords.SpanDataBuilder.DurationMs | java/src/main/java/io/github/genaitelemetry/core/SpanData.java:157-160 | sets durationMs and nothing else |
| SpanRecords.SpanDataBuilder.Status | java/src/main/java/io/github/genaitelemetry/core/SpanData.java:162-165 | sets status to the enum's name and nothing else |
| SpanRecords.SpanDataBuilder.IsError | java/src/main/java/io/github/genaitelemetry/core/SpanData.java:167-170 | stores the flag as 1 or 0 and changes nothing else |
| SpanRecords.SpanDataBuilder.ErrorMessage | java/src/main/java/io/github/genaitelemetry/core/SpanData.java:172-175 | sets errorMessage and nothing else |
| SpanRecords.SpanDataBuilder.ErrorType | java/src/main/java/io/github/genaitelemetry/core/SpanData.java:177-180 | sets errorType and nothing else |
| SpanRecords.SpanDataBuilder.ModelName | java/src/main/java/io/github/genaitelemetry/core/SpanData.java:182-185 | sets modelName and nothing else |
| SpanRecords.SpanDataBuilder.ModelProvider | java/src/main/java/io/github/genaitelemetry/core/SpanData.java:187-190 | sets modelProvider and nothing else |
| SpanRecords.SpanDataBuilder.InputTokens | java/src/main/java/io/github/genaitelemetry/core/SpanData.java:192-195 | sets inputTokens and nothing else |
| SpanRecords.SpanDataBuilder.OutputTokens | java/src/main/java/io/github/genaitelemetry/core/SpanData.java:197-200 | sets outputTokens and nothing else |
| SpanRecords.SpanDataBuilder.TotalTokens | java/src/main/java/io/github/genaitelemetry/core/SpanData.java:202-205 | sets totalTokens and nothing else |
| SpanRecords.SpanDataBuilder.Temperature | java/src/main/java/io/github/genaitelemetry/core/SpanData.java:207-210 | sets temperature and nothing else |
| SpanRecords.SpanDataBuilder.MaxTokens | java/src/main/java/io/github/genaitelemetry/core/SpanData.java:212-215 | sets maxTokens and nothing else |
| SpanRecords.SpanDataBuilder.EmbeddingModel | java/src/main/java/io/github/genaitelemetry/core/SpanData.java:217-220 | sets embeddingModel and nothing else |
| SpanRecords.SpanDataBuilder.EmbeddingDimensions | java/src/main/java/io/github/genaitelemetry/core/SpanData.java:222-225 | sets embeddingDimensions and nothing else |
| SpanRecords.SpanDataBuilder.VectorStore | java/src/main/java/io/github/genaitelemetry/core/SpanData.java:227-230 | sets vectorStore and nothing else |
| SpanRecords.SpanDataBuilder.DocumentsRetrieved | java/src/main/java/io/github/genaitelemetry/core/SpanData.java:232-235 | sets documentsRetrieved and nothing else |
| SpanRecords.SpanDataBuilder.RelevanceScore | java/src/main/java/io/github/genaitelemetry/core/SpanData.java:237-240 | sets relevanceScore and nothing else |
| SpanRecords.SpanDataBuilder.ToolName | java/src/main/java/io/github/genaitelemetry/core/SpanData.java:242-245 | sets toolName and nothing else |
| SpanRecords.SpanDataBuilder.AgentName | java/src/main/java/io/github/genaitelemetry/core/SpanData.java:247-250 | sets agentName and nothing else |
| SpanRecords.SpanDataBuilder.AgentType | java/src/main/java/io/github/genaitelemetry/core/SpanData.java:252-255 | sets agentType and nothing else |
| SpanRecords.SpanDataBuilder.Attribute | java/src/main/java/io/github/genaitelemetry/core/SpanData.java:257-260 | adds or overwrites one custom attribute and changes nothing else |
| SpanRecords.SpanDataBuilder.Build | java/src/main/java/io/github/genaitelemetry/core/SpanData.java:262-271 | returns the wrapped record with the derived total written into it |
| Spans.RoundedMs | java/src/main/java/io/github/genaitelemetry/core/Span.java:100-101 | a non-negative elapsed time gives a non-negative duration |
| Spans.RoundedMsMonotone | java/src/main/java/io/github/genaitelemetry/core/Span.java:100-101 | a longer elapsed time never gives a shorter rounded duration |
| Spans.Span.constructor | java/src/main/java/io/github/genaitelemetry/core/Span.java:58-67 | a new span carries its ids, name, type, workflow, parent and start time; it is unfinished, status OK, with no error, zero counts and no attributes |
| Spans.Span.SetAttribute | java/src/main/java/io/github/genaitelemetry/core/Span.java:72-75 | adds or overwrites one attribute |
| Spans.Span.SetError | java/src/main/java/io/github/genaitelemetry/core/Span.java:80-86 | marks the span ERROR with the exception's message and class name |
| Spans.Span.Finish | java/src/main/java/io/github/genaitelemetry/core/Span.java:91-106 | records the end time and the rounded duration; an error marks the span failed, no error leaves the status untouched |
| Spans.Span.SetModelName | java/src/main/java/io/github/genaitelemetry/core/Span.java:170 | sets only modelName |
| Spans.Span.SetModelProvider | java/src/main/java/io/github/genaitelemetry/core/Span.java:173 | sets only modelProvider |
| Spans.Span.SetInputTokens | java/src/main/java/io/github/genaitelemetry/core/Span.java:176 | sets only inputTokens |
| Spans.Span.SetOutputTokens | java/src/main/java/io/github/genaitelemetry/core/Span.java:179 | sets only outputTokens |
| Spans.Span.SetTemperature | java/src/main/java/io/github/genaitelemetry/core/Span.java:182 | sets only temperature |
| Spans.Span.SetMaxTokens | java/src/main/java/io/github/genaitelemetry/core/Span.java:185 | sets only maxTokens |
| Spans.Span.SetEmbeddingModel | java/src/main/java/io/github/genaitelemetry/core/Span.java:188 | sets only embeddingModel |
| Spans.Span.SetEmbeddingDimensions | java/src/main/java/io/github/genaitelemetry/core/Span.java:191 | sets only embeddingDimensions |
| Spans.Span.SetVectorStore | java/src/main/java/io/github/genaitelemetry/core/Span.java:194 | sets only vectorStore |
| Spans.Span.SetDocumentsRetrieved | java/src/main/java/io/github/genaitelemetry/core/Span.java:197 | sets only documentsRetrieved |
| Spans.Span.SetRelevanceScore | java/src/main/java/io/github/genaitelemetry/core/Span.java:200 | sets only relevanceScore |
| Spans.Span.SetToolName | java/src/main/java/io/github/genaitelemetry/core/Span.java:203 | sets only toolName |
| Spans.Span.SetAgentName | java/src/main/java/io/github/genaitelemetry/core/Span.java:206 | sets only agentName |
| Spans.Span.SetAgentType | java/src/main/java/io/github/genaitelemetry/core/Span.java:209 | sets only agentType |
| Spans.Span.ToSpanData | java/src/main/java/io/github/genaitelemetry/core/Span.java:111-154 | the exported record copies every field of the span. An LLM span always carries input, output and their wrapped total. Other types carry a count only when it is positive, and a total only when both are. Documents are exported only when positive. isError is 1 exactly for failed spans. Unfinished spans report duration 0 |
| Telemetry.ParentIdOf | java/src/main/java/io/github/genaitelemetry/core/GenAITelemetry.java:93-111 | a span has a parent id exactly when a span is open on the stack |
| Telemetry.Stamped | java/src/main/java/io/github/genaitelemetry/core/GenAITelemetry.java:93-111 | `sendSpan` stamps trace id, fresh span id, current parent, type, name, workflow and time, keeps the helper's status, error and token fields, and derives the total as `build()` does |
| Telemetry.StatusFields | java/src/main/java/io/github/genaitelemetry/core/GenAITelemetry.java:113-151 | a returning call is recorded OK; a throwing call is recorded ERROR with isError 1 and the exception's message |
| Telemetry.LLMSuccessCarriesTokens | java/src/main/java/io/github/genaitelemetry/core/GenAITelemetry.java:113-151 | a successful LLM call exports status OK, no error, the extracted input and output counts, their wrapped total, and the model and provider |
| Telemetry.LLMFailureCarriesError | java/src/main/java/io/github/genaitelemetry/core/GenAITelemetry.java:113-151 | a failed LLM call exports ERROR with the message and class name, and no token counts |
| Telemetry.OtherHelpersOmitErrorType | java/src/main/java/io/github/genaitelemetry/core/GenAITelemetry.java:153-318 | only the LLM helper records the exception's class name; the embedding, retrieval, tool, chain and agent helpers do not |
| Telemetry.EmbeddingHasNoTotal | java/src/main/java/io/github/genaitelemetry/core/GenAITelemetry.java:153-186 | an embedding span never carries a total token count |
| Telemetry.GenAITelemetry.constructor | java/src/main/java/io/github/genaitelemetry/core/GenAITelemetry.java:28-32 | serviceName defaults to workflowName; no trace, empty stack, nothing sent |
| Telemetry.GenAITelemetry.GetTraceId | java/src/main/java/io/github/genaitelemetry/core/GenAITelemetry.java:34-41 | returns the current trace id, and lazily creates a 32-digit hex one when there is none |
| Telemetry.GenAITelemetry.SetTraceId | java/src/main/java/io/github/genaitelemetry/core/GenAITelemetry.java:43-45 | replaces the trace id |
| Telemetry.GenAITelemetry.NewTrace | java/src/main/java/io/github/genaitelemetry/core/GenAITelemetry.java:47-51 | installs and returns a fresh 32-digit hex trace id |
| Telemetry.GenAITelemetry.CurrentSpan | java/src/main/java/io/github/genaitelemetry/core/GenAITelemetry.java:53-56 | the current span is the top of the stack, and none exactly when the stack is empty |
| Telemetry.GenAITelemetry.Start | java/src/main/java/io/github/genaitelemetry/core/GenAITelemetry.java:58-60 | forwards exactly one start to the exporter |
| Telemetry.GenAITelemetry.Stop | java/src/main/java/io/github/genaitelemetry/core/GenAITelemetry.java:62-64 | forwards exactly one stop to the exporter |
| Telemetry.GenAITelemetry.StartSpan | java/src/main/java/io/github/genaitelemetry/core/GenAITelemetry.java:66-75 | pushes a new unfinished span with a 16-digit id, the current trace id (created as a 32-digit hex id if absent) and the previous top as parent |
| Telemetry.GenAITelemetry.EndSpan | java/src/main/java/io/github/genaitelemetry/core/GenAITelemetry.java:77-91 | on an empty stack nothing happens; otherwise pops the top span, finishes it with the end time and optional error, and exports exactly that span; only the fields `finish` and `setError` write can change |
| Telemetry.GenAITelemetry.SendSpan | java/src/main/java/io/github/genaitelemetry/core/GenAITelemetry.java:93-111 | exports exactly one stamped record built from the builder's fields with a 16-digit span id, keeps the trace id or creates a 32-digit one, and returns the exporter's answer |
| Telemetry.GenAITelemetry.TraceLLM | java/src/main/java/io/github/genaitelemetry/core/GenAITelemetry.java:113-151 | hands back the call's own result or error unchanged; exports exactly one LLM span describing it, under the current or a new 32-digit trace id, unless an `Error` escapes, which sends nothing and changes nothing |
| Telemetry.GenAITelemetry.TraceEmbedding | java/src/main/java/io/github/genaitelemetry/core/GenAITelemetry.java:153-186 | hands back the call's own outcome and exports exactly one EMBEDDING span, unless an `Error` escapes, which sends nothing and changes nothing |
| Telemetry.GenAITelemetry.TraceRetrieval | java/src/main/java/io/github/genaitelemetry/core/GenAITelemetry.java:188-221 | hands back the call's own outcome and exports exactly one RETRIEVER span with the document count, unless an `Error` escapes, which sends nothing and changes nothing |
| Telemetry.GenAITelemetry.TraceTool | java/src/main/java/io/github/genaitelemetry/core/GenAITelemetry.java:223-253 | hands back the call's own outcome and exports exactly one TOOL span, unless an `Error` escapes, which sends nothing and changes nothing |
| Telemetry.GenAITelemetry.TraceChain | java/src/main/java/io/github/genaitelemetry/core/GenAITelemetry.java:255-284 | starts a new 32-digit trace, hands back the call's own outcome and exports exactly one CHAIN span, unless an `Error` escapes, which sends nothing |
| Telemetry.GenAITelemetry.TraceAgent | java/src/main/java/io/github/genaitelemetry/core/GenAITelemetry.java:286-318 | starts a new 32-digit trace, hands back the call's own outcome and exports exactly one AGENT span, unless an `Error` escapes, which sends nothing |
| Telemetry.Registry.constructor | java/src/main/java/io/github/genaitelemetry/core/GenAITelemetry.java:325-330 | no singleton exists before setup |
| Telemetry.Registry.GetInstance | java/src/main/java/io/github/genaitelemetry/core/GenAITelemetry.java:325-330 | fails exactly when telemetry was never set up, otherwise returns the installed instance |
| Telemetry.Registry.SetupTelemetry | java/src/main/java/io/github/genaitelemetry/core/GenAITelemetry.java:332-341 | installs a fresh instance as the singleton and starts its exporter once |
| Telemetry.Registry.BuildTelemetry | java/src/main/java/io/github/genaitelemetry/core/GenAITelemetry.java:367-377 | a missing workflowName or exporter is an IllegalArgument error that leaves the singleton alone; otherwise a fresh instance becomes the singleton |
| TokenExtractor.NumberField | java/src/main/java/io/github/genaitelemetry/utils/TokenExtractor.java:159-193 | a count is read exactly when the usage object has that field as a number |
| TokenExtractor.OpenAIUsage | java/src/main/java/io/github/genaitelemetry/utils/TokenExtractor.java:121-157 | non-zero `prompt_tokens`/`completion_tokens` are the counts |
| TokenExtractor.AnthropicUsage | java/src/main/java/io/github/genaitelemetry/utils/TokenExtractor.java:121-157 | with only `input_tokens`/`output_tokens`, those are the counts |
| TokenExtractor.NoUsageMeansZero | java/src/main/java/io/github/genaitelemetry/utils/TokenExtractor.java:26-55 | a null reply, an unparseable string or a reply without `usage` gives (0, 0) |
| TokenExtractor.ExtractTokens | java/src/main/java/io/github/genaitelemetry/utils/TokenExtractor.java:26-55 | without a `usage` object both counts are 0; otherwise each count is a non-zero OpenAI-style number, else the Anthropic-style number, else 0 |
| TokenExtractor.CountsIndependent | java/src/main/java/io/github/genaitelemetry/utils/TokenExtractor.java:121-157 | the input count depends only on the `prompt_tokens` and `input_tokens` fields |
| TokenExtractor.AnthropicTextConcat | java/src/main/java/io/github/genaitelemetry/utils/TokenExtractor.java:220-233 | the Anthropic text of concatenated block lists is the concatenation of their texts |
| TokenExtractor.AnthropicTextSkipsOtherBlocks | java/src/main/java/io/github/genaitelemetry/utils/TokenExtractor.java:220-233 | blocks that are not `type: text` contribute nothing |
| TokenExtractor.ExtractContent | java/src/main/java/io/github/genaitelemetry/utils/TokenExtractor.java:202-263 | the block-appending loop computes the content of the reply as defined by provider, choices and `content` rules |
| TokenExtractor.AnthropicContentJoined | java/src/main/java/io/github/genaitelemetry/utils/TokenExtractor.java:220-233 | an Anthropic reply's content is the text blocks joined in order, skipping other blocks |
| TokenExtractor.OpenAIContent | java/src/main/java/io/github/genaitelemetry/utils/TokenExtractor.java:236-250 | an OpenAI reply's content is `choices[0].message.content` |
| Exporters.AllSucceeded | java/src/main/java/io/github/genaitelemetry/exporters/BaseExporter.java:27-39 | the AND reduction is true iff every result is true |
| Exporters.AnySucceeded | java/src/main/java/io/github/genaitelemetry/exporters/MultiExporter.java:48-94 | the OR reduction is true iff some result is true |
| Exporters.JoinAll | java/src/main/java/io/github/genaitelemetry/exporters/BaseExporter.java:27-39 | the loop over per-span results computes the AND reduction |
| Exporters.JoinAny | java/src/main/java/io/github/genaitelemetry/exporters/MultiExporter.java:48-62 | the loop over member results computes the OR reduction |
| Exporters.DefaultExportBatchCalls | java/src/main/java/io/github/genaitelemetry/exporters/BaseExporter.java:27-39 | the default `exportBatch` calls `export` once per span, in order |
| Exporters.DefaultBatchAllOrNothing | java/src/main/java/io/github/genaitelemetry/exporters/BaseExporter.java:27-39 | one failed span makes the default batch export fail |
| Exporters.Broadcast | java/src/main/java/io/github/genaitelemetry/exporters/MultiExporter.java:25-94 | a call is delivered to each member in order, once |
| Exporters.BroadcastOncePerMember | java/src/main/java/io/github/genaitelemetry/exporters/MultiExporter.java:25-94 | every member receives the call exactly once, and nothing else receives it |
| Exporters.FanOutOneSuffices | java/src/main/java/io/github/genaitelemetry/exporters/MultiExporter.java:48-62 | one successful member makes the fan-out succeed |
| Exporters.MultiExporter.constructor | java/src/main/java/io/github/genaitelemetry/exporters/MultiExporter.java:16-23 | holds the given members and has delivered nothing |
| Exporters.MultiExporter.Deliver | java/src/main/java/io/github/genaitelemetry/exporters/MultiExporter.java:25-94 | a call reaches every member once |
| Exporters.MultiExporter.Start | java/src/main/java/io/github/genaitelemetry/exporters/MultiExporter.java:25-30 | starts every member once |
| Exporters.MultiExporter.Stop | java/src/main/java/io/github/genaitelemetry/exporters/MultiExporter.java:32-37 | stops every member once |
| Exporters.MultiExporter.Flush | java/src/main/java/io/github/genaitelemetry/exporters/MultiExporter.java:39-46 | flushes every member once |
| Exporters.MultiExporter.Export | java/src/main/java/io/github/genaitelemetry/exporters/MultiExporter.java:48-62 | sends the span to every member and succeeds iff some member succeeded |
| Exporters.MultiExporter.ExportBatch | java/src/main/java/io/github/genaitelemetry/exporters/MultiExporter.java:64-77 | sends the batch to every member and succeeds iff some member succeeded |
| Exporters.MultiExporter.HealthCheck | java/src/main/java/io/github/genaitelemetry/exporters/MultiExporter.java:79-94 | probes every member and is healthy iff some member is |
| Otlp.TracesUrl | java/src/main/java/io/github/genaitelemetry/exporters/OTLPExporter.java:39-41 | the URL always contains `/v1/traces`: the endpoint as given when it already has it, otherwise the slash-stripped endpoint plus the path |
| Otlp.TracesUrlKeepsFullEndpoint | java/src/main/java/io/github/genaitelemetry/exporters/OTLPExporter.java:39-40 | an endpoint ending in `/v1/traces` is used unchanged |
| Otlp.TracesUrlAppendsPath | java/src/main/java/io/github/genaitelemetry/exporters/OTLPExporter.java:40-41 | a bare host gets `/v1/traces` appended |
| Otlp.Present | java/src/main/java/io/github/genaitelemetry/exporters/OTLPExporter.java:145-162 | dropping null attributes never lengthens the list |
| Otlp.PresentHas | java/src/main/java/io/github/genaitelemetry/exporters/OTLPExporter.java:145-162 | an attribute is emitted iff its value was non-null |
| Otlp.Candidate | java/src/main/java/io/github/genaitelemetry/exporters/OTLPExporter.java:107-124 | every candidate attribute carries the key it was offered under |
| Otlp.AttributesByKey | java/src/main/java/io/github/genaitelemetry/exporters/OTLPExporter.java:107-124 | the attribute list holds exactly the non-null values of the offered keys |
| Otlp.ErrorMessageAttribute | java/src/main/java/io/github/genaitelemetry/exporters/OTLPExporter.java:121-124 | `error.message` is emitted iff the span failed and has a message |
| Otlp.InputTokensAttribute | java/src/main/java/io/github/genaitelemetry/exporters/OTLPExporter.java:107-124 | the input-token attribute is present, as a decimal string, iff the span has an input count |
| Otlp.Truncate | java/src/main/java/io/github/genaitelemetry/exporters/OTLPExporter.java:102-103 | the `(long)` cast rounds toward zero |
| Otlp.SpanToOtlp | java/src/main/java/io/github/genaitelemetry/exporters/OTLPExporter.java:100-143 | converting a span succeeds iff its timestamp parses |
| Otlp.StatusFollowsErrorFlag | java/src/main/java/io/github/genaitelemetry/exporters/OTLPExporter.java:137-140 | status code 2 iff isError is 1, otherwise 1; no error message gives an empty status message |
| Otlp.NanosInOrder | java/src/main/java/io/github/genaitelemetry/exporters/OTLPExporter.java:102-103 | for non-negative times and durations, 0 ≤ start ≤ end |
| Otlp.EndNotBeforeStart | java/src/main/java/io/github/genaitelemetry/exporters/OTLPExporter.java:102-135 | the emitted start is the parsed milliseconds × 10^6, and the emitted end is not before it |
| Otlp.SpansToOtlp | java/src/main/java/io/github/genaitelemetry/exporters/OTLPExporter.java:171-173 | a batch converts iff every timestamp parses, span by span in order |
| Otlp.BuildPayload | java/src/main/java/io/github/genaitelemetry/exporters/OTLPExporter.java:171-193 | the payload exists iff serviceName is set and every span converts; it carries the converted spans and `service.name` |
| Otlp.NewConfig | java/src/main/java/io/github/genaitelemetry/exporters/OTLPExporter.java:37-54 | the stored endpoint contains `/v1/traces`; null headers become no headers |
| Otlp.DefaultConfig | java/src/main/java/io/github/genaitelemetry/exporters/OTLPExporter.java:238-243 | builder defaults: service "genai-app", batch 10, flush every 5000 ms, no headers |
| SplunkHec.CollectorUrl | java/src/main/java/io/github/genaitelemetry/exporters/SplunkHECExporter.java:39-42 | the URL always ends in `/services/collector/event` |
| SplunkHec.CollectorUrlIdempotent | java/src/main/java/io/github/genaitelemetry/exporters/SplunkHECExporter.java:39-42 | normalising an already normalised URL changes nothing |
| SplunkHec.Events | java/src/main/java/io/github/genaitelemetry/exporters/SplunkHECExporter.java:108-118 | one event per span, in order, carrying the span, the fixed source, and the configured index and sourcetype |
| SplunkHec.BuildEvents | java/src/main/java/io/github/genaitelemetry/exporters/SplunkHECExporter.java:108-118 | the event-building loop produces exactly those events |
| SplunkHec.AuthHeader | java/src/main/java/io/github/genaitelemetry/exporters/SplunkHECExporter.java:122 | `Authorization: Splunk <token>` |
| SplunkHec.HealthSpan | java/src/main/java/io/github/genaitelemetry/exporters/SplunkHECExporter.java:157-164 | the health probe sends a span named `health_check` of type HEALTH, status OK |
| SplunkHec.DefaultBuilder | java/src/main/java/io/github/genaitelemetry/exporters/SplunkHECExporter.java:170-175 | builder defaults: index `genai_traces`, sourcetype `genai:trace`, batch 1, flush 5000 ms, no URL or token |
| SplunkHec.Build | java/src/main/java/io/github/genaitelemetry/exporters/SplunkHECExporter.java:208-214 | fails with "hecUrl and hecToken are required" unless both are set; otherwise normalises the URL and keeps the rest |
| SplunkHec.DefaultsSendImmediately | java/src/main/java/io/github/genaitelemetry/exporters/SplunkHECExporter.java:170-214 | with the defaults every span is sent at once, with the token header |
| Elastic.NormaliseHosts | java/src/main/java/io/github/genaitelemetry/exporters/ElasticsearchExporter.java:43-45 | every host loses its trailing slash; count and order kept |
| Elastic.GetHost | java/src/main/java/io/github/genaitelemetry/exporters/ElasticsearchExporter.java:59-62 | returns the host at the counter and advances it modulo the host count; no hosts is an error |
| Elastic.Rotated | java/src/main/java/io/github/genaitelemetry/exporters/ElasticsearchExporter.java:59-62 | the host index after j calls stays in range |
| Elastic.Picks | java/src/main/java/io/github/genaitelemetry/exporters/ElasticsearchExporter.java:59-62 | k successive calls pick k hosts |
| Elastic.PicksRotate | java/src/main/java/io/github/genaitelemetry/exporters/ElasticsearchExporter.java:59-62 | the j-th pick is the host j places after the start, cyclically |
| Elastic.StepsTo | java/src/main/java/io/github/genaitelemetry/exporters/ElasticsearchExporter.java:59-62 | every host is reached within fewer calls than there are hosts |
| Elastic.RoundRobinVisitsEachHostOnce | java/src/main/java/io/github/genaitelemetry/exporters/ElasticsearchExporter.java:59-62 | n successive calls visit each of the n hosts exactly once |
| Elastic.AuthHeader | java/src/main/java/io/github/genaitelemetry/exporters/ElasticsearchExporter.java:64-73 | an Authorization header is added iff there is a non-empty API key or both username and password |
| Elastic.ApiKeyWins | java/src/main/java/io/github/genaitelemetry/exporters/ElasticsearchExporter.java:64-66 | a non-empty API key gives `ApiKey <key>`, whatever the credentials |
| Elastic.EmptyApiKeyFallsBackToBasic | java/src/main/java/io/github/genaitelemetry/exporters/ElasticsearchExporter.java:64-73 | an empty API key falls back to `Basic base64(user:password)` |
| Elastic.BulkLines | java/src/main/java/io/github/genaitelemetry/exporters/ElasticsearchExporter.java:126-135 | the bulk body is an index action followed by the document, per span in order |
| Elastic.BuildBulk | java/src/main/java/io/github/genaitelemetry/exporters/ElasticsearchExporter.java:126-135 | the body-building loop produces exactly that bulk payload |
| Elastic.BulkPayload | java/src/main/java/io/github/genaitelemetry/exporters/ElasticsearchExporter.java:126-135 | a non-empty batch fails iff the index is null; otherwise an index action precedes each span's document, in order |
| Elastic.BulkErrorsFlagDecides | java/src/main/java/io/github/genaitelemetry/exporters/ElasticsearchExporter.java:147-154 | a 200 reply is accepted iff its `errors` flag is absent or false |
| Elastic.BulkNeeds200 | java/src/main/java/io/github/genaitelemetry/exporters/ElasticsearchExporter.java:147-150 | any status other than 200 is a failure |
| Elastic.NewConfig | java/src/main/java/io/github/genaitelemetry/exporters/ElasticsearchExporter.java:40-57 | stores the normalised hosts and the chosen authentication |
| Elastic.DefaultConfig | java/src/main/java/io/github/genaitelemetry/exporters/ElasticsearchExporter.java:206-212 | builder defaults: `http://localhost:9200`, index `genai-traces`, no auth, batch 1, flush 5000 ms |
| Datadog.HexValue | java/src/main/java/io/github/genaitelemetry/exporters/DatadogExporter.java:51-55 | a hex numeral of k digits is below 16^k |
| Datadog.HexValueAppend | java/src/main/java/io/github/genaitelemetry/exporters/DatadogExporter.java:51-55 | the value of concatenated numerals is high × 16^|low| + low |
| Datadog.Last16 | java/src/main/java/io/github/genaitelemetry/exporters/DatadogExporter.java:53 | the last (at most) 16 characters are a suffix of the id |
| Datadog.ParseUnsignedHex | java/src/main/java/io/github/genaitelemetry/exporters/DatadogExporter.java:54 | a parsed value fits the digits read |
| Datadog.AsSignedLong | java/src/main/java/io/github/genaitelemetry/exporters/DatadogExporter.java:54 | `parseUnsignedLong` gives the signed 64-bit value congruent to the unsigned one |
| Datadog.HexToLong | java/src/main/java/io/github/genaitelemetry/exporters/DatadogExporter.java:51-55 | a converted id is a Java `long` |
| Datadog.TraceIdHalves | java/src/main/java/io/github/genaitelemetry/exporters/DatadogExporter.java:51-55 | a 128-bit trace id is its high half × 2^64 plus its low half |
| Datadog.TraceIdKeepsLow64Bits | java/src/main/java/io/github/genaitelemetry/exporters/DatadogExporter.java:51-55 | a 32-digit trace id converts to its low 64 bits, read as a signed long |
| Datadog.GeneratedIdsConvert | java/src/main/java/io/github/genaitelemetry/exporters/DatadogExporter.java:51-55 | every non-empty lowercase hex id, which includes every generated one, converts |
| Datadog.BadIdsRejected | java/src/main/java/io/github/genaitelemetry/exporters/DatadogExporter.java:51-55 | an empty id, or a short one starting with '-', is rejected |
| Datadog.PutIf | java/src/main/java/io/github/genaitelemetry/exporters/DatadogExporter.java:106-127 | adding an optional entry writes it only when present and leaves every other entry untouched |
| Datadog.NameTags | java/src/main/java/io/github/genaitelemetry/exporters/DatadogExporter.java:106-121 | the name tags always hold `span.type`, hold `workflow` iff it is set, hold exactly the keys with non-null values, and never hold error tags |
| Datadog.Meta | java/src/main/java/io/github/genaitelemetry/exporters/DatadogExporter.java:106-121 | `span.type` always; each name tag iff that name is set, with its value; `error.message` and `error.type` iff the span failed and has them, with their values |
| Datadog.Metrics | java/src/main/java/io/github/genaitelemetry/exporters/DatadogExporter.java:123-127 | each token or document metric is present iff the span has that count, with its value |
| Datadog.OptionInt | java/src/main/java/io/github/genaitelemetry/exporters/DatadogExporter.java:123-127 | a metric value is present iff the count is, with the same value |
| Datadog.SpanToDatadog | java/src/main/java/io/github/genaitelemetry/exporters/DatadogExporter.java:101-146 | a span converts iff its timestamp parses, its trace id, span id and any parent id are hex, and it has a type |
| Datadog.DdSpanShape | java/src/main/java/io/github/genaitelemetry/exporters/DatadogExporter.java:129-143 | the Datadog span's name is the lower-cased type, its resource is the span name, its error flag is copied, it has a parent iff the span has one, and its type is "custom" |
| Datadog.SpansToDatadog | java/src/main/java/io/github/genaitelemetry/exporters/DatadogExporter.java:155-157 | a batch converts iff every span converts, in order |
| Datadog.Payload | java/src/main/java/io/github/genaitelemetry/exporters/DatadogExporter.java:155-160 | the payload is a single trace holding every span |
| Datadog.IntakeUrl | java/src/main/java/io/github/genaitelemetry/exporters/DatadogExporter.java:163 | `https://trace.agent.<site>/api/v0.2/traces` |
| Datadog.ApiKeyHeader | java/src/main/java/io/github/genaitelemetry/exporters/DatadogExporter.java:165 | `DD-API-KEY: <key>` |
| Datadog.DefaultBuilder | java/src/main/java/io/github/genaitelemetry/exporters/DatadogExporter.java:205-209 | builder defaults: site `datadoghq.com`, service `genai-app`, batch 10, flush 5000 ms, no key |
| Datadog.Build | java/src/main/java/io/github/genaitelemetry/exporters/DatadogExporter.java:236-241 | fails with "apiKey is required" iff there is no key, otherwise keeps every setting |
| Datadog.DefaultIntake | java/src/main/java/io/github/genaitelemetry/exporters/DatadogExporter.java:163 | the default intake is `https://trace.agent.datadoghq.com/api/v0.2/traces` |
| Loki.PushUrl | java/src/main/java/io/github/genaitelemetry/exporters/LokiExporter.java:37-40 | the URL always contains `/loki/api/v1/push` |
| Loki.HealthUrlOfPushUrl | java/src/main/java/io/github/genaitelemetry/exporters/LokiExporter.java:200-202 | the health URL swaps the push path for `/ready` |
| Loki.StreamKey | java/src/main/java/io/github/genaitelemetry/exporters/LokiExporter.java:101-106 | the key is the four fields and three separators: it starts with the span type and ':' and ends with the model name |
| Loki.Labels | java/src/main/java/io/github/genaitelemetry/exporters/LokiExporter.java:114-122 | labels are job plus four or five entries, starting with `job=genai-telemetry` |
| Loki.SplitKey | java/src/main/java/io/github/genaitelemetry/exporters/LokiExporter.java:101-114 | the stream key splits into its three colon-free fields, then the model split at its colons |
| Loki.LabelsOfModelSpan | java/src/main/java/io/github/genaitelemetry/exporters/LokiExporter.java:101-122 | a span with a colon-free model gets job, span_type, workflow (default "default"), status and model labels |
| Loki.ModelLabelCutAtColon | java/src/main/java/io/github/genaitelemetry/exporters/LokiExporter.java:114-122 | a model name with ':' is labelled only up to the first ':' |
| Loki.ModelLessLabelsFail | java/src/main/java/io/github/genaitelemetry/exporters/LokiExporter.java:114-122 | a span with no or an empty model name makes the label lookup throw |
| Loki.Values | java/src/main/java/io/github/genaitelemetry/exporters/LokiExporter.java:124-134 | a stream has at most one value per span |
| Loki.SkipsOnlyUnparseable | java/src/main/java/io/github/genaitelemetry/exporters/LokiExporter.java:124-134 | a span whose timestamp does not parse is skipped and the rest are kept in order |
| Loki.ValuesOfParsable | java/src/main/java/io/github/genaitelemetry/exporters/LokiExporter.java:124-134 | when every timestamp parses, there is one value per span, in order, stamped with millis × 10^6 |
| Loki.StreamValues | java/src/main/java/io/github/genaitelemetry/exporters/LokiExporter.java:124-134 | the values loop produces exactly those values |
| Loki.StreamOf | java/src/main/java/io/github/genaitelemetry/exporters/LokiExporter.java:109-139 | a group's stream is built iff its key yields labels, and carries them |
| Loki.Streams | java/src/main/java/io/github/genaitelemetry/exporters/LokiExporter.java:97-144 | a built stream list has one stream per distinct key, each with four or five labels, the job label first |
| Loki.ModelLessSpanFailsBatch | java/src/main/java/io/github/genaitelemetry/exporters/LokiExporter.java:97-144 | one model-less span makes the whole stream list fail |
| Loki.StreamsOfLabelledBatch | java/src/main/java/io/github/genaitelemetry/exporters/LokiExporter.java:97-144 | when every span is labelable there is one stream per distinct key, carrying that key's labels and the values of exactly its spans |
| Loki.BuildStream | java/src/main/java/io/github/genaitelemetry/exporters/LokiExporter.java:109-139 | the per-group loop body produces that group's stream |
| Loki.StreamsAllBuilt | java/src/main/java/io/github/genaitelemetry/exporters/LokiExporter.java:109-143 | streams built for every key, in order, are the result |
| Loki.StreamsFailAt | java/src/main/java/io/github/genaitelemetry/exporters/LokiExporter.java:109-143 | the first key that cannot be labelled decides the failure |
| Loki.BuildStreams | java/src/main/java/io/github/genaitelemetry/exporters/LokiExporter.java:109-143 | the streams loop either builds one stream per key or stops at the first key whose stream fails |
| Loki.SpansToStreams | java/src/main/java/io/github/genaitelemetry/exporters/LokiExporter.java:97-144 | grouping then building computes exactly the stream list |
| Loki.NewConfig | java/src/main/java/io/github/genaitelemetry/exporters/LokiExporter.java:36-51 | the stored URL contains the push path; tenant, batch size and interval are kept |
| Loki.DefaultConfig | java/src/main/java/io/github/genaitelemetry/exporters/LokiExporter.java:221-224 | builder defaults: no tenant, batch 10, flush 5000 ms |
| Loki.DefaultUrls | java/src/main/java/io/github/genaitelemetry/exporters/LokiExporter.java:37-40 | the default push URL is `http://localhost:3100/loki/api/v1/push` and its health URL is `http://localhost:3100/ready` |
| Loki.Headers | java/src/main/java/io/github/genaitelemetry/exporters/LokiExporter.java:155-164 | JSON content type, plus `X-Scope-OrgID` iff a non-empty tenant is configured |
| CloudWatch.LogStreamName | java/src/main/java/io/github/genaitelemetry/exporters/CloudWatchExporter.java:43-45 | the name is `genai-telemetry-` followed by the clock reading, character for character, with every ':' and '.' turned into '-' |
| CloudWatch.LogStreamNameClean | java/src/main/java/io/github/genaitelemetry/exporters/CloudWatchExporter.java:43-45 | the stream name starts with `genai-telemetry-`, is as long as the prefix and the clock reading, and holds no ':' or '.' |
| CloudWatch.Insert | java/src/main/java/io/github/genaitelemetry/exporters/CloudWatchExporter.java:166 | inserting adds exactly one span |
| CloudWatch.SortByTimestamp | java/src/main/java/io/github/genaitelemetry/exporters/CloudWatchExporter.java:166 | sorting keeps exactly the same spans |
| CloudWatch.SortSorts | java/src/main/java/io/github/genaitelemetry/exporters/CloudWatchExporter.java:166 | the result is in `compareTo` order of timestamps |
| CloudWatch.SortIsStable | java/src/main/java/io/github/genaitelemetry/exporters/CloudWatchExporter.java:166 | spans with equal timestamps keep their relative order, as `List.sort` promises |
| CloudWatch.LexLeTotal | java/src/main/java/io/github/genaitelemetry/exporters/CloudWatchExporter.java:166 | any two timestamps are comparable |
| CloudWatch.LexLeTransitive | java/src/main/java/io/github/genaitelemetry/exporters/CloudWatchExporter.java:166 | the timestamp order is transitive |
| CloudWatch.LexLeAntisymmetric | java/src/main/java/io/github/genaitelemetry/exporters/CloudWatchExporter.java:166 | timestamps that compare both ways are equal |
| CloudWatch.EventOf | java/src/main/java/io/github/genaitelemetry/exporters/CloudWatchExporter.java:168-175 | a log event exists iff the timestamp parses, with the parsed time and the span as message |
| CloudWatch.LogEvents | java/src/main/java/io/github/genaitelemetry/exporters/CloudWatchExporter.java:166-175 | every event's timestamp is the parsed timestamp of the span it carries |
| CloudWatch.LogEventsOfBatch | java/src/main/java/io/github/genaitelemetry/exporters/CloudWatchExporter.java:166-175 | the events exist iff every timestamp parses; they hold exactly the batch's spans, sorted by timestamp |
| CloudWatch.NewConfig | java/src/main/java/io/github/genaitelemetry/exporters/CloudWatchExporter.java:36-46 | stores group, region and batch size, and the stream name derived from the start time |
| CloudWatch.DefaultConfig | java/src/main/java/io/github/genaitelemetry/exporters/CloudWatchExporter.java:229-232 | builder defaults: group `/genai/traces`, region `us-east-1`, batch 10, flush 5000 ms |
| CloudWatch.PutRequest | java/src/main/java/io/github/genaitelemetry/exporters/CloudWatchExporter.java:178-187 | the request names the group and stream, carries the events and the last sequence token |
| Grouping.GroupKeys | java/src/main/java/io/github/genaitelemetry/exporters/LokiExporter.java:99-108 | the group keys are distinct and include every element's key |
| Grouping.KeysComeFromElements | java/src/main/java/io/github/genaitelemetry/exporters/LokiExporter.java:99-108 | every group key is some element's key |
| Grouping.Members | java/src/main/java/io/github/genaitelemetry/exporters/LokiExporter.java:99-108 | a group is no larger than the input |
| Grouping.MembersHaveKey | java/src/main/java/io/github/genaitelemetry/exporters/LokiExporter.java:99-108 | a group holds only input elements with its key |
| Grouping.MembersEmptyUnlessKeyed | java/src/main/java/io/github/genaitelemetry/exporters/LokiExporter.java:99-108 | a key that is not a group key has no members |
| Grouping.GroupsPartition | java/src/main/java/io/github/genaitelemetry/exporters/LokiExporter.java:99-108 | the groups together hold every element exactly once |
| Grouping.GroupByKey | java/src/main/java/io/github/genaitelemetry/exporters/LokiExporter.java:99-108 | the `computeIfAbsent(...).add` loop yields exactly the group keys, each mapped to its members in input order |
| Batching.NextHost | java/src/main/java/io/github/genaitelemetry/exporters/ElasticsearchExporter.java:59-62 | the host counter stays a valid index |
| Batching.Transmit | java/src/main/java/io/github/genaitelemetry/exporters/OTLPExporter.java:164-214 | `sendBatch`: an empty batch succeeds and sends nothing. At most one request is sent, and nothing earlier changes. When one is sent, success is the backend's acceptance rule. When none is sent, the result is false, except CloudWatch without a client. Only Elasticsearch moves the host counter, and only CloudWatch changes the token, to the reply's |
| Batching.Health | java/src/main/java/io/github/genaitelemetry/exporters/BaseExporter.java:67-69 | OTLP, Datadog and CloudWatch use the default `true`; Loki answers by its `/ready` rule; Elasticsearch takes a host turn |
| Batching.LokiModelLessSpanSendsNothing | java/src/main/java/io/github/genaitelemetry/exporters/LokiExporter.java:146-176 | a batch with a model-less span fails and sends nothing |
| Batching.LokiStreamsFailSendsNothing | java/src/main/java/io/github/genaitelemetry/exporters/LokiExporter.java:146-176 | when the streams cannot be built, the batch fails and sends nothing |
| Batching.UnbuildableSendsNothing | java/src/main/java/io/github/genaitelemetry/exporters/OTLPExporter.java:164-214 | an exception while building the request means the batch fails and nothing is sent |
| Batching.BuiltRequestGoesOut | java/src/main/java/io/github/genaitelemetry/exporters/OTLPExporter.java:164-214 | a built request is sent exactly once; success, host counter and token follow the reply |
| Batching.DatadogBadIdSendsNothing | java/src/main/java/io/github/genaitelemetry/exporters/DatadogExporter.java:148-180 | a span with an unparseable trace id makes the batch fail unsent |
| Batching.OtlpNullServiceSendsNothing | java/src/main/java/io/github/genaitelemetry/exporters/OTLPExporter.java:175-181 | a null serviceName makes every non-empty batch fail unsent |
| Batching.SplunkOneEventPerSpan | java/src/main/java/io/github/genaitelemetry/exporters/SplunkHECExporter.java:101-136 | one POST to the collector URL with the Splunk token, carrying one event per span in order; success iff status 200 |
| Batching.ElasticBulkToCurrentHost | java/src/main/java/io/github/genaitelemetry/exporters/ElasticsearchExporter.java:119-160 | one bulk POST to `<current host>/_bulk` with two lines per span; the counter advances cyclically; success follows the bulk rule |
| Batching.CloudWatchPutsSortedBatch | java/src/main/java/io/github/genaitelemetry/exporters/CloudWatchExporter.java:142-204 | one PutLogEvents with the previous token, holding exactly the batch's spans sorted by timestamp; the reply's next token is kept |
| Batching.CloudWatchWithoutClientLogsLocally | java/src/main/java/io/github/genaitelemetry/exporters/CloudWatchExporter.java:148-158 | without an AWS client the batch is reported sent and nothing goes out |
| Batching.ElasticHealthTakesATurn | java/src/main/java/io/github/genaitelemetry/exporters/ElasticsearchExporter.java:181-199 | the health probe GETs `/_cluster/health` on the current host, advances the counter, and is healthy iff status 200 |
| Batching.Enqueue | java/src/main/java/io/github/genaitelemetry/exporters/OTLPExporter.java:216-232 | the span is appended; the buffer is flushed whole iff it reached the batch size, and is then empty |
| Batching.BufferKeepsEverySpan | java/src/main/java/io/github/genaitelemetry/exporters/OTLPExporter.java:216-232 | across any run of exports, the flushed batches followed by the buffer are exactly the spans in arrival order |
| Batching.FlushesAreFull | java/src/main/java/io/github/genaitelemetry/exporters/OTLPExporter.java:216-232 | every size-triggered flush holds exactly batchSize spans, and the buffer stays below it |
| Batching.FlushCount | java/src/main/java/io/github/genaitelemetry/exporters/OTLPExporter.java:216-232 | the number of flushes is the number of spans divided by the batch size, rounded down |
| Batching.BuildSplunkRequest | java/src/main/java/io/github/genaitelemetry/exporters/SplunkHECExporter.java:101-136 | the Splunk request loop builds exactly the specified request |
| Batching.BuildElasticRequest | java/src/main/java/io/github/genaitelemetry/exporters/ElasticsearchExporter.java:119-160 | the Elasticsearch request loop builds exactly the specified request |
| Batching.BuildLokiRequest | java/src/main/java/io/github/genaitelemetry/exporters/LokiExporter.java:146-176 | the Loki request construction builds exactly the specified request or failure |
| Batching.BatchingExporter.constructor | java/src/main/java/io/github/genaitelemetry/exporters/OTLPExporter.java:37-54 | empty buffer, not running, no timer, first host, no client, no token, nothing sent |
| Batching.BatchingExporter.Start | java/src/main/java/io/github/genaitelemetry/exporters/CloudWatchExporter.java:49-71 | starting twice does nothing. A first start sets running and schedules the periodic flush only when batchSize > 1. CloudWatch with a client creates its log stream once |
| Batching.BatchingExporter.BuildRequest | java/src/main/java/io/github/genaitelemetry/exporters/OTLPExporter.java:164-214 | builds the backend's request from the current host and token |
| Batching.BuildBatch | java/src/main/java/io/github/genaitelemetry/exporters/OTLPExporter.java:164-214 | the payload loops of each backend build exactly the batch's request |
| Batching.BatchingExporter.SendBatch | java/src/main/java/io/github/genaitelemetry/exporters/OTLPExporter.java:164-214 | the send follows `Transmit` and leaves the buffer and flags alone |
| Batching.BatchingExporter.Deliver | java/src/main/java/io/github/genaitelemetry/exporters/OTLPExporter.java:196-214 | one request goes out; success is the backend's acceptance of the reply; host and token advance |
| Batching.BatchingExporter.Flush | java/src/main/java/io/github/genaitelemetry/exporters/OTLPExporter.java:87-98 | empties the buffer and sends its old contents as one batch |
| Batching.BatchingExporter.Export | java/src/main/java/io/github/genaitelemetry/exporters/OTLPExporter.java:216-232 | with batchSize ≤ 1 the span is sent at once and the send's answer returned; otherwise it is buffered, a full buffer is flushed, and the answer is true |
| Batching.BatchingExporter.Stop | java/src/main/java/io/github/genaitelemetry/exporters/OTLPExporter.java:73-85 | stops running, cancels the timer and flushes what is buffered |
| Batching.BatchingExporter.HealthCheck | java/src/main/java/io/github/genaitelemetry/exporters/LokiExporter.java:196-214 | follows the backend's health rule without touching the buffer |
| Prometheus.MetricKey | java/src/main/java/io/github/genaitelemetry/exporters/PrometheusExporter.java:44-45 | for a workflow without ':' the key's first ':' is the one right after the workflow |
| Prometheus.Append | java/src/main/java/io/github/genaitelemetry/exporters/PrometheusExporter.java:48-71 | `computeIfAbsent(key).add(x)` appends to that key's list and changes no other key |
| Prometheus.Update | java/src/main/java/io/github/genaitelemetry/exporters/PrometheusExporter.java:43-73 | updating fails exactly for a span without a type |
| Prometheus.Absorb | java/src/main/java/io/github/genaitelemetry/exporters/PrometheusExporter.java:43-73 | a span that is not LLM, EMBEDDING or RETRIEVER leaves the aggregates as they were |
| Prometheus.Aggregate | java/src/main/java/io/github/genaitelemetry/exporters/PrometheusExporter.java:43-73 | a run of spans of no recorded type leaves a fresh exporter empty |
| Prometheus.Matching | java/src/main/java/io/github/genaitelemetry/exporters/PrometheusExporter.java:44-45 | the spans counted under a key are input spans of that kind and key |
| Prometheus.Durations | java/src/main/java/io/github/genaitelemetry/exporters/PrometheusExporter.java:48-71 | one recorded duration per counted span, in order |
| Prometheus.ErrorCount | java/src/main/java/io/github/genaitelemetry/exporters/PrometheusExporter.java:55-57 | errors never outnumber spans |
| Prometheus.AggregateSnoc | java/src/main/java/io/github/genaitelemetry/exporters/PrometheusExporter.java:43-73 | the metrics after one more span are the old metrics updated with it |
| Prometheus.AbsorbTouchesOnlyItsMaps | java/src/main/java/io/github/genaitelemetry/exporters/PrometheusExporter.java:43-73 | an LLM span updates only the LLM maps, an embedding only the embedding map, a retriever only the retriever maps; other types change nothing |
| Prometheus.AbsorbLlmDurations | java/src/main/java/io/github/genaitelemetry/exporters/PrometheusExporter.java:48-50 | an LLM span appends its duration under its key only |
| Prometheus.AbsorbEmbeddingDurations | java/src/main/java/io/github/genaitelemetry/exporters/PrometheusExporter.java:60-62 | an embedding span appends its duration under its key only |
| Prometheus.AbsorbRetrieverDurations | java/src/main/java/io/github/genaitelemetry/exporters/PrometheusExporter.java:64-67 | a retriever span appends its duration under its key only |
| Prometheus.AbsorbDurations | java/src/main/java/io/github/genaitelemetry/exporters/PrometheusExporter.java:48-71 | for every kind, only a matching span adds a duration, under its own key |
| Prometheus.AbsorbErrors | java/src/main/java/io/github/genaitelemetry/exporters/PrometheusExporter.java:55-57 | a failed LLM span adds one to its key's error counter, creating it at 1 |
| Prometheus.AbsorbTokens | java/src/main/java/io/github/genaitelemetry/exporters/PrometheusExporter.java:51-53 | an LLM span adds its present token counts to its key's totals |
| Prometheus.AbsorbDocs | java/src/main/java/io/github/genaitelemetry/exporters/PrometheusExporter.java:68-70 | a retriever span with a document count appends it under its key |
| Prometheus.DurationsAggregate | java/src/main/java/io/github/genaitelemetry/exporters/PrometheusExporter.java:43-73 | after any sequence of spans, a key's durations are those of exactly its matching spans, in order |
| Prometheus.ErrorsAggregate | java/src/main/java/io/github/genaitelemetry/exporters/PrometheusExporter.java:55-57 | a key has an error counter iff some matching span failed, and it holds their (wrapped) number |
| Prometheus.ErrorStep | java/src/main/java/io/github/genaitelemetry/exporters/PrometheusExporter.java:55-57 | one more failure adds exactly one to the counter |
| Prometheus.TokensAggregate | java/src/main/java/io/github/genaitelemetry/exporters/PrometheusExporter.java:51-53 | a key has token totals iff some LLM span matched it, and they are the wrapped sums of their counts |
| Prometheus.TokensStep | java/src/main/java/io/github/genaitelemetry/exporters/PrometheusExporter.java:51-53 | adding one span's counts keeps the totals equal to the wrapped sums |
| Prometheus.DocsAggregate | java/src/main/java/io/github/genaitelemetry/exporters/PrometheusExporter.java:68-70 | a key's document counts are those of its matching spans that have one, in order |
| Prometheus.MatchingAppend | java/src/main/java/io/github/genaitelemetry/exporters/PrometheusExporter.java:43-73 | matching distributes over concatenation |
| Prometheus.CountersOnlyGrow | java/src/main/java/io/github/genaitelemetry/exporters/PrometheusExporter.java:43-73 | later spans only extend a key's durations and document counts, never lower its error count, and never remove a token or error key |
| Prometheus.DocsGrow | java/src/main/java/io/github/genaitelemetry/exporters/PrometheusExporter.java:64-70 | later spans only extend a retriever key's document counts |
| Prometheus.LlmKeysPersist | java/src/main/java/io/github/genaitelemetry/exporters/PrometheusExporter.java:51-57 | a key with token or error counts keeps them after later spans |
| Prometheus.TokenTotalsCanFall | java/src/main/java/io/github/genaitelemetry/exporters/PrometheusExporter.java:51-53 | a span with a negative token count lowers a key's running total |
| Prometheus.KeyLabels | java/src/main/java/io/github/genaitelemetry/exporters/PrometheusExporter.java:82-83 | a labelable key gives two labels, `workflow` and the second label's name |
| Prometheus.SummarySamples | java/src/main/java/io/github/genaitelemetry/exporters/PrometheusExporter.java:78-87 | one summary per key present in the map |
| Prometheus.TokenSamples | java/src/main/java/io/github/genaitelemetry/exporters/PrometheusExporter.java:89-97 | one token sample group per key present |
| Prometheus.ErrorSamples | java/src/main/java/io/github/genaitelemetry/exporters/PrometheusExporter.java:99-106 | one error sample per key present |
| Prometheus.DocSamples | java/src/main/java/io/github/genaitelemetry/exporters/PrometheusExporter.java:130-138 | one document sample group per key present |
| Prometheus.Payload | java/src/main/java/io/github/genaitelemetry/exporters/PrometheusExporter.java:75-141 | the payload exists iff every key can be split into labels, and each metric family covers exactly its map's keys; the sample values are given by CountSampleCountsSpans, TokenSamplesSumSpans, ErrorSampleCountsErrors and DocSampleSumsDocs |
| Prometheus.SummaryOfKey | java/src/main/java/io/github/genaitelemetry/exporters/PrometheusExporter.java:78-87 | a key's LLM duration samples are its summary under `genai_llm_duration_seconds` and `model` |
| Prometheus.CountSampleCountsSpans | java/src/main/java/io/github/genaitelemetry/exporters/PrometheusExporter.java:78-87 | the `_count` sample of a key is the number of LLM spans seen for it |
| Prometheus.TokenSamplesSumSpans | java/src/main/java/io/github/genaitelemetry/exporters/PrometheusExporter.java:89-97 | a key's `type="input"` and `type="output"` samples are the 32-bit wrapped sums of the input and output counts of its LLM spans |
| Prometheus.ErrorSampleCountsErrors | java/src/main/java/io/github/genaitelemetry/exporters/PrometheusExporter.java:99-106 | a key's error sample is the number of its failed LLM spans, wrapped to 32 bits |
| Prometheus.DocSampleSumsDocs | java/src/main/java/io/github/genaitelemetry/exporters/PrometheusExporter.java:130-138 | a key's document sample is the 32-bit wrapped sum of the present document counts of its retriever spans |
| Prometheus.PayloadHeaders | java/src/main/java/io/github/genaitelemetry/exporters/PrometheusExporter.java:75-141 | every payload holds the six families in the printed order, each with its name, HELP text and TYPE |
| Prometheus.EmptyPayload | java/src/main/java/io/github/genaitelemetry/exporters/PrometheusExporter.java:75-141 | with no LLM, embedding or retriever span the payload is the six headers with no sample |
| Prometheus.LabelsRecoverKey | java/src/main/java/io/github/genaitelemetry/exporters/PrometheusExporter.java:44-45 | for colon-free names the labels recover the workflow and model exactly |
| Prometheus.EmptySecondIsUnknown | java/src/main/java/io/github/genaitelemetry/exporters/PrometheusExporter.java:82-83 | an empty model gives the label "unknown" |
| Prometheus.BareColonUnlabelable | java/src/main/java/io/github/genaitelemetry/exporters/PrometheusExporter.java:82-83 | the key ":" splits into no parts, so `parts[0]` throws |
| Prometheus.ColonInModelTruncates | java/src/main/java/io/github/genaitelemetry/exporters/PrometheusExporter.java:82-83 | a model with ':' is labelled only up to the first ':' |
| Prometheus.EmptyNamesPoisonThePayload | java/src/main/java/io/github/genaitelemetry/exporters/PrometheusExporter.java:43-83 | an LLM span with empty workflow and model is recorded under ":", after which the payload cannot be built |
| Prometheus.DefaultPushUrl | java/src/main/java/io/github/genaitelemetry/exporters/PrometheusExporter.java:151 | with the defaults the push goes to `http://localhost:9091/metrics/job/genai_telemetry` |
| Prometheus.PrometheusExporter.constructor | java/src/main/java/io/github/genaitelemetry/exporters/PrometheusExporter.java:35-41 | the gateway URL loses its trailing slash; no metrics, nothing pushed |
| Prometheus.PrometheusExporter.UpdateMetrics | java/src/main/java/io/github/genaitelemetry/exporters/PrometheusExporter.java:43-73 | the metric maps become the old ones updated with the span; a typeless span fails and changes nothing |
| Prometheus.PrometheusExporter.Export | java/src/main/java/io/github/genaitelemetry/exporters/PrometheusExporter.java:144-165 | records the span, then pushes the whole payload as text to the job URL; success iff 200 or 202; a typeless span or an unbuildable payload fails unsent |
| Prometheus.PrometheusExporter.HealthCheck | java/src/main/java/io/github/genaitelemetry/exporters/PrometheusExporter.java:168-184 | probes `/-/healthy`, healthy iff status 200, metrics unchanged |
| Instrumentation.InstrumentStep | genai_telemetry/instrumentation/base.py:39-61 | already instrumented: true and unchanged. Not installed: false and unchanged. Otherwise success iff the hook completes, and the flag records that success |
| Instrumentation.UninstrumentStep | genai_telemetry/instrumentation/base.py:63-81 | not instrumented: true. Otherwise success iff the hook completes. The flag is cleared exactly on success |
| Instrumentation.FailedCallsChangeNothing | genai_telemetry/instrumentation/base.py:39-81 | a failed call leaves the flag as it was; a successful one sets or clears it |
| Instrumentation.InstrumentRoundTrip | genai_telemetry/instrumentation/base.py:39-81 | after a successful instrument, instrumenting again is a true no-op and a completing uninstrument clears the flag |
| Instrumentation.Instrumentor.constructor | genai_telemetry/instrumentation/base.py:39-61 | a new instrumentor starts uninstrumented |
| Instrumentation.Instrumentor.Instrument | genai_telemetry/instrumentation/base.py:39-61 | result and new flag follow the instrument step |
| Instrumentation.Instrumentor.Uninstrument | genai_telemetry/instrumentation/base.py:63-81 | result and new flag follow the uninstrument step |
| Instrumentation.StoreKeyInjective | genai_telemetry/instrumentation/base.py:112 | different method names on the same object give different store keys |
| Instrumentation.Wrap | genai_telemetry/instrumentation/base.py:98-117 | succeeds iff the attribute exists; the original is stored under the key and the attribute is replaced by a wrapper; on failure nothing changes |
| Instrumentation.Unwrap | genai_telemetry/instrumentation/base.py:120-134 | succeeds iff the key is stored; the stored value is put back and the key removed; on failure nothing changes |
| Instrumentation.WrapThenUnwrapRestores | genai_telemetry/instrumentation/base.py:98-134 | wrap then unwrap restores the attribute and leaves no key behind |
| Instrumentation.DoubleWrapKeepsFirstWrapper | genai_telemetry/instrumentation/base.py:111-113 | wrapping twice and unwrapping once restores the first wrapper, not the original |
| Instrumentation.WrapMethod | genai_telemetry/instrumentation/base.py:98-117 | the object's attributes and the store change exactly as `Wrap` says |
| Instrumentation.UnwrapMethod | genai_telemetry/instrumentation/base.py:120-134 | the object's attributes and the store change exactly as `Unwrap` says |
| Instrumentation.Target.constructor | genai_telemetry/instrumentation/base.py:112 | an object with its module, name, type and attributes |
| Instrumentation.OriginalStore.constructor | genai_telemetry/instrumentation/base.py:98-117 | the store starts empty |
| AutoInstrumentation.KeyIsLoweredName | genai_telemetry/instrumentation/openai_inst.py:34-35 | each registry key is the lower-cased `name` of its instrumentor |
| AutoInstrumentation.KeyInjective | genai_telemetry/instrumentation/auto.py:49-85 | different frameworks have different keys |
| AutoInstrumentation.ClassNameInjective | genai_telemetry/instrumentation/auto.py:49-85 | different frameworks have different instrumentor classes |
| AutoInstrumentation.Importable | genai_telemetry/instrumentation/auto.py:49-85 | the registry holds exactly the importable candidates, without duplicates |
| AutoInstrumentation.FirstOfClass | genai_telemetry/instrumentation/auto.py:156-159 | finds an active instrumentor of the class, and none exactly when there is none |
| AutoInstrumentation.FirstOfClassAppend | genai_telemetry/instrumentation/auto.py:156-159 | appending instrumentors of other classes does not change the lookup |
| AutoInstrumentation.ActivatedStep | genai_telemetry/instrumentation/auto.py:151-171 | a framework is appended iff it is selected, not already instrumented and succeeds |
| AutoInstrumentation.Selected | genai_telemetry/instrumentation/auto.py:140-147 | excluded names are never selected; without a list every registered key not excluded is selected and nothing else; with a list exactly its lower-cased names not excluded |
| AutoInstrumentation.AutoResults | genai_telemetry/instrumentation/auto.py:149-168 | results only name selected frameworks |
| AutoInstrumentation.Activated | genai_telemetry/instrumentation/auto.py:165-171 | a newly active framework is registered, selected, not already instrumented and its instrument succeeded |
| AutoInstrumentation.AutoResultKeys | genai_telemetry/instrumentation/auto.py:151-153 | result keys are exactly the registered names that were selected |
| AutoInstrumentation.AutoResultValue | genai_telemetry/instrumentation/auto.py:156-169 | a selected framework reports true iff it was already instrumented or its new instrumentor succeeded |
| AutoInstrumentation.ActivatedExactly | genai_telemetry/instrumentation/auto.py:166-171 | a framework becomes active iff it is registered, selected, not already instrumented and its instrument succeeds |
| AutoInstrumentation.ActivatedNoDuplicates | genai_telemetry/instrumentation/auto.py:151-171 | one call adds each framework at most once |
| AutoInstrumentation.AlreadyAfterFirstCall | genai_telemetry/instrumentation/auto.py:151-171 | after one call a framework counts as already instrumented iff it did before, or it was selected and its instrument succeeded |
| AutoInstrumentation.AutoInstrumentIdempotent | genai_telemetry/instrumentation/auto.py:132 | a second call with the same selection reports the same results and activates nothing more |
| AutoInstrumentation.NewEntries | genai_telemetry/instrumentation/auto.py:166-171 | one active entry per activated framework, in order |
| AutoInstrumentation.KeptIndices | genai_telemetry/instrumentation/auto.py:205-218 | the kept instrumentors are a subsequence of the active list |
| AutoInstrumentation.UninstallStep | genai_telemetry/instrumentation/auto.py:205-218 | each named instrumentor records its uninstrument result, and is kept iff unnamed or failed |
| AutoInstrumentation.KeptIndicesExactly | genai_telemetry/instrumentation/auto.py:205-218 | an instrumentor is kept iff it was not named, or its uninstrument raised |
| AutoInstrumentation.UninstrumentAllEmpties | genai_telemetry/instrumentation/auto.py:205-218 | uninstrumenting everything with completing hooks empties the active list |
| AutoInstrumentation.UninstallResultKeys | genai_telemetry/instrumentation/auto.py:205-218 | result keys are exactly the lower-cased names of the named active instrumentors |
| AutoInstrumentation.InstrumentedNames | genai_telemetry/instrumentation/auto.py:238-242 | the list holds exactly the lower-cased names of active, instrumented instrumentors |
| AutoInstrumentation.AnyInstrumented | genai_telemetry/instrumentation/auto.py:262-266 | true iff some active instrumentor is instrumented and its name matches, ignoring case |
| AutoInstrumentation.InstrumentedIffListed | genai_telemetry/instrumentation/auto.py:238-266 | `is_instrumented(f)` iff lower(f) is in `get_instrumented_frameworks()` |
| AutoInstrumentation.InstrumentedIgnoresCase | genai_telemetry/instrumentation/auto.py:262-266 | names differing only in case give the same answer |
| AutoInstrumentation.Registry.constructor | genai_telemetry/instrumentation/auto.py:46 | no registered and no active instrumentors |
| AutoInstrumentation.Registry.Register | genai_telemetry/instrumentation/auto.py:49-85 | registers the importable candidates once; later calls change nothing |
| AutoInstrumentation.Registry.AutoInstrument | genai_telemetry/instrumentation/auto.py:88-182 | registers if needed; results and newly active instrumentors are those defined for the selection, earlier active entries are kept, and every active instrumentor stays instrumented |
| AutoInstrumentation.Registry.Visit | genai_telemetry/instrumentation/auto.py:151-171 | one loop iteration extends results and active list by that framework's step |
| AutoInstrumentation.Registry.ExistingUnaffected | genai_telemetry/instrumentation/auto.py:156-163 | instrumentors added earlier in the same call do not change whether a later framework counts as already instrumented |
| AutoInstrumentation.Registry.Uninstrument | genai_telemetry/instrumentation/auto.py:185-223 | results are the named instrumentors' outcomes; the active list keeps exactly the unnamed and the failed ones, in order |
| AutoInstrumentation.Registry.UninstallAll | genai_telemetry/instrumentation/auto.py:205-218 | the loop computes those results and survivors |
| AutoInstrumentation.Registry.PickKeepsKnown | genai_telemetry/instrumentation/auto.py:205-218 | survivors are still registered frameworks |
| AutoInstrumentation.Registry.UnknownFrameworkNotInstrumented | genai_telemetry/instrumentation/auto.py:262-266 | a name no registered framework has is never reported instrumented |
| LangChainInstrumentation.FirstTruthy | genai_telemetry/instrumentation/langchain_inst.py:59-64 | a found name is the text of a listed, truthy attribute |
| LangChainInstrumentation.FirstTruthyIsFirst | genai_telemetry/instrumentation/langchain_inst.py:59-64 | the chosen value comes from the first attribute, in order, that is truthy |
| LangChainInstrumentation.FirstTruthyNone | genai_telemetry/instrumentation/langchain_inst.py:59-64 | nothing is chosen iff no listed attribute is truthy |
| LangChainInstrumentation.ModelName | genai_telemetry/instrumentation/langchain_inst.py:55-64 | the loop's model name is the first truthy attribute's text, else "unknown" |
| LangChainInstrumentation.FirstMatch | genai_telemetry/instrumentation/langchain_inst.py:67-83 | a non-default provider is one of the rules and matches the class name |
| LangChainInstrumentation.FirstMatchIsFirst | genai_telemetry/instrumentation/langchain_inst.py:67-83 | the default is returned iff no rule matches, and no earlier rule matches than the one returned |
| LangChainInstrumentation.ClassifyIsFirstMatch | genai_telemetry/instrumentation/langchain_inst.py:67-83 | the if/elif chain is first-match over openai, anthropic, cohere, huggingface, google, bedrock, ollama, mistral |
| LangChainInstrumentation.Classify | genai_telemetry/instrumentation/langchain_inst.py:66-83 | a named provider's keywords occur in the class name, and the default means no rule's keywords do |
| LangChainInstrumentation.EarlierRuleWins | genai_telemetry/instrumentation/langchain_inst.py:68-71 | a class name containing both "gpt" and "claude" maps to openai |
| LangChainInstrumentation.ExtractModelInfo | genai_telemetry/instrumentation/langchain_inst.py:53-85 | returns the first truthy model attribute (else "unknown") and the first matching provider of the lower-cased class name (else "langchain") |
| LangChainInstrumentation.NothingKnownGivesDefaults | genai_telemetry/instrumentation/langchain_inst.py:55-56 | with no truthy attribute and no match the result is ("unknown", "langchain") |
| LangChainInstrumentation.DocsCount | genai_telemetry/instrumentation/langchain_inst.py:249 | positive iff the result is a non-empty list, and then its length |

## Left out

- Concurrency. `CompletableFuture`, executors, `synchronized`, `ThreadLocal`, `AtomicInteger` and concurrent maps are reduced to one execution context with sequential calls. Futures are immediate values. The periodic flush timer is a `scheduled` flag, and the timer firing is an explicit `Flush` call.
- HTTP and AWS transport. A request is recorded in a `sent` log, and the reply (status, body, next token, or an exception) is a parameter. Timeouts, headers other than those stated, and closing the AWS client are not modelled.
- The AWS SDK reflection in the CloudWatch exporter. Whether a client exists is a flag; creating the log group and stream is one recorded request.
- Floating point. Durations, temperature and relevance scores are exact `real` values. `Span.finish` rounds to two decimals exactly; the floating-point error of that rounding, the `%.3f` formatting in the Prometheus payload, and double-to-nanosecond casts beyond truncation toward zero are not modelled.
- Java `long` overflow in nanosecond arithmetic. The counts are unbounded integers. Token counts, which are Java `int`, do wrap at 32 bits.
- The JSON text produced by Jackson, and URI validity. Payloads are structured values.
- Exception messages and logging. Failures are kinds; only the builder argument checks keep their messages.
- `Instant.now`, `Instant.parse`, `System.nanoTime`, Base64 and `ThreadLocalRandom`. They are inputs, an uninterpreted parse function, or a nondeterministic digit choice.
- Id uniqueness, which only holds with high probability.
- String comparison in UTF-16. `compareTo` on timestamps is a lexicographic order on characters.
- HashMap iteration order. Loki streams come out in order of first appearance; Prometheus families are maps from key to samples.
- The reflection path of `TokenExtractor.extractTokens` (`getUsage`/`usage` and `extractFromUsage`). Only map and JSON-tree replies are modelled, and both go through the same function.
- ConsoleExporter and FileExporter. They only write to the console or a file.
- The LangChain wrapper bodies other than model info and the document count, and the vector-store name lookup in the retriever wrapper. They patch third-party classes and call telemetry code that is not part of this model.
- The OpenAI, Anthropic, Google and LlamaIndex instrumentors. Only their `name` values are used, as registry keys.
- `safe_import` and module import. Importability is a predicate.
- Python `str.lower`. It is modelled as ASCII lower-casing.
- The class-level sharing of `_original_methods` between instances. A store is an explicit object passed to `wrap_method`/`unwrap_method`.
- The state of removed instrumentors. Active instrumentors are kept as their visible state: name, class and flag. An instrumentor dropped from the active list is not tracked further.
- IdGenerator.RandomHex: a negative length, which makes Java throw, is excluded by the `nat` parameter type.
- Telemetry.GenAITelemetry.SendSpan: the exported span id is stated to be some 16-digit hex id, not which one, because ids are random.
- Telemetry.GenAITelemetry.TraceLLM: the same holds for the span id of each `traceX` helper.
- Prometheus.Payload: keeps the samples of each family per key, not the order in which the keys print, which follows Java's unspecified hash-map iteration order.
- Telemetry.GenAITelemetry.TraceLLM, TraceEmbedding, TraceRetrieval, TraceTool, TraceChain and TraceAgent: an export future that completes exceptionally, so that `join()` throws inside the helper, is not modelled. Every exporter here catches `Exception` inside its own asynchronous task, so only an `Error` could complete it that way.
- Common.Lower, Common.EqualsIgnoreCase and Datadog.HexDigit: on the Java side they fold case and read digits for ASCII only, as the root locale does. Default-locale folding (the Turkish dotless i, for one) and the non-ASCII digits `Character.digit` accepts are not modelled.
- SpanRecords.SpanData: `timestamp` and `status` are plain strings. The builder's setters also accept null for them, which would print as "null" in a Loki stream key; that case is not modelled.
