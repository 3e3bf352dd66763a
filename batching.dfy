// The buffer that every network exporter repeats word for word (`export`,
// `flush`, `start` and `stop` of the OTLP, Splunk HEC, Elasticsearch,
// Datadog, Loki and CloudWatch exporters), and the one request that
// `sendBatch` makes of a batch on each backend.
//
// The network is an oracle: every operation that may send takes the `Reply`
// the request would get back. The asynchronous `CompletableFuture`s are
// joined at once, so the model is sequential.

module Batching {
  import opened Common
  import opened SpanRecords
  import opened Http
  import Otlp
  import SplunkHec
  import Elastic
  import Datadog
  import Loki
  import CloudWatch

  /** Which exporter the buffer sits in front of, with its settings. */
  datatype Backend =
    | OtlpBackend(otlp: Otlp.Config)
    | SplunkBackend(splunk: SplunkHec.Config)
    | ElasticBackend(elastic: Elastic.Config)
    | DatadogBackend(datadog: Datadog.Config)
    | LokiBackend(loki: Loki.Config)
    | CloudWatchBackend(cloudWatch: CloudWatch.Config)

  function BatchSize(b: Backend): int
  {
    match b
    case OtlpBackend(c) => c.batchSize
    case SplunkBackend(c) => c.batchSize
    case ElasticBackend(c) => c.batchSize
    case DatadogBackend(c) => c.batchSize
    case LokiBackend(c) => c.batchSize
    case CloudWatchBackend(c) => c.batchSize
  }

  /** What a request carries, before Jackson writes it out. */
  datatype Body =
    | OtlpBody(payload: Otlp.Payload)
    | HecBody(events: seq<SplunkHec.HecEvent>)
    | BulkBody(lines: seq<Elastic.BulkLine>)
    | DatadogBody(traces: seq<seq<Datadog.DdSpan>>)
    | LokiBody(streams: seq<Loki.Stream>)
    | NoBody

  /** A request that went out: over HTTP, or a CloudWatch Logs client call. */
  datatype Request =
    | HttpRequest(verb: string, url: string, headers: seq<Header>, body: Body)
    | CreateLogStream(logGroup: string, logStream: string)
    | PutEvents(put: CloudWatch.PutLogEvents)

  const ContentType: Header := Header("Content-Type", "application/json")

  /**
   * The exporter's state outside the buffer: the Elasticsearch round-robin
   * counter, whether a CloudWatch Logs client was created, the CloudWatch
   * sequence token, and the requests sent so far, in order.
   */
  datatype Wire = Wire(hostIndex: nat, client: bool, token: Option<string>, sent: seq<Request>)

  predicate WireValid(b: Backend, w: Wire)
  {
    b.ElasticBackend? ==> Elastic.ValidIndex(b.elastic.hosts, w.hostIndex)
  }

  /** The success rule of each backend for a request that got a reply. The
      CloudWatch client throws on every failure, so any response counts. */
  predicate Accepts(b: Backend, reply: Reply)
  {
    match b
    case OtlpBackend(_) => Otlp.Accepted(reply)
    case SplunkBackend(_) => SplunkHec.Accepted(reply)
    case ElasticBackend(_) => Elastic.BulkAccepted(reply)
    case DatadogBackend(_) => Datadog.Accepted(reply)
    case LokiBackend(_) => Loki.Accepted(reply)
    case CloudWatchBackend(_) => reply.Response?
  }

  function AuthHeaders(auth: Option<Header>): seq<Header>
  {
    if auth.Some? then [auth.value] else []
  }

  /** OTLP posts the resource-spans payload to the endpoint with the
      configured headers. */
  function OtlpRequest(c: Otlp.Config, parse: string -> Option<int>, spans: seq<SpanData>): Result<Request>
  {
    match Otlp.BuildPayload(c.serviceName, spans, parse)
    case Fail(e) => Fail(e)
    case Ok(p) => Ok(HttpRequest("POST", c.endpoint, [ContentType] + c.headers, OtlpBody(p)))
  }

  /** Splunk posts one event per span, authorised by the token. */
  function SplunkRequest(c: SplunkHec.Config, spans: seq<SpanData>): Request
  {
    HttpRequest("POST", c.url, [SplunkHec.AuthHeader(c), ContentType], HecBody(SplunkHec.Events(c, spans)))
  }

  /** Elasticsearch builds the bulk body first, then takes the host at the
      counter. */
  function ElasticRequest(c: Elastic.Config, hostIndex: nat, spans: seq<SpanData>): Result<Request>
    requires Elastic.ValidIndex(c.hosts, hostIndex)
  {
    match Elastic.BulkPayload(c.index, spans)
    case Fail(e) => Fail(e)
    case Ok(lines) =>
      match Elastic.GetHost(c.hosts, hostIndex)
      case Fail(e) => Fail(e)
      case Ok(pick) => Ok(HttpRequest("POST", pick.host + "/_bulk", AuthHeaders(c.auth) + [ContentType], BulkBody(lines)))
  }

  /** Datadog puts one trace to the site's intake. */
  function DatadogRequest(c: Datadog.Config, parse: string -> Option<int>, spans: seq<SpanData>): Result<Request>
  {
    match Datadog.Payload(spans, c.serviceName, parse)
    case Fail(e) => Fail(e)
    case Ok(traces) => Ok(HttpRequest("PUT", Datadog.IntakeUrl(c.site), [ContentType, Datadog.ApiKeyHeader(c)], DatadogBody(traces)))
  }

  /** Loki posts the batch's streams to the push URL. */
  function LokiRequest(c: Loki.Config, parse: string -> Option<int>, spans: seq<SpanData>): Result<Request>
  {
    match Loki.Streams(spans, parse)
    case Fail(e) => Fail(e)
    case Ok(streams) => Ok(HttpRequest("POST", c.url, Loki.Headers(c), LokiBody(streams)))
  }

  /** CloudWatch puts the sorted events with the current sequence token. */
  function CloudWatchRequest(c: CloudWatch.Config, parse: string -> Option<int>, token: Option<string>,
                             spans: seq<SpanData>): Result<Request>
  {
    match CloudWatch.LogEvents(spans, parse)
    case Fail(e) => Fail(e)
    case Ok(events) => Ok(PutEvents(CloudWatch.PutRequest(c, events, token)))
  }

  /**
   * The request `sendBatch` builds for a non-empty batch; Fail when building
   * it throws (a timestamp that does not parse, a null service name or
   * index, a non-hex Datadog id, a Loki key without a model, no
   * Elasticsearch host), in which case nothing goes out.
   */
  function BatchRequest(b: Backend, parse: string -> Option<int>, hostIndex: nat, token: Option<string>,
                        spans: seq<SpanData>): Result<Request>
    requires b.ElasticBackend? ==> Elastic.ValidIndex(b.elastic.hosts, hostIndex)
  {
    match b
    case OtlpBackend(c) => OtlpRequest(c, parse, spans)
    case SplunkBackend(c) => Ok(SplunkRequest(c, spans))
    case ElasticBackend(c) => ElasticRequest(c, hostIndex, spans)
    case DatadogBackend(c) => DatadogRequest(c, parse, spans)
    case LokiBackend(c) => LokiRequest(c, parse, spans)
    case CloudWatchBackend(c) => CloudWatchRequest(c, parse, token, spans)
  }

  /** The Elasticsearch counter after a request went out. */
  function NextHost(b: Backend, hostIndex: nat): (next: nat)
    requires b.ElasticBackend? ==> Elastic.ValidIndex(b.elastic.hosts, hostIndex)
    ensures b.ElasticBackend? ==> Elastic.ValidIndex(b.elastic.hosts, next)
  {
    if b.ElasticBackend? && |b.elastic.hosts| > 0 then Elastic.GetHost(b.elastic.hosts, hostIndex).value.next
    else hostIndex
  }

  /** What a send reports, and the state it leaves behind. */
  datatype Sent = Sent(ok: bool, wire: Wire)

  /**
   * `sendBatch`: an empty batch succeeds without a request; a CloudWatch
   * exporter without a client only logs the spans locally and succeeds;
   * a batch whose request cannot be built fails without one; otherwise the
   * request goes out and the backend's rule decides. A CloudWatch response
   * replaces the sequence token with the one it carries.
   */
  function Transmit(b: Backend, parse: string -> Option<int>, w: Wire, spans: seq<SpanData>, reply: Reply): (r: Sent)
    requires WireValid(b, w)
    ensures WireValid(b, r.wire)
    ensures |spans| == 0 ==> r == Sent(true, w)
    ensures r.wire.client == w.client
    ensures |w.sent| <= |r.wire.sent| <= |w.sent| + 1 && r.wire.sent[..|w.sent|] == w.sent
    ensures |r.wire.sent| > |w.sent| ==> (r.ok <==> Accepts(b, reply))
    ensures r.wire.sent == w.sent && |spans| > 0 ==> (r.ok <==> b.CloudWatchBackend? && !w.client)
    ensures r.wire.sent == w.sent ==> r.wire == w
    ensures !b.ElasticBackend? ==> r.wire.hostIndex == w.hostIndex
    ensures r.wire.token != w.token ==> b.CloudWatchBackend? && reply.Response? && r.wire.token == reply.nextToken
  {
    if |spans| == 0 then Sent(true, w)
    else if b.CloudWatchBackend? && !w.client then Sent(true, w)
    else
      match BatchRequest(b, parse, w.hostIndex, w.token, spans)
      case Fail(_) => Sent(false, w)
      case Ok(req) =>
        var token := if b.CloudWatchBackend? && reply.Response? then reply.nextToken else w.token;
        Sent(Accepts(b, reply), Wire(NextHost(b, w.hostIndex), w.client, token, w.sent + [req]))
  }

  /**
   * `healthCheck`: Splunk sends a probe record straight past the buffer,
   * Elasticsearch asks the next host for its cluster health (moving the
   * counter like a send does), Loki asks for `/ready`; the other exporters
   * keep the default, which reports healthy without a request.
   */
  function Health(b: Backend, parse: string -> Option<int>, w: Wire, now: string, reply: Reply): (r: Sent)
    requires WireValid(b, w)
    ensures WireValid(b, r.wire)
    ensures b.OtlpBackend? || b.DatadogBackend? || b.CloudWatchBackend? ==> r == Sent(true, w)
    ensures b.LokiBackend? ==> r.ok == Loki.HealthAccepted(reply)
    ensures b.ElasticBackend? ==> r.wire.hostIndex == NextHost(b, w.hostIndex)
  {
    match b
    case SplunkBackend(_) => Transmit(b, parse, w, [SplunkHec.HealthSpan(now)], reply)
    case ElasticBackend(c) =>
      (match Elastic.GetHost(c.hosts, w.hostIndex)
       case Fail(_) => Sent(false, w)
       case Ok(pick) =>
         var req := HttpRequest("GET", pick.host + "/_cluster/health", AuthHeaders(c.auth), NoBody);
         Sent(Elastic.HealthAccepted(reply), w.(hostIndex := pick.next, sent := w.sent + [req])))
    case LokiBackend(c) =>
      var req := HttpRequest("GET", Loki.HealthUrl(c.url), [], NoBody);
      Sent(Loki.HealthAccepted(reply), w.(sent := w.sent + [req]))
    case _ => Sent(true, w)
  }

  // ---------------------------------------------------------------------
  // Properties of a send
  // ---------------------------------------------------------------------

  /** A Loki batch holding a span without a model name fails as a whole and
      sends nothing: its stream key has no fourth part to read. */
  lemma LokiModelLessSpanSendsNothing(c: Loki.Config, parse: string -> Option<int>, w: Wire,
                                      spans: seq<SpanData>, i: nat, reply: Reply)
    requires i < |spans| && Loki.PlainFields(spans[i])
    requires spans[i].modelName.None? || spans[i].modelName == Some("")
    ensures Transmit(LokiBackend(c), parse, w, spans, reply) == Sent(false, w)
  {
    Loki.ModelLessSpanFailsBatch(spans, i, parse);
    LokiStreamsFailSendsNothing(c, parse, w, spans, reply);
  }

  lemma LokiStreamsFailSendsNothing(c: Loki.Config, parse: string -> Option<int>, w: Wire,
                                    spans: seq<SpanData>, reply: Reply)
    requires |spans| > 0 && Loki.Streams(spans, parse).Fail?
    ensures Transmit(LokiBackend(c), parse, w, spans, reply) == Sent(false, w)
  {
    LokiRequestFails(c, parse, spans);
    LokiBatchRequestFails(c, parse, w.hostIndex, w.token, spans);
    UnbuildableSendsNothing(LokiBackend(c), parse, w, spans, reply);
  }

  lemma LokiRequestFails(c: Loki.Config, parse: string -> Option<int>, spans: seq<SpanData>)
    requires Loki.Streams(spans, parse).Fail?
    ensures LokiRequest(c, parse, spans).Fail?
  {
  }

  lemma LokiBatchRequestFails(c: Loki.Config, parse: string -> Option<int>, hostIndex: nat, token: Option<string>,
                              spans: seq<SpanData>)
    requires LokiRequest(c, parse, spans).Fail?
    ensures BatchRequest(LokiBackend(c), parse, hostIndex, token, spans).Fail?
  {
    LokiBatchRequest(LokiBackend(c), parse, hostIndex, token, spans);
  }

  /** On Loki, the batch request is the Loki request. */
  lemma LokiBatchRequest(b: Backend, parse: string -> Option<int>, hostIndex: nat, token: Option<string>,
                         spans: seq<SpanData>)
    requires b.LokiBackend?
    ensures BatchRequest(b, parse, hostIndex, token, spans) == LokiRequest(b.loki, parse, spans)
  {
  }

  /** A batch whose request cannot be built leaves the wire as it was and
      reports failure, unless a client-less CloudWatch exporter never builds
      one. */
  lemma UnbuildableSendsNothing(b: Backend, parse: string -> Option<int>, w: Wire, spans: seq<SpanData>, reply: Reply)
    requires WireValid(b, w) && |spans| > 0 && !(b.CloudWatchBackend? && !w.client)
    requires BatchRequest(b, parse, w.hostIndex, w.token, spans).Fail?
    ensures Transmit(b, parse, w, spans, reply) == Sent(false, w)
  {
  }

  /** A request that was built goes out as the last one on the wire, and
      the backend's rule on the reply decides the outcome. */
  lemma BuiltRequestGoesOut(b: Backend, parse: string -> Option<int>, w: Wire, spans: seq<SpanData>, reply: Reply,
                            req: Request)
    requires WireValid(b, w) && |spans| > 0 && !(b.CloudWatchBackend? && !w.client)
    requires BatchRequest(b, parse, w.hostIndex, w.token, spans) == Ok(req)
    ensures var token := if b.CloudWatchBackend? && reply.Response? then reply.nextToken else w.token;
      Transmit(b, parse, w, spans, reply) == Sent(Accepts(b, reply), Wire(NextHost(b, w.hostIndex), w.client, token, w.sent + [req]))
  {
  }

  /** A Datadog batch holding a span whose trace id is not a hex number
      fails as a whole and sends nothing. */
  lemma DatadogBadIdSendsNothing(c: Datadog.Config, parse: string -> Option<int>, w: Wire,
                                 spans: seq<SpanData>, i: nat, reply: Reply)
    requires i < |spans| && spans[i].traceId.Some?
    requires var id := spans[i].traceId.value; |id| <= 16 && (|id| == 0 || id[0] == '-')
    ensures Transmit(DatadogBackend(c), parse, w, spans, reply) == Sent(false, w)
  {
    Datadog.BadIdsRejected(spans[i].traceId.value);
    assert Datadog.SpanToDatadog(spans[i], c.serviceName, parse).Fail?;
  }

  /** `Map.of` refuses a null service name, so an OTLP exporter built
      without one never sends anything. */
  lemma OtlpNullServiceSendsNothing(c: Otlp.Config, parse: string -> Option<int>, w: Wire,
                                    spans: seq<SpanData>, reply: Reply)
    requires c.serviceName.None? && |spans| > 0
    ensures Transmit(OtlpBackend(c), parse, w, spans, reply) == Sent(false, w)
  {
  }

  /** Splunk sends one event per span, in batch order, to the collector
      URL, authorised by the token. */
  lemma SplunkOneEventPerSpan(c: SplunkHec.Config, parse: string -> Option<int>, w: Wire,
                              spans: seq<SpanData>, reply: Reply)
    requires |spans| > 0
    ensures var r := Transmit(SplunkBackend(c), parse, w, spans, reply);
      |r.wire.sent| == |w.sent| + 1 && (r.ok <==> StatusIs(reply, 200))
    ensures var req := Transmit(SplunkBackend(c), parse, w, spans, reply).wire.sent[|w.sent|];
      req.HttpRequest? && req.url == c.url && Header("Authorization", "Splunk " + c.token) in req.headers &&
      req.body.HecBody? && |req.body.events| == |spans| &&
      forall j :: 0 <= j < |spans| ==> req.body.events[j].event == spans[j]
  {
  }

  /** Elasticsearch posts the whole batch to the host at the counter, two
      lines per span, and moves the counter on by one place. */
  lemma ElasticBulkToCurrentHost(c: Elastic.Config, parse: string -> Option<int>, w: Wire,
                                 spans: seq<SpanData>, reply: Reply)
    requires w.hostIndex < |c.hosts| && c.index.Some? && |spans| > 0
    ensures var r := Transmit(ElasticBackend(c), parse, w, spans, reply);
      |r.wire.sent| == |w.sent| + 1 && (r.ok <==> Elastic.BulkAccepted(reply)) &&
      r.wire.hostIndex == (w.hostIndex + 1) % |c.hosts|
    ensures var req := Transmit(ElasticBackend(c), parse, w, spans, reply).wire.sent[|w.sent|];
      req.HttpRequest? && req.url == c.hosts[w.hostIndex] + "/_bulk" &&
      req.body.BulkBody? && |req.body.lines| == 2 * |spans|
  {
  }

  /** With a client and parsable timestamps, CloudWatch puts every span of
      the batch once, in timestamp order, under the token it holds, and
      keeps the token the response hands back. */
  lemma CloudWatchPutsSortedBatch(c: CloudWatch.Config, parse: string -> Option<int>, w: Wire,
                                  spans: seq<SpanData>, reply: Reply)
    requires w.client && |spans| > 0
    requires forall j :: 0 <= j < |spans| ==> parse(spans[j].timestamp).Some?
    ensures var r := Transmit(CloudWatchBackend(c), parse, w, spans, reply);
      |r.wire.sent| == |w.sent| + 1 && (r.ok <==> reply.Response?) &&
      r.wire.token == (if reply.Response? then reply.nextToken else w.token)
    ensures var req := Transmit(CloudWatchBackend(c), parse, w, spans, reply).wire.sent[|w.sent|];
      req.PutEvents? && req.put.sequenceToken == w.token && req.put.logStream == c.logStreamName &&
      |req.put.events| == |spans| &&
      multiset(CloudWatch.Messages(req.put.events)) == multiset(spans) &&
      forall j, k :: 0 <= j < k < |spans| ==>
        CloudWatch.LexLe(req.put.events[j].message.timestamp, req.put.events[k].message.timestamp)
  {
    CloudWatch.LogEventsOfBatch(spans, parse);
  }

  /** Without a client CloudWatch succeeds and sends nothing, whatever the
      batch holds. */
  lemma CloudWatchWithoutClientLogsLocally(c: CloudWatch.Config, parse: string -> Option<int>, w: Wire,
                                           spans: seq<SpanData>, reply: Reply)
    requires !w.client
    ensures Transmit(CloudWatchBackend(c), parse, w, spans, reply) == Sent(true, w)
  {
  }

  /** An Elasticsearch health check uses up a turn of the round robin just
      as a send does. */
  lemma ElasticHealthTakesATurn(c: Elastic.Config, parse: string -> Option<int>, w: Wire, now: string, reply: Reply)
    requires w.hostIndex < |c.hosts|
    ensures var r := Health(ElasticBackend(c), parse, w, now, reply);
      r.wire.hostIndex == (w.hostIndex + 1) % |c.hosts| && (r.ok <==> StatusIs(reply, 200)) &&
      r.wire.sent == w.sent + [HttpRequest("GET", c.hosts[w.hostIndex] + "/_cluster/health", AuthHeaders(c.auth), NoBody)]
  {
  }

  // ---------------------------------------------------------------------
  // The buffer
  // ---------------------------------------------------------------------

  /** The buffer after an `export` with batching on, and the snapshot it
      flushed (empty when it did not flush). */
  datatype Step = Step(batch: seq<SpanData>, flushed: seq<SpanData>)

  function Enqueue(batchSize: int, batch: seq<SpanData>, span: SpanData): (s: Step)
    requires batchSize > 1
    ensures s.flushed + s.batch == batch + [span]
    ensures s.flushed != [] <==> |batch| + 1 >= batchSize
    ensures s.flushed != [] ==> s.batch == []
  {
    var grown := batch + [span];
    if |grown| >= batchSize then Step([], grown) else Step(grown, [])
  }

  /** The snapshots a run of `export` calls flushes, and the buffer left. */
  datatype Run = Run(batch: seq<SpanData>, flushes: seq<seq<SpanData>>)

  function ExportAll(batchSize: int, batch: seq<SpanData>, spans: seq<SpanData>): Run
    requires batchSize > 1
    decreases |spans|
  {
    if |spans| == 0 then Run(batch, [])
    else
      var s := Enqueue(batchSize, batch, spans[0]);
      var rest := ExportAll(batchSize, s.batch, spans[1..]);
      Run(rest.batch, (if s.flushed == [] then [] else [s.flushed]) + rest.flushes)
  }

  function Flatten<T>(xss: seq<seq<T>>): seq<T>
  {
    if |xss| == 0 then [] else xss[0] + Flatten(xss[1..])
  }

  /**
   * The buffer loses, duplicates and reorders nothing: the snapshots sent,
   * followed by what is still buffered, are the spans buffered before and
   * the spans exported since, in order. Each flush sends exactly
   * `batchSize` spans and the buffer stays below `batchSize`.
   */
  lemma {:induction false} BufferKeepsEverySpan(batchSize: int, batch: seq<SpanData>, spans: seq<SpanData>)
    requires 1 < batchSize && |batch| < batchSize
    ensures Flatten(ExportAll(batchSize, batch, spans).flushes) + ExportAll(batchSize, batch, spans).batch == batch + spans
    decreases |spans|
  {
    if |spans| > 0 {
      var x, more := spans[0], spans[1..];
      var s := Enqueue(batchSize, batch, x);
      var rest := ExportAll(batchSize, s.batch, more);
      BufferKeepsEverySpan(batchSize, s.batch, more);
      var r := ExportAll(batchSize, batch, spans);
      if s.flushed != [] {
        assert r.flushes == [s.flushed] + rest.flushes;
        FlattenCons(s.flushed, rest.flushes);
        AppendAssoc(s.flushed, Flatten(rest.flushes), rest.batch);
        assert s.flushed + s.batch == batch + [x];
      } else {
        assert r.flushes == rest.flushes;
      }
      AppendAssoc(batch, [x], more);
      assert [x] + more == spans;
    }
  }

  /** The buffer stays below `batchSize`, and every flush sends exactly
      `batchSize` spans. */
  lemma {:induction false} FlushesAreFull(batchSize: int, batch: seq<SpanData>, spans: seq<SpanData>)
    requires 1 < batchSize && |batch| < batchSize
    ensures |ExportAll(batchSize, batch, spans).batch| < batchSize
    ensures forall f :: f in ExportAll(batchSize, batch, spans).flushes ==> |f| == batchSize
    decreases |spans|
  {
    if |spans| > 0 {
      var s := Enqueue(batchSize, batch, spans[0]);
      FlushesAreFull(batchSize, s.batch, spans[1..]);
    }
  }

  lemma FlattenCons<T>(xs: seq<T>, xss: seq<seq<T>>)
    ensures Flatten([xs] + xss) == xs + Flatten(xss)
  {
    assert ([xs] + xss)[1..] == xss;
  }

  lemma {:induction false} FlattenLength<T>(xss: seq<seq<T>>, n: nat)
    requires forall i :: 0 <= i < |xss| ==> |xss[i]| == n
    ensures |Flatten(xss)| == |xss| * n
    decreases |xss|
  {
    if |xss| > 0 {
      FlattenLength(xss[1..], n);
    }
  }

  /** A run of exports flushes as many times as `batchSize` fits into the
      spans it has seen: `k` flushes when `k * batchSize` spans fit and
      `(k + 1) * batchSize` do not. */
  lemma FlushCount(batchSize: int, batch: seq<SpanData>, spans: seq<SpanData>)
    requires 1 < batchSize && |batch| < batchSize
    ensures var k := |ExportAll(batchSize, batch, spans).flushes|;
      k * batchSize <= |batch| + |spans| < k * batchSize + batchSize
  {
    var r := ExportAll(batchSize, batch, spans);
    BufferKeepsEverySpan(batchSize, batch, spans);
    FlushesAreFull(batchSize, batch, spans);
    FlattenLength(r.flushes, batchSize);
    assert |Flatten(r.flushes) + r.batch| == |batch + spans|;
  }

  // ---------------------------------------------------------------------
  // The exporter
  // ---------------------------------------------------------------------

  /** The request of a non-empty batch on each backend, by the loops each
      exporter runs. */
  method BuildBatch(b: Backend, parse: string -> Option<int>, hostIndex: nat, token: Option<string>,
                    spans: seq<SpanData>) returns (built: Result<Request>)
    requires b.ElasticBackend? ==> Elastic.ValidIndex(b.elastic.hosts, hostIndex)
    ensures built == BatchRequest(b, parse, hostIndex, token, spans)
  {
    match b {
      case SplunkBackend(c) =>
        var req := BuildSplunkRequest(c, spans);
        built := Ok(req);
      case ElasticBackend(c) =>
        built := BuildElasticRequest(c, hostIndex, spans);
      case LokiBackend(c) =>
        built := BuildLokiRequest(c, parse, spans);
      case _ =>
        built := BatchRequest(b, parse, hostIndex, token, spans);
    }
  }

  /** Splunk's event loop, proved against `SplunkRequest`. */
  method BuildSplunkRequest(c: SplunkHec.Config, spans: seq<SpanData>) returns (req: Request)
    ensures req == SplunkRequest(c, spans)
  {
    var events := SplunkHec.BuildEvents(c, spans);
    req := HttpRequest("POST", c.url, [SplunkHec.AuthHeader(c), ContentType], HecBody(events));
  }

  /** Elasticsearch's bulk loop, then the host at the counter. */
  method BuildElasticRequest(c: Elastic.Config, hostIndex: nat, spans: seq<SpanData>) returns (built: Result<Request>)
    requires Elastic.ValidIndex(c.hosts, hostIndex)
    ensures built == ElasticRequest(c, hostIndex, spans)
  {
    var lines := Elastic.BuildBulk(c.index, spans);
    if lines.Fail? {
      built := Fail(lines.reason);
    } else {
      var pick := Elastic.GetHost(c.hosts, hostIndex);
      if pick.Fail? {
        built := Fail(pick.reason);
      } else {
        built := Ok(HttpRequest("POST", pick.value.host + "/_bulk", AuthHeaders(c.auth) + [ContentType],
                                BulkBody(lines.value)));
      }
    }
  }

  /** Loki's stream-grouping loop. */
  method BuildLokiRequest(c: Loki.Config, parse: string -> Option<int>, spans: seq<SpanData>) returns (built: Result<Request>)
    ensures built == LokiRequest(c, parse, spans)
  {
    var streams := Loki.SpansToStreams(spans, parse);
    if streams.Fail? {
      built := Fail(streams.reason);
    } else {
      built := Ok(HttpRequest("POST", c.url, Loki.Headers(c), LokiBody(streams.value)));
    }
  }

  class BatchingExporter {
    const backend: Backend
    const batchSize: int
    /** `Instant.parse(..).toEpochMilli()`, None where it throws. */
    const parse: string -> Option<int>
    var batch: seq<SpanData>
    var running: bool
    /** Whether the periodic flush is scheduled. */
    var scheduled: bool
    var hostIndex: nat
    var client: bool
    var token: Option<string>
    var sent: seq<Request>

    function Link(): Wire
      reads this
    {
      Wire(hostIndex, client, token, sent)
    }

    /** What holds however the buffer stands. */
    predicate Wired()
      reads this
    {
      batchSize == BatchSize(backend) && WireValid(backend, Link())
    }

    /** With batching off nothing is ever buffered; with it on the buffer is
        flushed before it reaches `batchSize`. */
    predicate Valid()
      reads this
    {
      Wired() && (batchSize <= 1 ==> batch == [] && !scheduled) && (batchSize > 1 ==> |batch| < batchSize)
    }

    constructor(backend: Backend, parse: string -> Option<int>)
      ensures Valid()
      ensures this.backend == backend && this.parse == parse && batchSize == BatchSize(backend)
      ensures batch == [] && !running && !scheduled
      ensures hostIndex == 0 && !client && token.None? && sent == []
    {
      this.backend := backend;
      this.batchSize := BatchSize(backend);
      this.parse := parse;
      batch := [];
      running := false;
      scheduled := false;
      hostIndex := 0;
      client := false;
      token := None;
      sent := [];
    }

    /**
     * `start`, guarded by `running`. The CloudWatch exporter first tries to
     * create its client (`clientAvailable`: the AWS SDK is present) and,
     * with one, asks for its log stream; any failure there is swallowed.
     * The periodic flush is scheduled only when batching is on.
     */
    method Start(clientAvailable: bool)
      requires Valid()
      modifies this
      ensures Valid()
      ensures old(running) ==> unchanged(this)
      ensures !old(running) ==> running && scheduled == (batchSize > 1) && batch == old(batch)
      ensures !old(running) ==> hostIndex == old(hostIndex) && token == old(token)
      ensures !old(running) && backend.CloudWatchBackend? && clientAvailable ==>
        client && sent == old(sent) + [CreateLogStream(backend.cloudWatch.logGroup, backend.cloudWatch.logStreamName)]
      ensures !old(running) && !(backend.CloudWatchBackend? && clientAvailable) ==>
        client == old(client) && sent == old(sent)
    {
      if running {
        return;
      }
      running := true;
      if backend.CloudWatchBackend? && clientAvailable {
        client := true;
        sent := sent + [CreateLogStream(backend.cloudWatch.logGroup, backend.cloudWatch.logStreamName)];
      }
      if batchSize > 1 {
        scheduled := true;
      }
    }

    /** The payload and request of a non-empty batch, built by the loops
        each exporter runs. */
    method BuildRequest(spans: seq<SpanData>) returns (built: Result<Request>)
      requires Wired()
      ensures built == BatchRequest(backend, parse, hostIndex, token, spans)
    {
      built := BuildBatch(backend, parse, hostIndex, token, spans);
    }

    /** `sendBatch`, on the exporter's own state; the payload loops are the
        ones each exporter runs. */
    method SendBatch(spans: seq<SpanData>, reply: Reply) returns (ok: bool)
      requires Wired()
      modifies this
      ensures Wired()
      ensures var t := Transmit(backend, parse, old(Link()), spans, reply); ok == t.ok && Link() == t.wire
      ensures batch == old(batch) && running == old(running) && scheduled == old(scheduled)
    {
      if |spans| == 0 || (backend.CloudWatchBackend? && !client) {
        return true;
      }
      var built := BuildRequest(spans);
      if built.Fail? {
        UnbuildableSendsNothing(backend, parse, Link(), spans, reply);
        return false;
      }
      BuiltRequestGoesOut(backend, parse, Link(), spans, reply, built.value);
      ok := Deliver(built.value, reply);
    }

    /** The request goes out: it joins the wire, the Elasticsearch counter
        moves on, and a CloudWatch response hands over its token. */
    method Deliver(req: Request, reply: Reply) returns (ok: bool)
      requires Wired()
      modifies this
      ensures Wired()
      ensures sent == old(sent) + [req] && hostIndex == NextHost(backend, old(hostIndex)) && client == old(client)
      ensures token == if backend.CloudWatchBackend? && reply.Response? then reply.nextToken else old(token)
      ensures ok == Accepts(backend, reply)
      ensures batch == old(batch) && running == old(running) && scheduled == old(scheduled)
    {
      sent := sent + [req];
      hostIndex := NextHost(backend, hostIndex);
      if backend.CloudWatchBackend? && reply.Response? {
        token := reply.nextToken;
      }
      ok := Accepts(backend, reply);
    }

    /** `flush`: snapshot the buffer, clear it and send the snapshot; an
        empty buffer sends nothing. What the send reports is dropped. */
    method Flush(reply: Reply)
      requires Wired()
      modifies this
      ensures Wired() && batch == []
      ensures Link() == Transmit(backend, parse, old(Link()), old(batch), reply).wire
      ensures running == old(running) && scheduled == old(scheduled)
    {
      if batch == [] {
        return;
      }
      var toSend := batch;
      batch := [];
      var _ := SendBatch(toSend, reply);
    }

    /**
     * `export`. With batching off the span is sent on its own and the send
     * decides the result. With it on the span is buffered, a full buffer is
     * flushed, and the result is true even when that flush fails.
     */
    method Export(span: SpanData, reply: Reply) returns (ok: bool)
      requires Valid()
      modifies this
      ensures Valid()
      ensures batchSize <= 1 ==>
        var t := Transmit(backend, parse, old(Link()), [span], reply); ok == t.ok && Link() == t.wire
      ensures batchSize > 1 ==> ok
      ensures batchSize > 1 ==> var s := Enqueue(batchSize, old(batch), span);
        batch == s.batch && Link() == Transmit(backend, parse, old(Link()), s.flushed, reply).wire
      ensures running == old(running) && scheduled == old(scheduled)
    {
      if batchSize <= 1 {
        ok := SendBatch([span], reply);
        return;
      }
      batch := batch + [span];
      if |batch| >= batchSize {
        Flush(reply);
      }
      ok := true;
    }

    /** `stop`: the periodic flush is cancelled and what is buffered is
        flushed one last time. */
    method Stop(reply: Reply)
      requires Valid()
      modifies this
      ensures Valid() && !running && !scheduled && batch == []
      ensures Link() == Transmit(backend, parse, old(Link()), old(batch), reply).wire
    {
      running := false;
      scheduled := false;
      Flush(reply);
    }

    /** `healthCheck`; `now` is the clock reading the Splunk probe carries. */
    method HealthCheck(now: string, reply: Reply) returns (ok: bool)
      requires Valid()
      modifies this
      ensures Valid()
      ensures var t := Health(backend, parse, old(Link()), now, reply); ok == t.ok && Link() == t.wire
      ensures batch == old(batch) && running == old(running) && scheduled == old(scheduled)
    {
      var t := Health(backend, parse, Link(), now, reply);
      ok := t.ok;
      hostIndex, client, token, sent := t.wire.hostIndex, t.wire.client, t.wire.token, t.wire.sent;
    }
  }
}
