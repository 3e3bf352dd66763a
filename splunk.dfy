// The Splunk HTTP Event Collector exporter's wire format: the collector URL,
// the builder's validation, one event per span and the authorization header.

module SplunkHec {
  import opened Common
  import opened SpanRecords
  import opened Http

  const EventPath: string := "/services/collector/event"

  /** The URL loses one trailing '/' and gains the collector path unless it
      already ends with it. */
  function CollectorUrl(hecUrl: string): (url: string)
    ensures EndsWith(url, EventPath)
    ensures url == StripTrailingSlash(hecUrl) || url == StripTrailingSlash(hecUrl) + EventPath
  {
    var url := StripTrailingSlash(hecUrl);
    if EndsWith(url, EventPath) then url
    else
      EndsWithOwnSuffix(url, EventPath);
      url + EventPath
  }

  /** Normalising an already normalised URL changes nothing. */
  lemma CollectorUrlIdempotent(hecUrl: string)
    ensures CollectorUrl(CollectorUrl(hecUrl)) == CollectorUrl(hecUrl)
  {
    var url := CollectorUrl(hecUrl);
    CollectorUrlKeptWhole(url);
  }

  /** A URL that already ends with the collector path loses no slash. */
  lemma CollectorUrlKeptWhole(url: string)
    requires EndsWith(url, EventPath)
    ensures StripTrailingSlash(url) == url
  {
    assert url[|url| - 1] == 't' by {
      assert url[|url| - 1] == url[|url| - |EventPath|..][|EventPath| - 1];
    }
    StripTrailingSlashKeeps(url);
  }

  /** One HEC event: the span under `event`, with index, sourcetype and a
      fixed source. A null index or sourcetype is sent as JSON null. */
  datatype HecEvent = HecEvent(index: Option<string>, sourcetype: Option<string>, source: string, event: SpanData)

  const Source: string := "genai-telemetry"

  datatype Config = Config(
    url: string,
    token: string,
    index: Option<string>,
    sourcetype: Option<string>,
    batchSize: int,
    flushIntervalMs: int)

  /** The events of one batch, one per span and in batch order. */
  function Events(c: Config, spans: seq<SpanData>): (events: seq<HecEvent>)
    ensures |events| == |spans|
    ensures forall i :: 0 <= i < |spans| ==>
      events[i].event == spans[i] && events[i].source == Source &&
      events[i].index == c.index && events[i].sourcetype == c.sourcetype
  {
    seq(|spans|, i requires 0 <= i < |spans| => HecEvent(c.index, c.sourcetype, Source, spans[i]))
  }

  /** The payload loop: each span is wrapped and appended as its own line. */
  method BuildEvents(c: Config, spans: seq<SpanData>) returns (events: seq<HecEvent>)
    ensures events == Events(c, spans)
  {
    events := [];
    for i := 0 to |spans|
      invariant events == Events(c, spans[..i])
    {
      events := events + [HecEvent(c.index, c.sourcetype, Source, spans[i])];
    }
    assert spans[..|spans|] == spans;
  }

  function AuthHeader(c: Config): (h: Header)
    ensures h.name == "Authorization" && h.value == "Splunk " + c.token
  {
    Header("Authorization", "Splunk " + c.token)
  }

  /** A delivery counts as accepted only on HTTP 200. */
  predicate Accepted(reply: Reply)
  {
    StatusIs(reply, 200)
  }

  /** The probe `healthCheck` sends: a fresh record named "health_check" of
      type "HEALTH", built at the clock reading `now`. */
  function HealthSpan(now: string): (d: SpanData)
    ensures d.name == Some("health_check") && d.spanType == Some("HEALTH")
    ensures d.status == "OK" && d.isError == 0 && d.timestamp == now
    ensures d.totalTokens.None? && d.customAttributes == map[]
  {
    WithDerivedTotal(EmptySpanData(now).(name := Some("health_check"), spanType := Some("HEALTH")))
  }

  datatype Builder = Builder(
    hecUrl: Option<string>,
    hecToken: Option<string>,
    index: Option<string>,
    sourcetype: Option<string>,
    batchSize: int,
    flushIntervalMs: int)

  function DefaultBuilder(): (b: Builder)
    ensures b.hecUrl.None? && b.hecToken.None?
    ensures b.index == Some("genai_traces") && b.sourcetype == Some("genai:trace")
    ensures b.batchSize == 1 && b.flushIntervalMs == 5000
  {
    Builder(None, None, Some("genai_traces"), Some("genai:trace"), 1, 5000)
  }

  /** `Builder.build()`: both the URL and the token are required. */
  function Build(b: Builder): (r: Result<Config>)
    ensures r.Ok? <==> b.hecUrl.Some? && b.hecToken.Some?
    ensures r.Fail? ==> r.reason == IllegalArgument("hecUrl and hecToken are required")
    ensures r.Ok? ==> r.value.url == CollectorUrl(b.hecUrl.value) && r.value.token == b.hecToken.value
    ensures r.Ok? ==> r.value.index == b.index && r.value.sourcetype == b.sourcetype
    ensures r.Ok? ==> r.value.batchSize == b.batchSize
  {
    if b.hecUrl.None? || b.hecToken.None? then Fail(IllegalArgument("hecUrl and hecToken are required"))
    else Ok(Config(CollectorUrl(b.hecUrl.value), b.hecToken.value, b.index, b.sourcetype,
                   b.batchSize, b.flushIntervalMs))
  }

  /** A builder given only the two required values sends every span on its
      own (batch size 1). */
  lemma DefaultsSendImmediately(url: string, token: string)
    ensures var r := Build(DefaultBuilder().(hecUrl := Some(url), hecToken := Some(token)));
      r.Ok? && r.value.batchSize <= 1 && AuthHeader(r.value).value == "Splunk " + token
  {
  }
}
