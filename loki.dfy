// The Grafana Loki exporter's wire format: the push URL, the grouping of a
// batch into streams by a label key, the labels recovered from that key, the
// log entries of each stream and the readiness URL. The buffering shared
// with the other network exporters lives in `Batching`.

module Loki {
  import opened Common
  import opened SpanRecords
  import opened Http
  import opened Grouping

  const PushPath: string := "/loki/api/v1/push"

  /** The URL loses one trailing '/' and gains the push path unless it
      already contains it somewhere. */
  function PushUrl(url: string): (r: string)
    ensures Contains(r, PushPath)
    ensures r == StripTrailingSlash(url) || r == StripTrailingSlash(url) + PushPath
  {
    var u := StripTrailingSlash(url);
    if Contains(u, PushPath) then u
    else
      ContainsOwnSuffix(u, PushPath);
      u + PushPath
  }

  /** `healthCheck` asks `<push URL with every "/loki/api/v1/push" removed>/ready`. */
  function HealthUrl(pushUrl: string): string
  {
    ReplaceAll(pushUrl, PushPath, "") + "/ready"
  }

  /** No occurrence of `target` starts inside `a`. */
  predicate NoMatchStartsIn(a: string, b: string, target: string)
  {
    forall i :: 0 <= i < |a| ==> !(target <= (a + b)[i..])
  }

  lemma {:induction false} ReplaceAllSkipsPrefix(a: string, b: string, target: string, replacement: string)
    requires |target| > 0 && NoMatchStartsIn(a, b, target)
    ensures ReplaceAll(a + b, target, replacement) == a + ReplaceAll(b, target, replacement)
    decreases |a|
  {
    if |a| > 0 {
      NoMatchStartsInTail(a, b, target);
      var s := a + b;
      var tail := ReplaceAll(b, target, replacement);
      ReplaceAllNoMatchStep(s, target, replacement);
      assert s[0] == a[0] && s[1..] == a[1..] + b;
      ReplaceAllSkipsPrefix(a[1..], b, target, replacement);
      assert ReplaceAll(s, target, replacement) == [a[0]] + (a[1..] + tail);
      assert [a[0]] + a[1..] == a;
      assert [a[0]] + (a[1..] + tail) == ([a[0]] + a[1..]) + tail;
    } else {
      assert a + b == b;
      assert a + ReplaceAll(b, target, replacement) == ReplaceAll(b, target, replacement);
    }
  }

  /** Dropping the first character of `a` keeps the property, and no match
      starts at the very beginning. */
  lemma NoMatchStartsInTail(a: string, b: string, target: string)
    requires |a| > 0 && NoMatchStartsIn(a, b, target)
    ensures NoMatchStartsIn(a[1..], b, target) && !(target <= a + b)
  {
    var s := a + b;
    assert s[0..] == s;
    forall i | 0 <= i < |a[1..]|
      ensures !(target <= (a[1..] + b)[i..])
    {
      assert (a[1..] + b)[i..] == s[i + 1..];
    }
  }

  /** Where no match starts, `replaceAll` keeps the first character. */
  lemma ReplaceAllNoMatchStep(s: string, target: string, replacement: string)
    requires |target| > 0 && |s| > 0 && !(target <= s)
    ensures ReplaceAll(s, target, replacement) == [s[0]] + ReplaceAll(s[1..], target, replacement)
  {
  }

  /** The readiness probe of a push URL built from a base address is that
      base plus "/ready", as long as no copy of the push path starts inside
      the base. */
  lemma HealthUrlOfPushUrl(base: string)
    requires NoMatchStartsIn(base, PushPath, PushPath)
    ensures HealthUrl(base + PushPath) == base + "/ready"
  {
    ReplaceAllSkipsPrefix(base, PushPath, PushPath, "");
    assert PushPath[|PushPath|..] == [];
  }

  // ---------------------------------------------------------------------
  // Grouping into streams
  // ---------------------------------------------------------------------

  /** The grouping key: span type, workflow (default "default"), status and
      model (default empty), joined by ':'. A null span type prints as "null". */
  function StreamKey(span: SpanData): (key: string)
    ensures |key| == |OrNull(span.spanType)| + |OrElse(span.workflowName, "default")| + |span.status|
                     + |OrElse(span.modelName, "")| + 3
    ensures key[..|OrNull(span.spanType)|] == OrNull(span.spanType) && key[|OrNull(span.spanType)|] == ':'
    ensures key[|key| - |OrElse(span.modelName, "")|..] == OrElse(span.modelName, "")
  {
    OrNull(span.spanType) + ":" + (OrElse(span.workflowName, "default") + ":" +
    (span.status + ":" + OrElse(span.modelName, "")))
  }

  // ---------------------------------------------------------------------
  // Labels
  // ---------------------------------------------------------------------

  datatype Label = Label(name: string, value: string)

  /**
   * The labels of a stream, read back from its key with `split(":")`: job,
   * span type, workflow and status always, and the model when the fourth
   * part is not empty. A key that splits into fewer than four parts makes
   * the indexing throw, which fails the whole batch.
   */
  function Labels(key: string): (r: Result<seq<Label>>)
    ensures r.Ok? ==> 4 <= |r.value| <= 5 && r.value[0] == Label("job", "genai-telemetry")
  {
    var parts := JavaSplit(key, ':');
    if |parts| < 4 then Fail(ArrayIndexOutOfBounds)
    else
      Ok([Label("job", "genai-telemetry"), Label("span_type", parts[0]),
          Label("workflow", parts[1]), Label("status", parts[2])] +
         (if parts[3] != "" then [Label("model", parts[3])] else []))
  }

  lemma SplitAtColon(a: string, rest: string)
    requires ':' !in a
    ensures SplitAll(a + ":" + rest, ':') == [a] + SplitAll(rest, ':')
  {
    SplitAllCons(a, ':', rest);
  }

  /** The key splits back into its first three fields when they hold no ':'. */
  lemma SplitKey(a: string, b: string, c: string, d: string)
    requires ':' !in a && ':' !in b && ':' !in c
    ensures JavaSplit(a + ":" + (b + ":" + (c + ":" + d)), ':') ==
            DropTrailingEmpty([a, b, c] + SplitAll(d, ':'))
  {
    var third := c + ":" + d;
    var second := b + ":" + third;
    var key := a + ":" + second;
    assert key[|a|] == ':';
    SplitAtColon(c, d);
    SplitAtColon(b, third);
    SplitAtColon(a, second);
    var parts := SplitAll(key, ':');
    assert parts == [a] + ([b] + ([c] + SplitAll(d, ':')));
    SplitAssoc(a, b, c, SplitAll(d, ':'));
  }

  lemma SplitAssoc(a: string, b: string, c: string, rest: seq<string>)
    ensures [a] + ([b] + ([c] + rest)) == [a, b, c] + rest
  {
  }

  /** No ':' in the span type, workflow or status. */
  predicate PlainFields(span: SpanData)
  {
    ':' !in OrNull(span.spanType) && ':' !in OrElse(span.workflowName, "default") && ':' !in span.status
  }

  /** A span with a plain model name gets all five labels. */
  lemma LabelsOfModelSpan(span: SpanData)
    requires PlainFields(span)
    requires span.modelName.Some? && span.modelName.value != "" && ':' !in span.modelName.value
    ensures Labels(StreamKey(span)) ==
      Ok([Label("job", "genai-telemetry"), Label("span_type", OrNull(span.spanType)),
          Label("workflow", OrElse(span.workflowName, "default")), Label("status", span.status),
          Label("model", span.modelName.value)])
  {
    var m := span.modelName.value;
    var parts := [OrNull(span.spanType), OrElse(span.workflowName, "default"), span.status, m];
    SplitKey(OrNull(span.spanType), OrElse(span.workflowName, "default"), span.status, m);
    SplitAllNoSep(m, ':');
    assert [parts[0], parts[1], parts[2]] + SplitAll(m, ':') == parts;
    assert DropTrailingEmpty(parts) == parts;
    assert JavaSplit(StreamKey(span), ':') == parts;
    assert |parts| == 4 && parts[3] == m && m != "";
    var expected := [Label("job", "genai-telemetry"), Label("span_type", parts[0]),
          Label("workflow", parts[1]), Label("status", parts[2])] + [Label("model", parts[3])];
    assert Labels(StreamKey(span)) == Ok(expected);
    assert expected == [Label("job", "genai-telemetry"), Label("span_type", OrNull(span.spanType)),
          Label("workflow", OrElse(span.workflowName, "default")), Label("status", span.status),
          Label("model", span.modelName.value)];
  }

  /** A model name containing ':' is cut at its first ':'. */
  lemma ModelLabelCutAtColon(span: SpanData, m1: string, m2: string)
    requires PlainFields(span)
    requires m1 != "" && ':' !in m1 && span.modelName == Some(m1 + ":" + m2)
    ensures Labels(StreamKey(span)).Ok? && |Labels(StreamKey(span)).value| == 5
    ensures Labels(StreamKey(span)).value[4] == Label("model", m1)
  {
    SplitKey(OrNull(span.spanType), OrElse(span.workflowName, "default"), span.status, m1 + ":" + m2);
    assert m1 + ":" + m2 == m1 + [':'] + m2;
    SplitAllCons(m1, ':', m2);
    var parts := [OrNull(span.spanType), OrElse(span.workflowName, "default"), span.status] + ([m1] + SplitAll(m2, ':'));
    assert parts[3] == m1;
    var r := DropTrailingEmpty(parts);
    assert |r| >= 4;
    assert r[3] == m1;
  }

  /**
   * A span without a model name (and no ':' in its other fields) yields a
   * key whose trailing empty part `split` drops: only three parts remain,
   * so its labels cannot be built.
   */
  lemma ModelLessLabelsFail(span: SpanData)
    requires PlainFields(span)
    requires span.modelName.None? || span.modelName == Some("")
    ensures Labels(StreamKey(span)).Fail?
  {
    SplitKey(OrNull(span.spanType), OrElse(span.workflowName, "default"), span.status, "");
    SplitAllNoSep("", ':');
    var parts := [OrNull(span.spanType), OrElse(span.workflowName, "default"), span.status, ""];
    var r := DropTrailingEmpty(parts);
    assert |r| != 4;
  }

  // ---------------------------------------------------------------------
  // Entries and streams
  // ---------------------------------------------------------------------

  /** One `[nanoseconds, line]` pair; the line is the span's JSON. */
  datatype Entry = Entry(nanos: string, line: SpanData)

  /** The entries of a group. A span whose timestamp does not parse is
      logged and skipped; the others keep their order. */
  function Values(group: seq<SpanData>, parse: string -> Option<int>): (entries: seq<Entry>)
    ensures |entries| <= |group|
    decreases |group|
  {
    if |group| == 0 then []
    else
      var last := group[|group| - 1];
      Values(group[..|group| - 1], parse) +
      (match parse(last.timestamp)
       case None => []
       case Some(ms) => [Entry(IntToString(ms * 1_000_000), last)])
  }

  lemma {:induction false} ValuesConcat(a: seq<SpanData>, b: seq<SpanData>, parse: string -> Option<int>)
    ensures Values(a + b, parse) == Values(a, parse) + Values(b, parse)
    decreases |b|
  {
    if |b| == 0 {
      assert a + b == a;
    } else {
      var b' := b[..|b| - 1];
      assert (a + b)[..|a + b| - 1] == a + b';
      assert (a + b)[|a + b| - 1] == b[|b| - 1];
      ValuesConcat(a, b', parse);
    }
  }

  /** A span with an unparseable timestamp drops out alone. */
  lemma SkipsOnlyUnparseable(a: seq<SpanData>, s: SpanData, b: seq<SpanData>, parse: string -> Option<int>)
    requires parse(s.timestamp).None?
    ensures Values(a + [s] + b, parse) == Values(a, parse) + Values(b, parse)
  {
    ValuesConcat(a + [s], b, parse);
    ValuesConcat(a, [s], parse);
    assert [s][..0] == [];
    assert Values([s], parse) == Values([], parse) + [];
    assert Values(a + [s], parse) == Values(a, parse);
  }

  /** When every timestamp parses, entry `i` is span `i` at its time in
      nanoseconds. */
  lemma {:induction false} ValuesOfParsable(group: seq<SpanData>, parse: string -> Option<int>)
    requires forall i :: 0 <= i < |group| ==> parse(group[i].timestamp).Some?
    ensures |Values(group, parse)| == |group|
    ensures forall i :: 0 <= i < |group| ==>
      Values(group, parse)[i] == Entry(IntToString(parse(group[i].timestamp).value * 1_000_000), group[i])
    decreases |group|
  {
    if |group| > 0 {
      var prefix := group[..|group| - 1];
      assert forall i :: 0 <= i < |prefix| ==> prefix[i] == group[i];
      ValuesOfParsable(prefix, parse);
    }
  }

  /** The entry loop of one stream. */
  method StreamValues(group: seq<SpanData>, parse: string -> Option<int>) returns (entries: seq<Entry>)
    ensures entries == Values(group, parse)
  {
    entries := [];
    for i := 0 to |group|
      invariant entries == Values(group[..i], parse)
    {
      assert group[..i + 1][..i] == group[..i];
      match parse(group[i].timestamp)
      case None =>
      case Some(ms) =>
        entries := entries + [Entry(IntToString(ms * 1_000_000), group[i])];
    }
    assert group[..|group|] == group;
  }

  datatype Stream = Stream(labels: seq<Label>, values: seq<Entry>)

  /** The stream of one key: its labels and the entries of its spans. */
  function StreamOf(spans: seq<SpanData>, key: string, parse: string -> Option<int>): (r: Result<Stream>)
    ensures r.Ok? <==> Labels(key).Ok?
    ensures r.Ok? ==> r.value.labels == Labels(key).value
  {
    match Labels(key)
    case Fail(e) => Fail(e)
    case Ok(labels) => Ok(Stream(labels, Values(Members(spans, StreamKey, key), parse)))
  }

  /** Every stream has four or five labels, the job label first. */
  predicate JobLabelled(streams: seq<Stream>)
  {
    forall i :: 0 <= i < |streams| ==>
      4 <= |streams[i].labels| <= 5 && streams[i].labels[0] == Label("job", "genai-telemetry")
  }

  /** `spansToLokiStreams`: one stream per key, in order of first appearance;
      the first key whose labels cannot be built fails the whole batch. */
  function Streams(spans: seq<SpanData>, parse: string -> Option<int>): (r: Result<seq<Stream>>)
    ensures r.Ok? ==> |r.value| == |GroupKeys(spans, StreamKey)|
    ensures r.Ok? ==> JobLabelled(r.value)
  {
    Traverse(GroupKeys(spans, StreamKey), StreamOfKey(spans, parse))
  }

  function StreamOfKey(spans: seq<SpanData>, parse: string -> Option<int>): string -> Result<Stream>
  {
    key => StreamOf(spans, key, parse)
  }

  /** One span without a model name fails the whole batch. */
  lemma ModelLessSpanFailsBatch(spans: seq<SpanData>, i: nat, parse: string -> Option<int>)
    requires i < |spans| && PlainFields(spans[i])
    requires spans[i].modelName.None? || spans[i].modelName == Some("")
    ensures Streams(spans, parse).Fail?
  {
    ModelLessLabelsFail(spans[i]);
    var keys := GroupKeys(spans, StreamKey);
    var k := StreamKey(spans[i]);
    assert k in keys;
    var j :| 0 <= j < |keys| && keys[j] == k;
    assert StreamOf(spans, keys[j], parse).Fail?;
  }

  /** When every span's key yields labels, there is one stream per distinct
      key, and its entries come from exactly the spans of that key. */
  lemma StreamsOfLabelledBatch(spans: seq<SpanData>, parse: string -> Option<int>)
    requires forall j :: 0 <= j < |spans| ==> Labels(StreamKey(spans[j])).Ok?
    ensures Streams(spans, parse).Ok?
    ensures |Streams(spans, parse).value| == |GroupKeys(spans, StreamKey)|
    ensures forall i :: 0 <= i < |GroupKeys(spans, StreamKey)| ==>
      var key := GroupKeys(spans, StreamKey)[i];
      Streams(spans, parse).value[i] == Stream(Labels(key).value, Values(Members(spans, StreamKey, key), parse))
  {
    var keys := GroupKeys(spans, StreamKey);
    forall i | 0 <= i < |keys|
      ensures StreamOf(spans, keys[i], parse).Ok?
    {
      KeysComeFromElements(spans, StreamKey, keys[i]);
      var j :| 0 <= j < |spans| && StreamKey(spans[j]) == keys[i];
    }
  }

  /** The body of the stream loop for one key and its group. */
  method BuildStream(spans: seq<SpanData>, key: string, group: seq<SpanData>, parse: string -> Option<int>)
    returns (r: Result<Stream>)
    requires group == Members(spans, StreamKey, key)
    ensures r == StreamOf(spans, key, parse)
  {
    var labels := Labels(key);
    if labels.Fail? {
      return Fail(labels.reason);
    }
    var values := StreamValues(group, parse);
    r := Ok(Stream(labels.value, values));
  }

  /** The streams, when the stream of every key has been built. */
  lemma StreamsAllBuilt(spans: seq<SpanData>, parse: string -> Option<int>, streams: seq<Stream>)
    requires |streams| == |GroupKeys(spans, StreamKey)|
    requires forall j :: 0 <= j < |streams| ==> StreamOf(spans, GroupKeys(spans, StreamKey)[j], parse) == Ok(streams[j])
    ensures Streams(spans, parse) == Ok(streams)
  {
    var r := Streams(spans, parse);
    assert r.Ok?;
    assert r.value == streams;
  }

  /** The streams, when the stream of key `i` is the first that fails. */
  lemma StreamsFailAt(spans: seq<SpanData>, parse: string -> Option<int>, i: nat)
    requires i < |GroupKeys(spans, StreamKey)|
    requires StreamOf(spans, GroupKeys(spans, StreamKey)[i], parse).Fail?
    requires forall j :: 0 <= j < i ==> StreamOf(spans, GroupKeys(spans, StreamKey)[j], parse).Ok?
    ensures Streams(spans, parse) == Fail(StreamOf(spans, GroupKeys(spans, StreamKey)[i], parse).reason)
  {
    FirstFailure(GroupKeys(spans, StreamKey), StreamOfKey(spans, parse), i);
  }

  /** The stream loop over the grouped keys: the first key whose labels
      cannot be built stops it. */
  method BuildStreams(spans: seq<SpanData>, keys: seq<string>, groups: map<string, seq<SpanData>>,
                      parse: string -> Option<int>)
    returns (r: Result<seq<Stream>>, ghost failedAt: nat)
    requires forall k :: k in keys ==> k in groups && groups[k] == Members(spans, StreamKey, k)
    ensures r.Ok? ==> |r.value| == |keys|
    ensures r.Ok? ==> forall j :: 0 <= j < |keys| ==> StreamOf(spans, keys[j], parse) == Ok(r.value[j])
    ensures r.Fail? ==> failedAt < |keys| && StreamOf(spans, keys[failedAt], parse) == Fail(r.reason)
    ensures r.Fail? ==> forall j :: 0 <= j < failedAt ==> StreamOf(spans, keys[j], parse).Ok?
  {
    var streams: seq<Stream> := [];
    failedAt := 0;
    for i := 0 to |keys|
      invariant |streams| == i
      invariant AllMapped(keys, StreamOfKey(spans, parse), streams)
    {
      var stream := BuildStream(spans, keys[i], groups[keys[i]], parse);
      if stream.Fail? {
        return Fail(stream.reason), i;
      }
      AllMappedGrows(keys, StreamOfKey(spans, parse), streams, stream.value);
      streams := streams + [stream.value];
    }
    r := Ok(streams);
  }

  /** `spansToLokiStreams`: group, then build one stream per key. */
  method SpansToStreams(spans: seq<SpanData>, parse: string -> Option<int>) returns (r: Result<seq<Stream>>)
    ensures r == Streams(spans, parse)
  {
    var keys, groups := GroupByKey(spans, StreamKey);
    ghost var failedAt;
    r, failedAt := BuildStreams(spans, keys, groups, parse);
    if r.Fail? {
      StreamsFailAt(spans, parse, failedAt);
    } else {
      StreamsAllBuilt(spans, parse, r.value);
    }
  }

  // ---------------------------------------------------------------------
  // Request and configuration
  // ---------------------------------------------------------------------

  datatype Config = Config(url: string, tenantId: Option<string>, batchSize: int, flushIntervalMs: int)

  /** The constructor normalises the URL to the push URL. */
  function NewConfig(url: string, tenantId: Option<string>, batchSize: int, flushIntervalMs: int): (c: Config)
    ensures Contains(c.url, PushPath) && c.tenantId == tenantId
    ensures c.batchSize == batchSize && c.flushIntervalMs == flushIntervalMs
  {
    Config(PushUrl(url), tenantId, batchSize, flushIntervalMs)
  }

  /** The builder's defaults. */
  function DefaultConfig(): (c: Config)
    ensures c.tenantId.None? && c.batchSize == 10 && c.flushIntervalMs == 5000
  {
    NewConfig(DefaultUrl, None, 10, 5000)
  }

  /** A string none of whose positions starts a match does not contain it. */
  lemma {:induction false} NotContainedIfNoMatch(a: string, b: string, target: string)
    requires |target| > 0 && NoMatchStartsIn(a, b, target)
    ensures !Contains(a, target)
    decreases |a|
  {
    if |a| > 0 {
      assert (a + b)[0..] == a + b;
      assert (a + b)[..|a|] == a;
      forall i | 0 <= i < |a[1..]|
        ensures !(target <= (a[1..] + b)[i..])
      {
        assert (a[1..] + b)[i..] == (a + b)[i + 1..];
      }
      NotContainedIfNoMatch(a[1..], b, target);
    }
  }

  const DefaultUrl: string := "http://localhost:3100"

  /** The push path starts nowhere inside the default address. */
  lemma DefaultUrlHasNoPushPath()
    ensures NoMatchStartsIn(DefaultUrl, PushPath, PushPath)
  {
    forall i | 0 <= i < |DefaultUrl|
      ensures !(PushPath <= (DefaultUrl + PushPath)[i..])
    {
      NoPushPathAt(i);
    }
  }

  /** At each position of the default address some character of the push
      path is missed: its leading '/', or the 'l' or 'k' after it. */
  lemma NoPushPathAt(i: int)
    requires 0 <= i < |DefaultUrl|
    ensures !(PushPath <= (DefaultUrl + PushPath)[i..])
  {
    var t := (DefaultUrl + PushPath)[i..];
    assert PushPath[0] == '/' && PushPath[1] == 'l' && PushPath[3] == 'k';
    SchemeSlashes();
    if i == 5 {
      assert t[1] == DefaultUrl[6] != PushPath[1];
    } else if i == 6 {
      assert t[3] == DefaultUrl[9] != PushPath[3];
    } else {
      NoSlashOutsideScheme(i);
      assert t[0] == DefaultUrl[i] != PushPath[0];
    }
  }

  /** The characters around the "//" of the default address. */
  lemma SchemeSlashes()
    ensures DefaultUrl[5] == '/' && DefaultUrl[6] == '/' && DefaultUrl[9] == 'c'
  {
    assert DefaultUrl == "http:" + "//" + "localhost:3100";
  }

  /** The only slashes of the default address are the two after "http:". */
  lemma NoSlashOutsideScheme(i: int)
    requires 0 <= i < |DefaultUrl| && i != 5 && i != 6
    ensures DefaultUrl[i] != '/'
  {
    var host := "localhost:3100";
    assert DefaultUrl == "http:" + "//" + host;
    if i < 5 {
      assert DefaultUrl[i] == "http:"[i];
    } else {
      assert DefaultUrl[i] == host[i - 7];
    }
  }

  /** The default address is completed to its push URL, and its readiness
      probe is the address plus "/ready". */
  lemma DefaultUrls()
    ensures DefaultConfig().url == DefaultUrl + PushPath
    ensures HealthUrl(DefaultConfig().url) == DefaultUrl + "/ready"
  {
    assert DefaultUrl[|DefaultUrl| - 1] == '0';
    StripTrailingSlashKeeps(DefaultUrl);
    DefaultUrlHasNoPushPath();
    NotContainedIfNoMatch(DefaultUrl, PushPath, PushPath);
    HealthUrlOfPushUrl(DefaultUrl);
  }

  /** Content type always; the tenant header only for a non-empty tenant. */
  function Headers(c: Config): (hs: seq<Header>)
    ensures |hs| >= 1 && hs[0] == Header("Content-Type", "application/json")
    ensures |hs| == 2 <==> c.tenantId.Some? && c.tenantId.value != ""
    ensures |hs| == 2 ==> hs[1] == Header("X-Scope-OrgID", c.tenantId.value)
  {
    var hs := [Header("Content-Type", "application/json")];
    if c.tenantId.Some? && c.tenantId.value != "" then hs + [Header("X-Scope-OrgID", c.tenantId.value)]
    else hs
  }

  /** A push counts as accepted on 200 or 204. */
  predicate Accepted(reply: Reply)
  {
    StatusIs(reply, 200) || StatusIs(reply, 204)
  }

  predicate HealthAccepted(reply: Reply)
  {
    StatusIs(reply, 200)
  }
}
