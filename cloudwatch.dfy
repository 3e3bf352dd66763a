// The AWS CloudWatch Logs exporter's wire format: the log stream name, the
// ordering of a batch by timestamp, one log event per span and the
// `PutLogEvents` request. The client, the sequence token and the buffering
// live in `Batching`.

module CloudWatch {
  import opened Common
  import opened SpanRecords

  const StreamPrefix: string := "genai-telemetry-"

  /** The log stream name: the prefix and the construction time with every
      ':' and '.' turned into '-'. */
  function LogStreamName(now: string): (name: string)
    ensures StreamPrefix <= name
    ensures |name| == |StreamPrefix| + |now|
    ensures forall i :: 0 <= i < |now| ==> name[|StreamPrefix| + i] == Dashed(now[i])
  {
    var once := ReplaceAll(now, ":", "-");
    ReplaceAllPointwise(now, ":", "-");
    ReplaceAllPointwise(once, ".", "-");
    StreamPrefix + ReplaceAll(once, ".", "-")
  }

  /** A character of the clock reading as it appears in the stream name. */
  function Dashed(c: char): char
  {
    if c == ':' || c == '.' then '-' else c
  }

  /** The name keeps the length of the clock reading and holds neither ':'
      nor '.', whatever the reading. */
  lemma LogStreamNameClean(now: string)
    ensures StreamPrefix <= LogStreamName(now)
    ensures |LogStreamName(now)| == |StreamPrefix| + |now|
    ensures ':' !in LogStreamName(now) && '.' !in LogStreamName(now)
  {
    var once := ReplaceAll(now, ":", "-");
    var twice := ReplaceAll(once, ".", "-");
    ReplaceAllRemoves(now, ":", "-");
    ReplaceAllRemoves(once, ".", "-");
    ReplaceAllKeepsAbsent(once, ".", "-", ':');
    assert ':' !in StreamPrefix && '.' !in StreamPrefix;
    assert LogStreamName(now) == StreamPrefix + twice;
  }

  // ---------------------------------------------------------------------
  // `String.compareTo`
  // ---------------------------------------------------------------------

  /** `a.compareTo(b) <= 0`: the first differing character decides, and a
      proper prefix comes first. */
  predicate LexLe(a: string, b: string)
  {
    if |a| == 0 then true
    else if |b| == 0 then false
    else if a[0] != b[0] then a[0] < b[0]
    else LexLe(a[1..], b[1..])
  }

  lemma {:induction false} LexLeReflexive(a: string)
    ensures LexLe(a, a)
    decreases |a|
  {
    if |a| > 0 {
      LexLeReflexive(a[1..]);
    }
  }

  lemma {:induction false} LexLeTotal(a: string, b: string)
    ensures LexLe(a, b) || LexLe(b, a)
    decreases |a|
  {
    if |a| > 0 && |b| > 0 && a[0] == b[0] {
      LexLeTotal(a[1..], b[1..]);
    }
  }

  lemma {:induction false} LexLeTransitive(a: string, b: string, c: string)
    requires LexLe(a, b) && LexLe(b, c)
    ensures LexLe(a, c)
    decreases |a|
  {
    if |a| > 0 && |b| > 0 && |c| > 0 && a[0] == b[0] && b[0] == c[0] {
      LexLeTransitive(a[1..], b[1..], c[1..]);
    }
  }

  lemma {:induction false} LexLeAntisymmetric(a: string, b: string)
    requires LexLe(a, b) && LexLe(b, a)
    ensures a == b
    decreases |a|
  {
    if |a| > 0 {
      LexLeAntisymmetric(a[1..], b[1..]);
      assert a == [a[0]] + a[1..] && b == [b[0]] + b[1..];
    }
  }

  // ---------------------------------------------------------------------
  // Sorting by timestamp
  // ---------------------------------------------------------------------

  predicate SortedByTimestamp(spans: seq<SpanData>)
  {
    forall i, j :: 0 <= i < j < |spans| ==> LexLe(spans[i].timestamp, spans[j].timestamp)
  }

  /** Places `x` before the first span whose timestamp is not smaller. */
  function Insert(x: SpanData, sorted: seq<SpanData>): (r: seq<SpanData>)
    ensures multiset(r) == multiset(sorted) + multiset{x}
    decreases |sorted|
  {
    if |sorted| == 0 || LexLe(x.timestamp, sorted[0].timestamp) then [x] + sorted
    else
      assert sorted == [sorted[0]] + sorted[1..];
      [sorted[0]] + Insert(x, sorted[1..])
  }

  /**
   * `spans.sort(Comparator.comparing(SpanData::getTimestamp))`: a stable
   * sort on the timestamp text. The library's algorithm is not part of the
   * model; this definition is one with the same outcome.
   */
  function SortByTimestamp(spans: seq<SpanData>): (r: seq<SpanData>)
    ensures multiset(r) == multiset(spans)
    decreases |spans|
  {
    if |spans| == 0 then []
    else
      assert spans == [spans[0]] + spans[1..];
      Insert(spans[0], SortByTimestamp(spans[1..]))
  }

  lemma {:induction false} InsertKeepsSorted(x: SpanData, sorted: seq<SpanData>)
    requires SortedByTimestamp(sorted)
    ensures SortedByTimestamp(Insert(x, sorted))
    decreases |sorted|
  {
    if |sorted| == 0 || LexLe(x.timestamp, sorted[0].timestamp) {
      var r := [x] + sorted;
      forall i, j | 0 <= i < j < |r|
        ensures LexLe(r[i].timestamp, r[j].timestamp)
      {
        if i == 0 && j > 1 {
          LexLeTransitive(x.timestamp, sorted[0].timestamp, sorted[j - 1].timestamp);
        }
      }
    } else {
      var head := sorted[0];
      var rest := Insert(x, sorted[1..]);
      InsertKeepsSorted(x, sorted[1..]);
      LexLeTotal(x.timestamp, head.timestamp);
      forall z | z in rest
        ensures LexLe(head.timestamp, z.timestamp)
      {
        assert z in multiset(rest);
        if z != x {
          assert z in multiset(sorted[1..]);
          var k :| 0 <= k < |sorted[1..]| && sorted[1..][k] == z;
          assert sorted[k + 1] == z;
        }
      }
      var r := [head] + rest;
      forall i, j | 0 <= i < j < |r|
        ensures LexLe(r[i].timestamp, r[j].timestamp)
      {
        if i == 0 {
          assert r[j] in rest;
        }
      }
    }
  }

  /** The sorted batch is in timestamp order. */
  lemma {:induction false} SortSorts(spans: seq<SpanData>)
    ensures SortedByTimestamp(SortByTimestamp(spans))
    decreases |spans|
  {
    if |spans| > 0 {
      SortSorts(spans[1..]);
      InsertKeepsSorted(spans[0], SortByTimestamp(spans[1..]));
    }
  }

  /** The spans carrying timestamp `t`, in order. */
  function WithTimestamp(spans: seq<SpanData>, t: string): (r: seq<SpanData>)
    decreases |spans|
  {
    if |spans| == 0 then []
    else (if spans[0].timestamp == t then [spans[0]] else []) + WithTimestamp(spans[1..], t)
  }

  lemma {:induction false} WithTimestampInsert(x: SpanData, sorted: seq<SpanData>, t: string)
    ensures WithTimestamp(Insert(x, sorted), t) ==
            (if x.timestamp == t then [x] else []) + WithTimestamp(sorted, t)
    decreases |sorted|
  {
    if |sorted| == 0 || LexLe(x.timestamp, sorted[0].timestamp) {
      var r := [x] + sorted;
      assert r[0] == x && r[1..] == sorted;
    } else {
      var head := sorted[0];
      var rest := Insert(x, sorted[1..]);
      var r := [head] + rest;
      assert r[0] == head && r[1..] == rest;
      WithTimestampInsert(x, sorted[1..], t);
      LexLeReflexive(x.timestamp);
      assert head.timestamp != x.timestamp;
      var hs := if head.timestamp == t then [head] else [];
      var xs := if x.timestamp == t then [x] else [];
      assert WithTimestamp(r, t) == hs + (xs + WithTimestamp(sorted[1..], t));
      assert WithTimestamp(sorted, t) == hs + WithTimestamp(sorted[1..], t);
      assert hs == [] || xs == [];
      if hs == [] {
        assert hs + (xs + WithTimestamp(sorted[1..], t)) == xs + WithTimestamp(sorted[1..], t);
      } else {
        assert xs + (hs + WithTimestamp(sorted[1..], t)) == hs + WithTimestamp(sorted[1..], t);
      }
    }
  }

  /** The sort is stable: spans with equal timestamps keep their batch order. */
  lemma {:induction false} SortIsStable(spans: seq<SpanData>, t: string)
    ensures WithTimestamp(SortByTimestamp(spans), t) == WithTimestamp(spans, t)
    decreases |spans|
  {
    if |spans| > 0 {
      SortIsStable(spans[1..], t);
      WithTimestampInsert(spans[0], SortByTimestamp(spans[1..]), t);
    }
  }

  // ---------------------------------------------------------------------
  // Log events and the request
  // ---------------------------------------------------------------------

  /** One `InputLogEvent`: epoch milliseconds and the span's JSON. */
  datatype LogEvent = LogEvent(timestamp: int, message: SpanData)

  /** The event of one span; `Instant.parse` throwing aborts the batch. */
  function EventOf(span: SpanData, parse: string -> Option<int>): (r: Result<LogEvent>)
    ensures r.Ok? <==> parse(span.timestamp).Some?
    ensures r.Ok? ==> r.value == LogEvent(parse(span.timestamp).value, span)
  {
    match parse(span.timestamp)
    case None => Fail(DateTimeParse)
    case Some(ms) => Ok(LogEvent(ms, span))
  }

  function EventOfSpan(parse: string -> Option<int>): SpanData -> Result<LogEvent>
  {
    span => EventOf(span, parse)
  }

  /** The spans the events carry, in order. */
  function Messages(events: seq<LogEvent>): (r: seq<SpanData>)
    ensures |r| == |events| && forall i :: 0 <= i < |events| ==> r[i] == events[i].message
  {
    seq(|events|, i requires 0 <= i < |events| => events[i].message)
  }

  /** The events of a batch, after sorting it. */
  function LogEvents(spans: seq<SpanData>, parse: string -> Option<int>): (r: Result<seq<LogEvent>>)
    ensures r.Ok? ==> forall i :: 0 <= i < |r.value| ==>
              parse(r.value[i].message.timestamp) == Some(r.value[i].timestamp)
  {
    Traverse(SortByTimestamp(spans), EventOfSpan(parse))
  }

  /** The events exist exactly when every timestamp parses; they then hold
      every span once, in timestamp order. */
  lemma LogEventsOfBatch(spans: seq<SpanData>, parse: string -> Option<int>)
    ensures LogEvents(spans, parse).Ok? <==> forall i :: 0 <= i < |spans| ==> parse(spans[i].timestamp).Some?
    ensures LogEvents(spans, parse).Ok? ==>
      var events := LogEvents(spans, parse).value;
      |events| == |spans| &&
      multiset(Messages(events)) == multiset(spans) &&
      forall i, j :: 0 <= i < j < |events| ==> LexLe(events[i].message.timestamp, events[j].message.timestamp)
  {
    var sorted := SortByTimestamp(spans);
    SortSorts(spans);
    AllParseSorted(spans, sorted, parse);
    EventsCarrySpans(sorted, parse);
    assert LogEvents(spans, parse) == Traverse(sorted, EventOfSpan(parse));
    if LogEvents(spans, parse).Ok? {
      var events := LogEvents(spans, parse).value;
      assert Messages(events) == sorted;
      assert |sorted| == |spans| by {
        assert |multiset(sorted)| == |multiset(spans)|;
      }
      forall i, j | 0 <= i < j < |events|
        ensures LexLe(events[i].message.timestamp, events[j].message.timestamp)
      {
        assert events[i].message == sorted[i] && events[j].message == sorted[j];
      }
    }
  }

  /** A permutation of the batch has the same unparseable timestamps. */
  lemma AllParseSorted(spans: seq<SpanData>, sorted: seq<SpanData>, parse: string -> Option<int>)
    requires multiset(sorted) == multiset(spans)
    ensures (forall i :: 0 <= i < |spans| ==> parse(spans[i].timestamp).Some?) <==>
            (forall i :: 0 <= i < |sorted| ==> parse(sorted[i].timestamp).Some?)
  {
    if forall i :: 0 <= i < |spans| ==> parse(spans[i].timestamp).Some? {
      forall i | 0 <= i < |sorted|
        ensures parse(sorted[i].timestamp).Some?
      {
        assert sorted[i] in multiset(spans);
        var j :| 0 <= j < |spans| && spans[j] == sorted[i];
      }
    } else {
      var j :| 0 <= j < |spans| && parse(spans[j].timestamp).None?;
      assert spans[j] in multiset(sorted);
      var i :| 0 <= i < |sorted| && sorted[i] == spans[j];
    }
  }

  /** Each event of a converted batch carries its span, in batch order. */
  lemma EventsCarrySpans(sorted: seq<SpanData>, parse: string -> Option<int>)
    ensures Traverse(sorted, EventOfSpan(parse)).Ok? <==> forall i :: 0 <= i < |sorted| ==> parse(sorted[i].timestamp).Some?
    ensures Traverse(sorted, EventOfSpan(parse)).Ok? ==>
      var events := Traverse(sorted, EventOfSpan(parse)).value;
      Messages(events) == sorted
  {
    var f := EventOfSpan(parse);
    assert forall i :: 0 <= i < |sorted| ==> f(sorted[i]) == EventOf(sorted[i], parse);
    if Traverse(sorted, f).Ok? {
      var events := Traverse(sorted, f).value;
      assert Messages(events) == sorted;
    }
  }


  /** A `PutLogEvents` call; the sequence token is set only when one is held. */
  datatype PutLogEvents = PutLogEvents(logGroup: string, logStream: string, events: seq<LogEvent>,
                                       sequenceToken: Option<string>)

  datatype Config = Config(logGroup: string, region: string, batchSize: int, flushIntervalMs: int,
                           logStreamName: string)

  /** The constructor; `now` is the clock reading `Instant.now().toString()`. */
  function NewConfig(logGroup: string, region: string, batchSize: int, flushIntervalMs: int, now: string): (c: Config)
    ensures c.logStreamName == LogStreamName(now)
    ensures c.logGroup == logGroup && c.region == region && c.batchSize == batchSize
  {
    Config(logGroup, region, batchSize, flushIntervalMs, LogStreamName(now))
  }

  /** The builder's defaults. */
  function DefaultConfig(now: string): (c: Config)
    ensures c.logGroup == "/genai/traces" && c.region == "us-east-1"
    ensures c.batchSize == 10 && c.flushIntervalMs == 5000
  {
    NewConfig("/genai/traces", "us-east-1", 10, 5000, now)
  }

  /** The request for one sorted, converted batch. */
  function PutRequest(c: Config, events: seq<LogEvent>, token: Option<string>): (req: PutLogEvents)
    ensures req.logGroup == c.logGroup && req.logStream == c.logStreamName
    ensures req.events == events && req.sequenceToken == token
  {
    PutLogEvents(c.logGroup, c.logStreamName, events, token)
  }
}
