// The Prometheus Push Gateway exporter: in-memory aggregates per
// `workflow:model` key (per `workflow:vector_store` for retrievers), rebuilt
// into the text exposition format and pushed whole after every span.

module Prometheus {
  import opened Common
  import opened SpanRecords
  import opened Http

  // ---------------------------------------------------------------------
  // Aggregation keys
  // ---------------------------------------------------------------------

  /** `workflow + ":" + second`, with "default" for a null workflow; string
      concatenation prints a null second part as "null". */
  function MetricKey(workflow: Option<string>, second: Option<string>): (key: string)
    ensures ':' !in OrElse(workflow, "default") ==> IndexOfChar(key, ':') == Some(|OrElse(workflow, "default")|)
  {
    FirstColonAt(OrElse(workflow, "default"), OrNull(second));
    OrElse(workflow, "default") + ":" + OrNull(second)
  }

  /** The first ':' of `w + ":" + rest` is the one after `w`, when `w` has none. */
  lemma FirstColonAt(w: string, rest: string)
    ensures ':' !in w ==> IndexOfChar(w + ":" + rest, ':') == Some(|w|)
  {
    var s := w + ":" + rest;
    if ':' !in w {
      assert s[|w|] == ':' && s[..|w|] == w;
    }
  }

  /** The key of LLM and embedding spans: the model, else the span name. */
  function LlmKey(span: SpanData): string
  {
    MetricKey(span.workflowName, if span.modelName.Some? then span.modelName else span.name)
  }

  /** The key of retriever spans: the vector store, else the span name. */
  function RetrieverKey(span: SpanData): string
  {
    MetricKey(span.workflowName, if span.vectorStore.Some? then span.vectorStore else span.name)
  }

  /** The three span types the exporter records. */
  datatype Kind = Llm | Embedding | Retriever

  /** The span type name of a kind. */
  function Name(k: Kind): string
  {
    match k
    case Llm => "LLM"
    case Embedding => "EMBEDDING"
    case Retriever => "RETRIEVER"
  }

  /** The key a span of kind `k` is counted under. */
  function KeyFor(k: Kind, span: SpanData): string
  {
    if k == Retriever then RetrieverKey(span) else LlmKey(span)
  }

  /** Whether `span` is of kind `k` and counted under `key`. */
  predicate Counted(k: Kind, key: string, span: SpanData)
  {
    span.spanType == Some(Name(k)) && KeyFor(k, span) == key
  }

  // ---------------------------------------------------------------------
  // The aggregates
  // ---------------------------------------------------------------------

  /** The `int[]{input, output}` token pair of a key. */
  datatype Tokens = Tokens(input: Int32, output: Int32)

  /** The six maps, as values. */
  datatype Metrics = Metrics(
    llmDurations: map<string, seq<real>>,
    llmTokens: map<string, Tokens>,
    llmErrors: map<string, Int32>,
    embeddingDurations: map<string, seq<real>>,
    retrieverDurations: map<string, seq<real>>,
    retrieverDocs: map<string, seq<Int32>>)

  const NoMetrics: Metrics := Metrics(map[], map[], map[], map[], map[], map[])

  /** The list of a key, empty when the key has none yet. */
  function Lookup<T>(m: map<string, seq<T>>, key: string): seq<T>
  {
    if key in m then m[key] else []
  }

  /** `computeIfAbsent(key, k -> new ArrayList<>()).add(x)`. */
  function Append<T>(m: map<string, seq<T>>, key: string, x: T): (r: map<string, seq<T>>)
    ensures Lookup(r, key) == Lookup(m, key) + [x]
    ensures forall k :: k != key ==> (k in r <==> k in m) && Lookup(r, k) == Lookup(m, k)
  {
    m[key := Lookup(m, key) + [x]]
  }

  /** The token pair after `tokens[0] += input` and `tokens[1] += output`,
      each done only for a present count and each wrapping at 32 bits. */
  function AddTokens(t: Tokens, input: Option<Int32>, output: Option<Int32>): Tokens
  {
    Tokens(if input.Some? then AddInt32(t.input, input.value) else t.input,
           if output.Some? then AddInt32(t.output, output.value) else t.output)
  }

  /** `llmErrors.merge(key, 1, Integer::sum)`. */
  function Increment(m: map<string, Int32>, key: string): map<string, Int32>
  {
    m[key := if key in m then AddInt32(m[key], 1) else 1]
  }

  /**
   * `updateMetrics`. The switch on a null span type throws before anything
   * is recorded; a type other than LLM, EMBEDDING and RETRIEVER records
   * nothing.
   */
  function Update(m: Metrics, span: SpanData): (r: Result<Metrics>)
    ensures r.Fail? <==> span.spanType.None?
  {
    match span.spanType
    case None => Fail(NullPointer)
    case Some(t) =>
      var key := LlmKey(span);
      if t == "LLM" then
        Ok(m.(llmDurations := Append(m.llmDurations, key, span.durationMs),
              llmTokens := m.llmTokens[key := AddTokens(if key in m.llmTokens then m.llmTokens[key] else Tokens(0, 0),
                                                        span.inputTokens, span.outputTokens)],
              llmErrors := if span.isError == 1 then Increment(m.llmErrors, key) else m.llmErrors))
      else if t == "EMBEDDING" then
        Ok(m.(embeddingDurations := Append(m.embeddingDurations, key, span.durationMs)))
      else if t == "RETRIEVER" then
        var rKey := RetrieverKey(span);
        Ok(m.(retrieverDurations := Append(m.retrieverDurations, rKey, span.durationMs),
              retrieverDocs := if span.documentsRetrieved.Some? then Append(m.retrieverDocs, rKey, span.documentsRetrieved.value)
                               else m.retrieverDocs))
      else Ok(m)
  }

  // ---------------------------------------------------------------------
  // What the aggregates hold after a run of exports
  // ---------------------------------------------------------------------

  /** The span types `updateMetrics` records something for. */
  predicate Recorded(span: SpanData)
  {
    span.spanType == Some("LLM") || span.spanType == Some("EMBEDDING") || span.spanType == Some("RETRIEVER")
  }

  predicate NoneRecorded(spans: seq<SpanData>)
  {
    forall i :: 0 <= i < |spans| ==> !Recorded(spans[i])
  }

  /** The aggregates after one export: a failed update leaves them alone. */
  function Absorb(m: Metrics, span: SpanData): (r: Metrics)
    ensures !Recorded(span) ==> r == m
  {
    match Update(m, span)
    case Ok(r) => r
    case Fail(_) => m
  }

  /** The aggregates of a fresh exporter after exporting `spans` in order. */
  function Aggregate(spans: seq<SpanData>): (m: Metrics)
    ensures NoneRecorded(spans) ==> m == NoMetrics
    decreases |spans|
  {
    if |spans| == 0 then NoMetrics else Absorb(Aggregate(spans[..|spans| - 1]), spans[|spans| - 1])
  }

  /** The spans of kind `k` counted under `key`, in export order. */
  function Matching(spans: seq<SpanData>, k: Kind, key: string): (r: seq<SpanData>)
    ensures forall x :: x in r ==> x in spans && Counted(k, key, x)
    decreases |spans|
  {
    if |spans| == 0 then []
    else
      var last := spans[|spans| - 1];
      Matching(spans[..|spans| - 1], k, key) + (if Counted(k, key, last) then [last] else [])
  }

  function Durations(spans: seq<SpanData>): (r: seq<real>)
    ensures |r| == |spans|
    ensures forall i :: 0 <= i < |spans| ==> r[i] == spans[i].durationMs
  {
    seq(|spans|, i requires 0 <= i < |spans| => spans[i].durationMs)
  }

  /** How many of `spans` are flagged as errors. */
  function ErrorCount(spans: seq<SpanData>): (n: nat)
    ensures n <= |spans|
    decreases |spans|
  {
    if |spans| == 0 then 0
    else ErrorCount(spans[..|spans| - 1]) + (if spans[|spans| - 1].isError == 1 then 1 else 0)
  }

  function CountOf(v: Option<Int32>): int
  {
    if v.Some? then v.value else 0
  }

  /** The exact (unwrapped) sums of the present token counts. */
  function InputSum(spans: seq<SpanData>): int
    decreases |spans|
  {
    if |spans| == 0 then 0 else InputSum(spans[..|spans| - 1]) + CountOf(spans[|spans| - 1].inputTokens)
  }

  function OutputSum(spans: seq<SpanData>): int
    decreases |spans|
  {
    if |spans| == 0 then 0 else OutputSum(spans[..|spans| - 1]) + CountOf(spans[|spans| - 1].outputTokens)
  }

  /** The present document counts, in order. */
  function DocCounts(spans: seq<SpanData>): seq<Int32>
    decreases |spans|
  {
    if |spans| == 0 then []
    else
      var last := spans[|spans| - 1];
      DocCounts(spans[..|spans| - 1]) + (if last.documentsRetrieved.Some? then [last.documentsRetrieved.value] else [])
  }

  /** The duration map of a kind. */
  function DurationsOf(m: Metrics, k: Kind): map<string, seq<real>>
  {
    match k
    case Llm => m.llmDurations
    case Embedding => m.embeddingDurations
    case Retriever => m.retrieverDurations
  }

  /** The matching spans after one more export. */
  lemma MatchingSnoc(spans: seq<SpanData>, x: SpanData, k: Kind, key: string)
    ensures Matching(spans + [x], k, key) == Matching(spans, k, key) + (if Counted(k, key, x) then [x] else [])
  {
    assert (spans + [x])[..|spans|] == spans;
  }

  lemma AggregateSnoc(spans: seq<SpanData>, x: SpanData)
    ensures Aggregate(spans + [x]) == Absorb(Aggregate(spans), x)
  {
    assert (spans + [x])[..|spans|] == spans;
  }

  /**
   * Each span type touches only its own maps: an LLM span the three LLM
   * maps, an embedding span the embedding durations, a retriever span the
   * two retriever maps, and any other span (or a failed update) nothing.
   */
  lemma AbsorbTouchesOnlyItsMaps(m: Metrics, x: SpanData)
    ensures x.spanType == Some("LLM") ==>
      Absorb(m, x) == m.(llmDurations := Append(m.llmDurations, LlmKey(x), x.durationMs),
                         llmTokens := m.llmTokens[LlmKey(x) := AddTokens(if LlmKey(x) in m.llmTokens then m.llmTokens[LlmKey(x)] else Tokens(0, 0),
                                                                          x.inputTokens, x.outputTokens)],
                         llmErrors := if x.isError == 1 then Increment(m.llmErrors, LlmKey(x)) else m.llmErrors)
    ensures x.spanType == Some("EMBEDDING") ==>
      Absorb(m, x) == m.(embeddingDurations := Append(m.embeddingDurations, LlmKey(x), x.durationMs))
    ensures x.spanType == Some("RETRIEVER") ==>
      Absorb(m, x) == m.(retrieverDurations := Append(m.retrieverDurations, RetrieverKey(x), x.durationMs),
                         retrieverDocs := if x.documentsRetrieved.Some? then Append(m.retrieverDocs, RetrieverKey(x), x.documentsRetrieved.value)
                                          else m.retrieverDocs)
    ensures x.spanType !in {Some("LLM"), Some("EMBEDDING"), Some("RETRIEVER")} ==> Absorb(m, x) == m
  {
  }

  /** What one export does to the LLM duration list of a key. */
  lemma AbsorbLlmDurations(m: Metrics, x: SpanData, key: string)
    ensures Lookup(Absorb(m, x).llmDurations, key) ==
      Lookup(m.llmDurations, key) + (if Counted(Llm, key, x) then [x.durationMs] else [])
  {
    AbsorbTouchesOnlyItsMaps(m, x);
  }

  /** What one export does to the embedding duration list of a key. */
  lemma AbsorbEmbeddingDurations(m: Metrics, x: SpanData, key: string)
    ensures Lookup(Absorb(m, x).embeddingDurations, key) ==
      Lookup(m.embeddingDurations, key) + (if Counted(Embedding, key, x) then [x.durationMs] else [])
  {
    AbsorbTouchesOnlyItsMaps(m, x);
  }

  /** What one export does to the retriever duration list of a key. */
  lemma AbsorbRetrieverDurations(m: Metrics, x: SpanData, key: string)
    ensures Lookup(Absorb(m, x).retrieverDurations, key) ==
      Lookup(m.retrieverDurations, key) + (if Counted(Retriever, key, x) then [x.durationMs] else [])
  {
    AbsorbTouchesOnlyItsMaps(m, x);
  }

  lemma AbsorbDurations(m: Metrics, x: SpanData, k: Kind, key: string)
    ensures Lookup(DurationsOf(Absorb(m, x), k), key) ==
      Lookup(DurationsOf(m, k), key) + (if Counted(k, key, x) then [x.durationMs] else [])
  {
    match k
    case Llm => AbsorbLlmDurations(m, x, key);
    case Embedding => AbsorbEmbeddingDurations(m, x, key);
    case Retriever => AbsorbRetrieverDurations(m, x, key);
  }

  /** What one export does to the error counter of a key. */
  lemma AbsorbErrors(m: Metrics, x: SpanData, key: string)
    ensures var hit := Counted(Llm, key, x) && x.isError == 1;
      var before := m.llmErrors; var after := Absorb(m, x).llmErrors;
      (key in after <==> key in before || hit) &&
      (key in after ==> after[key] == if !hit then before[key] else if key in before then AddInt32(before[key], 1) else 1)
  {
    AbsorbTouchesOnlyItsMaps(m, x);
  }

  /** What one export does to the token pair of a key. */
  lemma AbsorbTokens(m: Metrics, x: SpanData, key: string)
    ensures var hit := Counted(Llm, key, x);
      var before := m.llmTokens; var after := Absorb(m, x).llmTokens;
      (key in after <==> key in before || hit) &&
      (key in after ==>
         after[key] == if !hit then before[key]
                       else AddTokens(if key in before then before[key] else Tokens(0, 0), x.inputTokens, x.outputTokens))
  {
    AbsorbTouchesOnlyItsMaps(m, x);
  }

  /** What one export does to the document list of a key. */
  lemma AbsorbDocs(m: Metrics, x: SpanData, key: string)
    ensures Lookup(Absorb(m, x).retrieverDocs, key) ==
      Lookup(m.retrieverDocs, key) +
      (if Counted(Retriever, key, x) && x.documentsRetrieved.Some? then [x.documentsRetrieved.value] else [])
  {
    AbsorbTouchesOnlyItsMaps(m, x);
  }

  /**
   * Each duration list holds the durations of exactly the spans of its type
   * and key, in export order; its length is what the `_count` sample
   * reports.
   */
  lemma {:induction false} DurationsAggregate(spans: seq<SpanData>, k: Kind, key: string)
    ensures Lookup(DurationsOf(Aggregate(spans), k), key) == Durations(Matching(spans, k, key))
    decreases |spans|
  {
    if |spans| > 0 {
      var prefix, x := spans[..|spans| - 1], spans[|spans| - 1];
      assert spans == prefix + [x];
      DurationsAggregate(prefix, k, key);
      MatchingSnoc(prefix, x, k, key);
      AggregateSnoc(prefix, x);
      AbsorbDurations(Aggregate(prefix), x, k, key);
      var before := Matching(prefix, k, key);
      if Counted(k, key, x) {
        assert Durations(before + [x]) == Durations(before) + [x.durationMs];
      }
    }
  }

  /** Each error counter is the number of LLM error spans of its key,
      wrapped to 32 bits; a key appears only once it has an error. */
  lemma {:induction false} ErrorsAggregate(spans: seq<SpanData>, key: string)
    ensures key in Aggregate(spans).llmErrors <==> ErrorCount(Matching(spans, Llm, key)) > 0
    ensures key in Aggregate(spans).llmErrors ==>
      Aggregate(spans).llmErrors[key] == WrapInt32(ErrorCount(Matching(spans, Llm, key)))
    decreases |spans|
  {
    if |spans| > 0 {
      var prefix, x := spans[..|spans| - 1], spans[|spans| - 1];
      assert spans == prefix + [x];
      ErrorsAggregate(prefix, key);
      MatchingSnoc(prefix, x, Llm, key);
      AggregateSnoc(prefix, x);
      AbsorbErrors(Aggregate(prefix), x, key);
      var group := Matching(prefix, Llm, key);
      if Counted(Llm, key, x) {
        assert Matching(spans, Llm, key) == group + [x];
        ErrorStep(group, x);
      } else {
        assert Matching(spans, Llm, key) == group;
      }
    }
  }

  /** One more matching span: the counter goes up by one exactly when the
      span is an error, wrapping at 32 bits. */
  lemma ErrorStep(group: seq<SpanData>, x: SpanData)
    ensures ErrorCount(group + [x]) == ErrorCount(group) + (if x.isError == 1 then 1 else 0)
    ensures ErrorCount(group) > 0 && x.isError == 1 ==>
      AddInt32(WrapInt32(ErrorCount(group)), 1) == WrapInt32(ErrorCount(group + [x]))
    ensures ErrorCount(group) == 0 && x.isError == 1 ==> WrapInt32(ErrorCount(group + [x])) == 1
  {
    assert (group + [x])[..|group|] == group;
    WrapAdd(ErrorCount(group), 1);
  }

  /** Each token pair holds the sums of its key's LLM token counts, wrapped
      to 32 bits; a key appears once it has an LLM span. */
  lemma {:induction false} TokensAggregate(spans: seq<SpanData>, key: string)
    ensures key in Aggregate(spans).llmTokens <==> |Matching(spans, Llm, key)| > 0
    ensures key in Aggregate(spans).llmTokens ==>
      var group := Matching(spans, Llm, key);
      Aggregate(spans).llmTokens[key] == Tokens(WrapInt32(InputSum(group)), WrapInt32(OutputSum(group)))
    decreases |spans|
  {
    if |spans| > 0 {
      var prefix, x := spans[..|spans| - 1], spans[|spans| - 1];
      assert spans == prefix + [x];
      TokensAggregate(prefix, key);
      MatchingSnoc(prefix, x, Llm, key);
      AggregateSnoc(prefix, x);
      AbsorbTokens(Aggregate(prefix), x, key);
      var group := Matching(prefix, Llm, key);
      if Counted(Llm, key, x) {
        assert Matching(spans, Llm, key) == group + [x];
        var before := Aggregate(prefix).llmTokens;
        var t := if key in before then before[key] else Tokens(0, 0);
        if key !in before {
          assert group == [];
          assert t == Tokens(WrapInt32(InputSum(group)), WrapInt32(OutputSum(group)));
        }
        TokensStep(group, x, t);
      } else {
        assert Matching(spans, Llm, key) == group;
      }
    }
  }

  /** One more matching span adds its present token counts to the pair,
      wrapping at 32 bits; the first one starts from zero. */
  lemma TokensStep(group: seq<SpanData>, x: SpanData, t: Tokens)
    requires t == Tokens(WrapInt32(InputSum(group)), WrapInt32(OutputSum(group)))
    ensures AddTokens(t, x.inputTokens, x.outputTokens) ==
      Tokens(WrapInt32(InputSum(group + [x])), WrapInt32(OutputSum(group + [x])))
  {
    SumsSnoc(group, x);
    AddCount(InputSum(group), x.inputTokens);
    AddCount(OutputSum(group), x.outputTokens);
  }

  /** Adding a present count to a wrapped sum wraps the exact sum. */
  lemma AddCount(sum: int, v: Option<Int32>)
    ensures (if v.Some? then AddInt32(WrapInt32(sum), v.value) else WrapInt32(sum)) == WrapInt32(sum + CountOf(v))
  {
    if v.Some? {
      WrapAdd(sum, v.value);
    }
  }

  lemma SumsSnoc(group: seq<SpanData>, x: SpanData)
    ensures InputSum(group + [x]) == InputSum(group) + CountOf(x.inputTokens)
    ensures OutputSum(group + [x]) == OutputSum(group) + CountOf(x.outputTokens)
  {
    assert (group + [x])[..|group|] == group;
  }

  /** Each document list holds the present counts of its key's retriever
      spans, in export order. */
  lemma {:induction false} DocsAggregate(spans: seq<SpanData>, key: string)
    ensures Lookup(Aggregate(spans).retrieverDocs, key) == DocCounts(Matching(spans, Retriever, key))
    decreases |spans|
  {
    if |spans| > 0 {
      var prefix, x := spans[..|spans| - 1], spans[|spans| - 1];
      assert spans == prefix + [x];
      DocsAggregate(prefix, key);
      MatchingSnoc(prefix, x, Retriever, key);
      AggregateSnoc(prefix, x);
      AbsorbDocs(Aggregate(prefix), x, key);
      var group := Matching(prefix, Retriever, key);
      if Counted(Retriever, key, x) {
        assert Matching(spans, Retriever, key) == group + [x];
        assert (group + [x])[..|group|] == group;
        assert DocCounts(group + [x]) == DocCounts(group) +
          (if x.documentsRetrieved.Some? then [x.documentsRetrieved.value] else []);
      } else {
        assert Matching(spans, Retriever, key) == group;
      }
    }
  }

  /** Wrapping once at the end is the same as wrapping after every step. */
  lemma WrapAdd(a: int, b: Int32)
    ensures AddInt32(WrapInt32(a), b) == WrapInt32(a + b)
  {
    var w := WrapInt32(a);
    var d1 := WrapInt32(w + b) - (w + b);
    var d2 := w - a;
    var d3 := WrapInt32(a + b) - (a + b);
    MultiplesClosed(d1, d2, d3);
    assert WrapInt32(w + b) - WrapInt32(a + b) == d1 + d2 - d3;
    Int32Unique(WrapInt32(w + b), WrapInt32(a + b));
  }

  /** Multiples of 2^32 are closed under sums and differences. */
  lemma MultiplesClosed(x: int, y: int, z: int)
    requires x % 0x1_0000_0000 == 0 && y % 0x1_0000_0000 == 0 && z % 0x1_0000_0000 == 0
    ensures (x + y - z) % 0x1_0000_0000 == 0
  {
    var p, q, r := x / 0x1_0000_0000, y / 0x1_0000_0000, z / 0x1_0000_0000;
    assert x + y - z == 0x1_0000_0000 * (p + q - r);
  }

  /** Two 32-bit values that differ by a multiple of 2^32 are equal. */
  lemma Int32Unique(r1: Int32, r2: Int32)
    requires (r1 - r2) % 0x1_0000_0000 == 0
    ensures r1 == r2
  {
    assert IsInt32(r1) && IsInt32(r2);
  }

  lemma {:induction false} MatchingAppend(a: seq<SpanData>, b: seq<SpanData>, k: Kind, key: string)
    ensures Matching(a + b, k, key) == Matching(a, k, key) + Matching(b, k, key)
    decreases |b|
  {
    if |b| > 0 {
      var c, x := b[..|b| - 1], b[|b| - 1];
      assert b == c + [x];
      MatchingAppend(a, c, k, key);
      MatchingSnoc(a + c, x, k, key);
      MatchingSnoc(c, x, k, key);
      var tail := if Counted(k, key, x) then [x] else [];
      AppendAssoc(a, c, [x]);
      AppendAssoc(Matching(a, k, key), Matching(c, k, key), tail);
    } else {
      assert a + b == a;
    }
  }

  lemma {:induction false} ErrorCountAppend(a: seq<SpanData>, b: seq<SpanData>)
    ensures ErrorCount(a + b) == ErrorCount(a) + ErrorCount(b)
    decreases |b|
  {
    if |b| > 0 {
      var c, x := b[..|b| - 1], b[|b| - 1];
      assert (a + b)[..|a + b| - 1] == a + c;
      assert (a + b)[|a + b| - 1] == x;
      ErrorCountAppend(a, c);
    } else {
      assert a + b == a;
    }
  }

  lemma {:induction false} DocCountsAppend(a: seq<SpanData>, b: seq<SpanData>)
    ensures DocCounts(a + b) == DocCounts(a) + DocCounts(b)
    decreases |b|
  {
    if |b| > 0 {
      var c, x := b[..|b| - 1], b[|b| - 1];
      assert (a + b)[..|a + b| - 1] == a + c;
      assert (a + b)[|a + b| - 1] == x;
      DocCountsAppend(a, c);
      AppendAssoc(DocCounts(a), DocCounts(c),
                  if x.documentsRetrieved.Some? then [x.documentsRetrieved.value] else []);
    } else {
      assert a + b == a;
    }
  }

  /**
   * Counters only grow: exporting more spans keeps every recorded duration
   * and document count (the earlier list is a prefix of the later one),
   * never lowers the number of errors counted for a key, and never removes
   * a key from the token or error maps.
   */
  lemma CountersOnlyGrow(spans: seq<SpanData>, more: seq<SpanData>, k: Kind, key: string)
    ensures Lookup(DurationsOf(Aggregate(spans), k), key) <= Lookup(DurationsOf(Aggregate(spans + more), k), key)
    ensures Lookup(Aggregate(spans).retrieverDocs, key) <= Lookup(Aggregate(spans + more).retrieverDocs, key)
    ensures ErrorCount(Matching(spans, Llm, key)) <= ErrorCount(Matching(spans + more, Llm, key))
    ensures key in Aggregate(spans).llmTokens ==> key in Aggregate(spans + more).llmTokens
    ensures key in Aggregate(spans).llmErrors ==> key in Aggregate(spans + more).llmErrors
  {
    DurationsAggregate(spans, k, key);
    DurationsAggregate(spans + more, k, key);
    MatchingAppend(spans, more, k, key);
    var a, b := Matching(spans, k, key), Matching(more, k, key);
    assert Durations(a + b)[..|a|] == Durations(a);
    DocsGrow(spans, more, key);
    LlmKeysPersist(spans, more, key);
  }

  lemma DocsGrow(spans: seq<SpanData>, more: seq<SpanData>, key: string)
    ensures Lookup(Aggregate(spans).retrieverDocs, key) <= Lookup(Aggregate(spans + more).retrieverDocs, key)
  {
    DocsAggregate(spans, key);
    DocsAggregate(spans + more, key);
    MatchingAppend(spans, more, Retriever, key);
    DocCountsAppend(Matching(spans, Retriever, key), Matching(more, Retriever, key));
  }

  lemma LlmKeysPersist(spans: seq<SpanData>, more: seq<SpanData>, key: string)
    ensures ErrorCount(Matching(spans, Llm, key)) <= ErrorCount(Matching(spans + more, Llm, key))
    ensures key in Aggregate(spans).llmTokens ==> key in Aggregate(spans + more).llmTokens
    ensures key in Aggregate(spans).llmErrors ==> key in Aggregate(spans + more).llmErrors
  {
    MatchingAppend(spans, more, Llm, key);
    ErrorCountAppend(Matching(spans, Llm, key), Matching(more, Llm, key));
    TokensAggregate(spans, key);
    TokensAggregate(spans + more, key);
    ErrorsAggregate(spans, key);
    ErrorsAggregate(spans + more, key);
  }

  /**
   * The token totals are the exception: they are wrapped sums of counts
   * that may be negative, so one more span can lower them (here from 5 to 2).
   */
  lemma TokenTotalsCanFall()
    ensures
      var x := EmptySpanData("t").(spanType := Some("LLM"), modelName := Some("m"), inputTokens := Some(5));
      var y := x.(inputTokens := Some(-3));
      var key := LlmKey(x);
      key in Aggregate([x]).llmTokens && key in Aggregate([x, y]).llmTokens &&
      Aggregate([x]).llmTokens[key].input == 5 && Aggregate([x, y]).llmTokens[key].input == 2
  {
    var x := EmptySpanData("t").(spanType := Some("LLM"), modelName := Some("m"), inputTokens := Some(5));
    var y := x.(inputTokens := Some(-3));
    AggregateSnoc([], x);
    assert [] + [x] == [x];
    AggregateSnoc([x], y);
    assert [x] + [y] == [x, y];
  }

  // ---------------------------------------------------------------------
  // `buildMetricsPayload`
  // ---------------------------------------------------------------------

  datatype Label = Label(name: string, value: string)

  /** A sample value: a count printed with `%d`, or a number of seconds
      printed with `%.3f`. */
  datatype Value = Count(n: int) | Seconds(s: real)

  datatype Sample = Sample(metric: string, labels: seq<Label>, value: Value)

  /**
   * One metric family: its `# HELP` and `# TYPE` lines, then the samples of
   * each key. The keys come out in the hash map's iteration order, which
   * Java leaves unspecified; the model keeps the samples per key.
   */
  datatype Family = Family(name: string, help: string, kind: string, samples: map<string, seq<Sample>>)

  /** `key.split(":")` has a first part; it has none when the key is only
      colons, and `parts[0]` then throws. */
  predicate Labelable(key: string)
  {
    JavaSplit(key, ':') != []
  }

  /** `workflow="parts[0]",<second>="parts[1]"`, with "unknown" when the
      key splits into a single part. */
  function KeyLabels(key: string, second: string): (labels: seq<Label>)
    requires Labelable(key)
    ensures |labels| == 2 && labels[0].name == "workflow" && labels[1].name == second
  {
    var parts := JavaSplit(key, ':');
    [Label("workflow", parts[0]), Label(second, if |parts| > 1 then parts[1] else "unknown")]
  }

  function Sum(xs: seq<real>): real
    decreases |xs|
  {
    if |xs| == 0 then 0.0 else Sum(xs[..|xs| - 1]) + xs[|xs| - 1]
  }

  function SumInts(xs: seq<Int32>): int
    decreases |xs|
  {
    if |xs| == 0 then 0 else SumInts(xs[..|xs| - 1]) + xs[|xs| - 1]
  }

  predicate AllLabelable<V>(m: map<string, V>)
  {
    forall k :: k in m ==> Labelable(k)
  }

  predicate MetricsLabelable(m: Metrics)
  {
    AllLabelable(m.llmDurations) && AllLabelable(m.llmTokens) && AllLabelable(m.llmErrors) &&
    AllLabelable(m.embeddingDurations) && AllLabelable(m.retrieverDurations) && AllLabelable(m.retrieverDocs)
  }

  /** The `_sum` (seconds) and `_count` samples of one key's durations. */
  function Summary(name: string, second: string, key: string, durations: seq<real>): seq<Sample>
    requires Labelable(key)
  {
    [Sample(name + "_sum", KeyLabels(key, second), Seconds(Sum(durations) / 1000.0)),
     Sample(name + "_count", KeyLabels(key, second), Count(|durations|))]
  }

  /** The duration summary of every key. */
  function SummarySamples(name: string, second: string, m: map<string, seq<real>>): (s: map<string, seq<Sample>>)
    requires AllLabelable(m)
    ensures s.Keys == m.Keys
  {
    map k | k in m :: Summary(name, second, k, m[k])
  }

  function TokenSamples(m: map<string, Tokens>): (s: map<string, seq<Sample>>)
    requires AllLabelable(m)
    ensures s.Keys == m.Keys
  {
    map k | k in m :: [Sample("genai_llm_tokens_total", KeyLabels(k, "model") + [Label("type", "input")], Count(m[k].input)),
                       Sample("genai_llm_tokens_total", KeyLabels(k, "model") + [Label("type", "output")], Count(m[k].output))]
  }

  function ErrorSamples(m: map<string, Int32>): (s: map<string, seq<Sample>>)
    requires AllLabelable(m)
    ensures s.Keys == m.Keys
  {
    map k | k in m :: [Sample("genai_llm_errors_total", KeyLabels(k, "model"), Count(m[k]))]
  }

  /** The document total is an `int` stream sum, so it wraps at 32 bits. */
  function DocSamples(m: map<string, seq<Int32>>): (s: map<string, seq<Sample>>)
    requires AllLabelable(m)
    ensures s.Keys == m.Keys
  {
    map k | k in m :: [Sample("genai_retriever_documents_total", KeyLabels(k, "vector_store"), Count(WrapInt32(SumInts(m[k]))))]
  }

  /** The six families of the pushed text. */
  datatype Exposition = Exposition(
    llmDuration: Family,
    llmTokens: Family,
    llmErrors: Family,
    embeddingDuration: Family,
    retrieverDuration: Family,
    retrieverDocuments: Family)
  {
    /** The families in the order the text prints them. */
    function InOrder(): seq<Family>
    {
      [llmDuration, llmTokens, llmErrors, embeddingDuration, retrieverDuration, retrieverDocuments]
    }
  }

  /**
   * `buildMetricsPayload`: six families, each with its HELP and TYPE lines
   * and one group of samples per key of its map. It throws as soon as a key
   * has no first part.
   */
  function Payload(m: Metrics): (r: Result<Exposition>)
    ensures r.Ok? <==> MetricsLabelable(m)
    ensures r.Ok? ==> r.value.llmDuration.samples.Keys == m.llmDurations.Keys
    ensures r.Ok? ==> r.value.llmTokens.samples.Keys == m.llmTokens.Keys
    ensures r.Ok? ==> r.value.llmErrors.samples.Keys == m.llmErrors.Keys
    ensures r.Ok? ==> r.value.embeddingDuration.samples.Keys == m.embeddingDurations.Keys
    ensures r.Ok? ==> r.value.retrieverDuration.samples.Keys == m.retrieverDurations.Keys
    ensures r.Ok? ==> r.value.retrieverDocuments.samples.Keys == m.retrieverDocs.Keys
  {
    if !MetricsLabelable(m) then Fail(ArrayIndexOutOfBounds)
    else
      Ok(Exposition(
        Family("genai_llm_duration_seconds", "LLM call duration", "summary",
               SummarySamples("genai_llm_duration_seconds", "model", m.llmDurations)),
        Family("genai_llm_tokens_total", "Total tokens used", "counter", TokenSamples(m.llmTokens)),
        Family("genai_llm_errors_total", "Total LLM errors", "counter", ErrorSamples(m.llmErrors)),
        Family("genai_embedding_duration_seconds", "Embedding call duration", "summary",
               SummarySamples("genai_embedding_duration_seconds", "model", m.embeddingDurations)),
        Family("genai_retriever_duration_seconds", "Retriever call duration", "summary",
               SummarySamples("genai_retriever_duration_seconds", "vector_store", m.retrieverDurations)),
        Family("genai_retriever_documents_total", "Documents retrieved", "counter", DocSamples(m.retrieverDocs))))
  }

  /** The LLM summary of a key. */
  lemma SummaryOfKey(m: Metrics, key: string)
    requires Payload(m).Ok? && key in m.llmDurations
    ensures Payload(m).value.llmDuration.samples[key] ==
      SummarySamples("genai_llm_duration_seconds", "model", m.llmDurations)[key]
  {
  }

  lemma LlmCountName()
    ensures "genai_llm_duration_seconds" + "_count" == "genai_llm_duration_seconds_count"
  {
  }

  /** The LLM `_count` sample of a key is the number of LLM spans exported
      under it. */
  lemma CountSampleCountsSpans(spans: seq<SpanData>, key: string)
    requires Payload(Aggregate(spans)).Ok? && key in Aggregate(spans).llmDurations
    ensures var s := Payload(Aggregate(spans)).value.llmDuration.samples[key];
      |s| == 2 && s[1].metric == "genai_llm_duration_seconds_count" &&
      s[1].value == Count(|Matching(spans, Llm, key)|)
  {
    var m := Aggregate(spans);
    SummaryOfKey(m, key);
    LlmCountName();
    DurationsAggregate(spans, Llm, key);
    assert m.llmDurations[key] == Durations(Matching(spans, Llm, key));
  }

  /** The two token samples of a key carry the wrapped sums of the input
      and output counts of its LLM spans. */
  lemma TokenSamplesSumSpans(spans: seq<SpanData>, key: string)
    requires Payload(Aggregate(spans)).Ok? && key in Aggregate(spans).llmTokens
    ensures var s := Payload(Aggregate(spans)).value.llmTokens.samples[key];
      var group := Matching(spans, Llm, key);
      |s| == 2 && s[0].labels[2] == Label("type", "input") && s[1].labels[2] == Label("type", "output") &&
      s[0].value == Count(WrapInt32(InputSum(group))) && s[1].value == Count(WrapInt32(OutputSum(group)))
  {
    var m := Aggregate(spans);
    TokensAggregate(spans, key);
    assert Payload(m).value.llmTokens.samples == TokenSamples(m.llmTokens);
  }

  /** The error sample of a key counts its failed LLM spans, wrapped to
      32 bits. */
  lemma ErrorSampleCountsErrors(spans: seq<SpanData>, key: string)
    requires Payload(Aggregate(spans)).Ok? && key in Aggregate(spans).llmErrors
    ensures var s := Payload(Aggregate(spans)).value.llmErrors.samples[key];
      |s| == 1 && s[0].value == Count(WrapInt32(ErrorCount(Matching(spans, Llm, key))))
  {
    var m := Aggregate(spans);
    ErrorsAggregate(spans, key);
    assert Payload(m).value.llmErrors.samples == ErrorSamples(m.llmErrors);
  }

  /** The document sample of a key is the wrapped sum of the present
      document counts of its retriever spans. */
  lemma DocSampleSumsDocs(spans: seq<SpanData>, key: string)
    requires Payload(Aggregate(spans)).Ok? && key in Aggregate(spans).retrieverDocs
    ensures var s := Payload(Aggregate(spans)).value.retrieverDocuments.samples[key];
      |s| == 1 && s[0].value == Count(WrapInt32(SumInts(DocCounts(Matching(spans, Retriever, key)))))
  {
    var m := Aggregate(spans);
    DocsAggregate(spans, key);
    assert Payload(m).value.retrieverDocuments.samples == DocSamples(m.retrieverDocs);
  }

  /** The name, HELP text and TYPE of each family, in the order printed. */
  const FamilyHeaders: seq<(string, string, string)> := [
    ("genai_llm_duration_seconds", "LLM call duration", "summary"),
    ("genai_llm_tokens_total", "Total tokens used", "counter"),
    ("genai_llm_errors_total", "Total LLM errors", "counter"),
    ("genai_embedding_duration_seconds", "Embedding call duration", "summary"),
    ("genai_retriever_duration_seconds", "Retriever call duration", "summary"),
    ("genai_retriever_documents_total", "Documents retrieved", "counter")]

  function Header(f: Family): (string, string, string)
  {
    (f.name, f.help, f.kind)
  }

  /** Every payload prints the six families with their HELP and TYPE lines,
      in the same order. */
  lemma PayloadHeaders(m: Metrics)
    requires Payload(m).Ok?
    ensures var fs := Payload(m).value.InOrder();
      |fs| == |FamilyHeaders| && forall i :: 0 <= i < |fs| ==> Header(fs[i]) == FamilyHeaders[i]
  {
  }

  /** When no span is of a recorded type the payload is the six headers and
      no sample. */
  lemma EmptyPayload(spans: seq<SpanData>)
    requires NoneRecorded(spans)
    ensures Payload(Aggregate(spans)).Ok?
    ensures var fs := Payload(Aggregate(spans)).value.InOrder();
      forall i :: 0 <= i < |fs| ==> fs[i].samples.Keys == {}
  {
    assert Aggregate(spans) == NoMetrics;
  }

  // ---------------------------------------------------------------------
  // Labels of the keys the exporter builds
  // ---------------------------------------------------------------------

  lemma SplitPair(a: string, b: string)
    requires ':' !in a && ':' !in b
    ensures JavaSplit(a + ":" + b, ':') == DropTrailingEmpty([a, b])
  {
    var key := a + ":" + b;
    assert key[|a|] == ':';
    SplitAllCons(a, ':', b);
    assert a + [':'] + b == key;
  }

  /** A key whose parts hold no ':' and whose second part is non-empty
      labels back into exactly its parts. */
  lemma LabelsRecoverKey(w: string, s: string, second: string)
    requires ':' !in w && ':' !in s && s != ""
    ensures Labelable(w + ":" + s)
    ensures KeyLabels(w + ":" + s, second) == [Label("workflow", w), Label(second, s)]
  {
    SplitPair(w, s);
  }

  /** An empty second part is dropped by the split, and the label reads
      "unknown". */
  lemma EmptySecondIsUnknown(w: string, second: string)
    requires ':' !in w && w != ""
    ensures Labelable(w + ":")
    ensures KeyLabels(w + ":", second) == [Label("workflow", w), Label(second, "unknown")]
  {
    SplitPair(w, "");
    assert w + ":" + "" == w + ":";
  }

  /** Both parts empty: the key ":" splits into nothing and the payload
      throws. */
  lemma BareColonUnlabelable()
    ensures !Labelable(":")
  {
    SplitPair("", "");
    assert "" + ":" + "" == ":";
  }

  /** A model name holding ':' is cut at its first ':' in the label. */
  lemma ColonInModelTruncates(w: string, m1: string, m2: string)
    requires ':' !in w && ':' !in m1 && m1 != ""
    ensures Labelable(w + ":" + (m1 + ":" + m2))
    ensures KeyLabels(w + ":" + (m1 + ":" + m2), "model") == [Label("workflow", w), Label("model", m1)]
  {
    var rest := m1 + ":" + m2;
    var key := w + ":" + rest;
    assert w + [':'] + rest == key;
    assert m1 + [':'] + m2 == rest;
    SplitAllCons(w, ':', rest);
    SplitAllCons(m1, ':', m2);
    var parts := SplitAll(key, ':');
    assert parts == [w, m1] + SplitAll(m2, ':');
    assert key[|w|] == ':';
    var r := DropTrailingEmpty(parts);
    assert parts[1] == m1;
    assert |r| > 1;
    assert r[0] == w && r[1] == m1;
  }

  /** An LLM span whose workflow and model are both "" is recorded, and then
      every export fails: its key ":" cannot be labelled. */
  lemma EmptyNamesPoisonThePayload(m: Metrics, span: SpanData)
    requires span.spanType == Some("LLM") && span.workflowName == Some("") && span.modelName == Some("")
    ensures Update(m, span).Ok? && ":" in Update(m, span).value.llmDurations
    ensures Payload(Update(m, span).value).Fail?
  {
    BareColonUnlabelable();
    assert LlmKey(span) == ":";
  }

  // ---------------------------------------------------------------------
  // The exporter
  // ---------------------------------------------------------------------

  datatype Request =
    | Push(url: string, contentType: string, body: Exposition)
    | Probe(url: string)

  function PushUrl(gateway: string, jobName: string): string
  {
    gateway + "/metrics/job/" + jobName
  }

  /** A push succeeds on 200 or 202. */
  predicate Accepted(reply: Reply)
  {
    StatusIs(reply, 200) || StatusIs(reply, 202)
  }

  const DefaultGateway: string := "http://localhost:9091"
  const DefaultJob: string := "genai_telemetry"

  /** The builder's defaults push to the local gateway under job
      "genai_telemetry". */
  lemma DefaultPushUrl()
    ensures PushUrl(StripTrailingSlash(DefaultGateway), DefaultJob) == "http://localhost:9091" + "/metrics/job/" + "genai_telemetry"
  {
    assert DefaultGateway[|DefaultGateway| - 1] == '1';
    StripTrailingSlashKeeps(DefaultGateway);
  }

  class PrometheusExporter {
    const pushgatewayUrl: string
    const jobName: string
    var llmDurations: map<string, seq<real>>
    var llmTokens: map<string, Tokens>
    var llmErrors: map<string, Int32>
    var embeddingDurations: map<string, seq<real>>
    var retrieverDurations: map<string, seq<real>>
    var retrieverDocs: map<string, seq<Int32>>
    /** The requests sent so far, in order. */
    var sent: seq<Request>

    function Snapshot(): Metrics
      reads this
    {
      Metrics(llmDurations, llmTokens, llmErrors, embeddingDurations, retrieverDurations, retrieverDocs)
    }

    constructor(pushgatewayUrl: string, jobName: string)
      ensures this.pushgatewayUrl == StripTrailingSlash(pushgatewayUrl) && this.jobName == jobName
      ensures Snapshot() == NoMetrics && sent == []
    {
      this.pushgatewayUrl := StripTrailingSlash(pushgatewayUrl);
      this.jobName := jobName;
      llmDurations, llmTokens, llmErrors := map[], map[], map[];
      embeddingDurations, retrieverDurations, retrieverDocs := map[], map[], map[];
      sent := [];
    }

    /** `updateMetrics`, in place; false when the switch throws. */
    method UpdateMetrics(span: SpanData) returns (ok: bool)
      modifies this
      ensures var r := Update(old(Snapshot()), span);
        ok == r.Ok? && Snapshot() == (if r.Ok? then r.value else old(Snapshot()))
      ensures sent == old(sent)
    {
      if span.spanType.None? {
        return false;
      }
      var t := span.spanType.value;
      var key := LlmKey(span);
      if t == "LLM" {
        llmDurations := llmDurations[key := Lookup(llmDurations, key) + [span.durationMs]];
        var tokens := if key in llmTokens then llmTokens[key] else Tokens(0, 0);
        if span.inputTokens.Some? {
          tokens := tokens.(input := AddInt32(tokens.input, span.inputTokens.value));
        }
        if span.outputTokens.Some? {
          tokens := tokens.(output := AddInt32(tokens.output, span.outputTokens.value));
        }
        llmTokens := llmTokens[key := tokens];
        if span.isError == 1 {
          llmErrors := llmErrors[key := if key in llmErrors then AddInt32(llmErrors[key], 1) else 1];
        }
      } else if t == "EMBEDDING" {
        embeddingDurations := embeddingDurations[key := Lookup(embeddingDurations, key) + [span.durationMs]];
      } else if t == "RETRIEVER" {
        var rKey := RetrieverKey(span);
        retrieverDurations := retrieverDurations[rKey := Lookup(retrieverDurations, rKey) + [span.durationMs]];
        if span.documentsRetrieved.Some? {
          retrieverDocs := retrieverDocs[rKey := Lookup(retrieverDocs, rKey) + [span.documentsRetrieved.value]];
        }
      }
      ok := true;
    }

    /**
     * `export`: record the span, rebuild the whole payload and push it.
     * A failure to build the payload comes after the span was recorded.
     */
    method Export(span: SpanData, reply: Reply) returns (ok: bool)
      modifies this
      ensures Update(old(Snapshot()), span).Fail? ==> !ok && Snapshot() == old(Snapshot()) && sent == old(sent)
      ensures Update(old(Snapshot()), span).Ok? ==> Snapshot() == Update(old(Snapshot()), span).value
      ensures Update(old(Snapshot()), span).Ok? && Payload(Snapshot()).Fail? ==> !ok && sent == old(sent)
      ensures Update(old(Snapshot()), span).Ok? && Payload(Snapshot()).Ok? ==>
        sent == old(sent) + [Push(PushUrl(pushgatewayUrl, jobName), "text/plain", Payload(Snapshot()).value)] &&
        ok == Accepted(reply)
    {
      var updated := UpdateMetrics(span);
      if !updated {
        return false;
      }
      var payload := Payload(Snapshot());
      if payload.Fail? {
        return false;
      }
      sent := sent + [Push(PushUrl(pushgatewayUrl, jobName), "text/plain", payload.value)];
      ok := Accepted(reply);
    }

    /** `healthCheck`: the gateway's `/-/healthy` must answer 200. */
    method HealthCheck(reply: Reply) returns (ok: bool)
      modifies this
      ensures sent == old(sent) + [Probe(pushgatewayUrl + "/-/healthy")]
      ensures ok == StatusIs(reply, 200)
      ensures Snapshot() == old(Snapshot())
    {
      sent := sent + [Probe(pushgatewayUrl + "/-/healthy")];
      ok := StatusIs(reply, 200);
    }
  }
}
