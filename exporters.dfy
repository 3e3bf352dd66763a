// The exporter interface (`BaseExporter`) and the fan-out exporter
// (`MultiExporter`). An exporter is seen from outside through the calls it
// receives and the answers it gives; the answers are inputs of the model.

module Exporters {
  import opened SpanRecords

  /** A call made on an exporter. */
  datatype Call =
    | ExportCall(span: SpanData)
    | ExportBatchCall(spans: seq<SpanData>)
    | StartCall
    | StopCall
    | FlushCall
    | HealthCheckCall

  function AllSucceeded(results: seq<bool>): (ok: bool)
    ensures ok <==> forall i :: 0 <= i < |results| ==> results[i]
  {
    |results| == 0 || (results[0] && AllSucceeded(results[1..]))
  }

  function AnySucceeded(results: seq<bool>): (ok: bool)
    ensures ok <==> exists i :: 0 <= i < |results| && results[i]
  {
    |results| > 0 && (results[0] || AnySucceeded(results[1..]))
  }

  /** The loop that joins the futures of a default `exportBatch`: false at
      the first failed export, true when none failed. */
  method JoinAll(results: seq<bool>) returns (ok: bool)
    ensures ok == AllSucceeded(results)
  {
    for i := 0 to |results|
      invariant forall k :: 0 <= k < i ==> results[k]
    {
      if !results[i] {
        return false;
      }
    }
    return true;
  }

  /** The loop that joins the futures of a fan-out: true at the first member
      that succeeded, false when none did (in particular with no members). */
  method JoinAny(results: seq<bool>) returns (ok: bool)
    ensures ok == AnySucceeded(results)
  {
    for i := 0 to |results|
      invariant forall k :: 0 <= k < i ==> !results[k]
    {
      if results[i] {
        return true;
      }
    }
    return false;
  }

  /** The calls the default `exportBatch` makes: one `export` per span, in order. */
  function DefaultExportBatchCalls(spans: seq<SpanData>): (calls: seq<Call>)
    ensures |calls| == |spans|
    ensures forall i :: 0 <= i < |spans| ==> calls[i] == ExportCall(spans[i])
  {
    if |spans| == 0 then [] else [ExportCall(spans[0])] + DefaultExportBatchCalls(spans[1..])
  }

  /** A batch succeeds only when every span of it does; an empty batch succeeds. */
  lemma DefaultBatchAllOrNothing(results: seq<bool>, i: nat)
    requires i < |results| && !results[i]
    ensures !AllSucceeded(results)
  {
  }

  /** One call delivered to the member at position `member`. */
  datatype Delivery = Delivery(member: nat, call: Call)

  /** A call passed to `n` members, in list order. */
  function Broadcast(n: nat, c: Call): (ds: seq<Delivery>)
    ensures |ds| == n
    ensures forall i :: 0 <= i < n ==> ds[i] == Delivery(i, c)
  {
    seq(n, i requires 0 <= i < n => Delivery(i, c))
  }

  function DeliveriesTo(ds: seq<Delivery>, member: nat): nat
  {
    if |ds| == 0 then 0
    else DeliveriesTo(ds[..|ds| - 1], member) + (if ds[|ds| - 1].member == member then 1 else 0)
  }

  /** Every member receives a broadcast call exactly once; nobody else does. */
  lemma {:induction false} BroadcastOncePerMember(n: nat, c: Call, member: nat)
    ensures DeliveriesTo(Broadcast(n, c), member) == if member < n then 1 else 0
  {
    if n > 0 {
      assert Broadcast(n, c)[..n - 1] == Broadcast(n - 1, c);
      BroadcastOncePerMember(n - 1, c, member);
    }
  }

  /**
   * `MultiExporter`: forwards every call to each member in list order. A
   * member is identified by its position, and `deliveries` is the log of
   * what the members were asked.
   */
  class MultiExporter {
    const size: nat
    var deliveries: seq<Delivery>

    constructor(size: nat)
      ensures this.size == size && deliveries == []
    {
      this.size := size;
      deliveries := [];
    }

    method Deliver(c: Call)
      modifies this
      ensures deliveries == old(deliveries) + Broadcast(size, c)
    {
      for i := 0 to size
        invariant deliveries == old(deliveries) + Broadcast(i, c)
      {
        deliveries := deliveries + [Delivery(i, c)];
      }
    }

    method Start()
      modifies this
      ensures deliveries == old(deliveries) + Broadcast(size, StartCall)
    {
      Deliver(StartCall);
    }

    method Stop()
      modifies this
      ensures deliveries == old(deliveries) + Broadcast(size, StopCall)
    {
      Deliver(StopCall);
    }

    method Flush()
      modifies this
      ensures deliveries == old(deliveries) + Broadcast(size, FlushCall)
    {
      Deliver(FlushCall);
    }

    /** `results[i]` is member i's answer. */
    method Export(span: SpanData, results: seq<bool>) returns (ok: bool)
      requires |results| == size
      modifies this
      ensures deliveries == old(deliveries) + Broadcast(size, ExportCall(span))
      ensures ok == AnySucceeded(results)
    {
      Deliver(ExportCall(span));
      ok := JoinAny(results);
    }

    method ExportBatch(spans: seq<SpanData>, results: seq<bool>) returns (ok: bool)
      requires |results| == size
      modifies this
      ensures deliveries == old(deliveries) + Broadcast(size, ExportBatchCall(spans))
      ensures ok == AnySucceeded(results)
    {
      Deliver(ExportBatchCall(spans));
      ok := JoinAny(results);
    }

    method HealthCheck(results: seq<bool>) returns (ok: bool)
      requires |results| == size
      modifies this
      ensures deliveries == old(deliveries) + Broadcast(size, HealthCheckCall)
      ensures ok == AnySucceeded(results)
    {
      Deliver(HealthCheckCall);
      ok := JoinAny(results);
    }
  }

  /** One successful member is enough for the fan-out to report success. */
  lemma FanOutOneSuffices(results: seq<bool>, i: nat)
    requires i < |results| && results[i]
    ensures AnySucceeded(results)
  {
  }
}
