// The Elasticsearch exporter's wire format: host normalisation, round-robin
// host choice, the authorization header, the `_bulk` payload and the rule
// that decides whether a bulk request succeeded.

module Elastic {
  import opened Common
  import opened JsonValues
  import opened SpanRecords
  import opened Http

  /** Each configured host loses one trailing '/'. */
  function NormaliseHosts(hosts: seq<string>): (r: seq<string>)
    ensures |r| == |hosts|
    ensures forall i :: 0 <= i < |hosts| ==> r[i] == StripTrailingSlash(hosts[i])
  {
    seq(|hosts|, i requires 0 <= i < |hosts| => StripTrailingSlash(hosts[i]))
  }

  // ---------------------------------------------------------------------
  // Round-robin host choice
  // ---------------------------------------------------------------------

  /** The counter only ever holds 0 or a valid position. */
  predicate ValidIndex(hosts: seq<string>, idx: nat)
  {
    idx == 0 || idx < |hosts|
  }

  datatype Pick = Pick(host: string, next: nat)

  /**
   * `getHost`: returns the host at the counter and moves the counter to the
   * next position modulo the number of hosts. With no hosts the update
   * divides by zero, so the call throws and the counter stays put.
   */
  function GetHost(hosts: seq<string>, idx: nat): (r: Result<Pick>)
    requires ValidIndex(hosts, idx)
    ensures r.Ok? <==> |hosts| > 0
    ensures r.Ok? ==> r.value.host == hosts[idx] && ValidIndex(hosts, r.value.next)
    ensures r.Ok? ==> r.value.next == if idx + 1 < |hosts| then idx + 1 else 0
  {
    if |hosts| == 0 then Fail(Arithmetic)
    else
      NextModulo(idx, |hosts|);
      Ok(Pick(hosts[idx], (idx + 1) % |hosts|))
  }

  /** The successor of a ring position, taken modulo the ring size. */
  lemma NextModulo(idx: nat, n: nat)
    requires idx < n
    ensures (idx + 1) % n == if idx + 1 < n then idx + 1 else 0
  {
    if idx + 1 == n {
      assert (idx + 1) % n == n % n;
    }
  }

  /** The position `j` steps after `idx` on a ring of `n` hosts. */
  function Rotated(idx: nat, j: nat, n: nat): (p: nat)
    requires idx < n && j < n
    ensures p < n
  {
    if idx + j < n then idx + j else idx + j - n
  }

  /** The hosts chosen by `k` consecutive calls starting from counter `idx`. */
  function Picks(hosts: seq<string>, idx: nat, k: nat): (r: seq<string>)
    requires |hosts| > 0 && idx < |hosts|
    ensures |r| == k
    decreases k
  {
    if k == 0 then []
    else
      var p := GetHost(hosts, idx).value;
      [p.host] + Picks(hosts, p.next, k - 1)
  }

  /** Call number `j` lands on the position `j` steps further round the ring. */
  lemma {:induction false} PicksRotate(hosts: seq<string>, idx: nat, k: nat)
    requires |hosts| > 0 && idx < |hosts| && k <= |hosts|
    ensures forall j :: 0 <= j < k ==> Picks(hosts, idx, k)[j] == hosts[Rotated(idx, j, |hosts|)]
    decreases k
  {
    if k > 0 {
      var n := |hosts|;
      var next := GetHost(hosts, idx).value.next;
      PicksRotate(hosts, next, k - 1);
      forall j | 0 <= j < k
        ensures Picks(hosts, idx, k)[j] == hosts[Rotated(idx, j, n)]
      {
        if j > 0 {
          assert Picks(hosts, idx, k)[j] == Picks(hosts, next, k - 1)[j - 1];
          assert Rotated(next, j - 1, n) == Rotated(idx, j, n);
        }
      }
    }
  }

  /** How many steps round the ring lead from `idx` to position `i`. */
  function StepsTo(idx: nat, i: nat, n: nat): (j: nat)
    requires idx < n && i < n
    ensures j < n && Rotated(idx, j, n) == i
  {
    if i >= idx then i - idx else i + n - idx
  }

  /** `n` consecutive calls on `n` hosts visit every position exactly once:
      position `i` is reached by call `StepsTo(idx, i, n)`, and no two calls
      reach the same position. */
  lemma RoundRobinVisitsEachHostOnce(hosts: seq<string>, idx: nat)
    requires |hosts| > 0 && idx < |hosts|
    ensures forall i :: 0 <= i < |hosts| ==> Picks(hosts, idx, |hosts|)[StepsTo(idx, i, |hosts|)] == hosts[i]
    ensures forall j1, j2 :: 0 <= j1 < |hosts| && 0 <= j2 < |hosts| && Rotated(idx, j1, |hosts|) == Rotated(idx, j2, |hosts|) ==> j1 == j2
  {
    PicksRotate(hosts, idx, |hosts|);
  }

  // ---------------------------------------------------------------------
  // Authorization
  // ---------------------------------------------------------------------

  /**
   * `addAuthHeaders`: a non-empty API key wins; otherwise Basic credentials
   * (section 2 of RFC 7617) when both user name and password are set;
   * otherwise no header. `base64` is the Base64 encoding of section 4 of
   * RFC 4648 applied to the text's bytes.
   */
  function AuthHeader(apiKey: Option<string>, username: Option<string>, password: Option<string>,
                      base64: string -> string): (h: Option<Header>)
    ensures h.Some? <==> (apiKey.Some? && apiKey.value != "") || (username.Some? && password.Some?)
    ensures h.Some? ==> h.value.name == "Authorization"
  {
    if apiKey.Some? && apiKey.value != "" then Some(Header("Authorization", "ApiKey " + apiKey.value))
    else if username.Some? && password.Some? then
      Some(Header("Authorization", "Basic " + base64(username.value + ":" + password.value)))
    else None
  }

  /** An API key takes precedence over user name and password. */
  lemma ApiKeyWins(key: string, username: Option<string>, password: Option<string>, base64: string -> string)
    requires key != ""
    ensures AuthHeader(Some(key), username, password, base64) == Some(Header("Authorization", "ApiKey " + key))
  {
  }

  /** An empty API key counts as absent. */
  lemma EmptyApiKeyFallsBackToBasic(user: string, password: string, base64: string -> string)
    ensures AuthHeader(Some(""), Some(user), Some(password), base64)
      == Some(Header("Authorization", "Basic " + base64(user + ":" + password)))
  {
  }

  // ---------------------------------------------------------------------
  // Bulk payload
  // ---------------------------------------------------------------------

  /** One NDJSON line of a `_bulk` request: the action, or the document. */
  datatype BulkLine = Action(index: string) | Document(span: SpanData)

  /** The lines for a batch: an index action before every document. */
  function BulkLines(index: string, spans: seq<SpanData>): (lines: seq<BulkLine>)
    ensures |lines| == 2 * |spans|
    ensures forall i :: 0 <= i < |spans| ==>
      lines[2 * i] == Action(index) && lines[2 * i + 1] == Document(spans[i])
    decreases |spans|
  {
    if |spans| == 0 then []
    else
      var prefix := spans[..|spans| - 1];
      var rest := BulkLines(index, prefix);
      assert forall i :: 0 <= i < |prefix| ==> spans[i] == prefix[i];
      rest + [Action(index), Document(spans[|spans| - 1])]
  }

  /** The payload of a non-empty batch. `Map.of("_index", index)` refuses a
      null index, so the first action line throws. */
  function BulkPayload(index: Option<string>, spans: seq<SpanData>): (r: Result<seq<BulkLine>>)
    ensures r.Fail? <==> |spans| > 0 && index.None?
    ensures r.Ok? ==> |r.value| == 2 * |spans|
    ensures r.Ok? ==> forall i :: 0 <= i < |spans| ==>
              r.value[2 * i] == Action(index.value) && r.value[2 * i + 1] == Document(spans[i])
  {
    if |spans| == 0 then Ok([])
    else if index.None? then Fail(NullPointer)
    else Ok(BulkLines(index.value, spans))
  }

  /** The payload loop of `sendBatch`. */
  method BuildBulk(index: Option<string>, spans: seq<SpanData>) returns (r: Result<seq<BulkLine>>)
    ensures r == BulkPayload(index, spans)
  {
    var lines: seq<BulkLine> := [];
    for i := 0 to |spans|
      invariant index.Some? ==> lines == BulkLines(index.value, spans[..i])
      invariant index.None? ==> i == 0
    {
      if index.None? {
        return Fail(NullPointer);
      }
      assert spans[..i + 1][..i] == spans[..i];
      lines := lines + [Action(index.value), Document(spans[i])];
    }
    assert spans[..|spans|] == spans;
    if |spans| == 0 {
      return Ok([]);
    }
    r := Ok(lines);
  }

  /** A `_bulk` call succeeds only on HTTP 200 with a JSON object body whose
      `errors` field is not `true`; an unreadable body counts as failure. */
  predicate BulkAccepted(reply: Reply)
  {
    reply.Response? && reply.status == 200 && reply.body.Some? && reply.body.value.JObj?
    && Get(reply.body.value, "errors") != Some(JBool(true))
  }

  /** A partial failure reported with status 200 is still a failure, and a
      missing `errors` field counts as success. */
  lemma BulkErrorsFlagDecides(fields: map<string, Json>, token: Option<string>)
    ensures !BulkAccepted(Response(200, Some(JObj(fields["errors" := JBool(true)])), token))
    ensures "errors" !in fields ==> BulkAccepted(Response(200, Some(JObj(fields)), token))
    ensures BulkAccepted(Response(200, Some(JObj(fields["errors" := JBool(false)])), token))
  {
  }

  /** Any status other than 200 is a failure, whatever the body says. */
  lemma BulkNeeds200(reply: Reply)
    requires reply.Response? && reply.status != 200
    ensures !BulkAccepted(reply)
  {
  }

  predicate HealthAccepted(reply: Reply)
  {
    StatusIs(reply, 200)
  }

  // ---------------------------------------------------------------------
  // Configuration
  // ---------------------------------------------------------------------

  datatype Config = Config(
    hosts: seq<string>,
    index: Option<string>,
    auth: Option<Header>,
    batchSize: int,
    flushIntervalMs: int)

  /** The constructor; the authorization header depends only on the
      credentials, so it is computed once here. */
  function NewConfig(hosts: seq<string>, index: Option<string>, apiKey: Option<string>,
                     username: Option<string>, password: Option<string>,
                     batchSize: int, flushIntervalMs: int, base64: string -> string): (c: Config)
    ensures c.hosts == NormaliseHosts(hosts)
    ensures c.auth == AuthHeader(apiKey, username, password, base64)
  {
    Config(NormaliseHosts(hosts), index, AuthHeader(apiKey, username, password, base64),
           batchSize, flushIntervalMs)
  }

  function DefaultConfig(base64: string -> string): (c: Config)
    ensures c.hosts == ["http://localhost:9200"] && c.index == Some("genai-traces")
    ensures c.auth.None? && c.batchSize == 1 && c.flushIntervalMs == 5000
  {
    NewConfig(["http://localhost:9200"], Some("genai-traces"), None, None, None, 1, 5000, base64)
  }
}
