// Values exchanged with the outside world: a JSON tree (what Jackson reads a
// response body or an LLM result into) and the reply of an HTTP round trip.

module JsonValues {
  import opened Common

  /** A Jackson `JsonNode`; numbers are integral (`JNum`). */
  datatype Json =
    | JNull
    | JBool(b: bool)
    | JNum(n: int)
    | JStr(s: string)
    | JArr(items: seq<Json>)
    | JObj(fields: map<string, Json>)

  /** `node.get(field)`: present only on an object that has the field. */
  function Get(node: Json, field: string): (r: Option<Json>)
    ensures r.Some? <==> node.JObj? && field in node.fields
  {
    if node.JObj? && field in node.fields then Some(node.fields[field]) else None
  }

  /** `node.path(field).asText()`: the text of a scalar, "" for a missing
      field, an object or an array. */
  function PathText(node: Json, field: string): string
  {
    match Get(node, field)
    case None => ""
    case Some(v) => AsText(v)
  }

  function AsText(v: Json): (r: string)
    ensures v.JStr? ==> r == v.s
    ensures v.JArr? || v.JObj? ==> r == ""
  {
    match v
    case JNull => "null"
    case JBool(b) => if b then "true" else "false"
    case JNum(n) => IntToString(n)
    case JStr(s) => s
    case JArr(_) => ""
    case JObj(_) => ""
  }

  /** `Number.intValue()` / `JsonNode.asInt()` of an integral number. */
  function IntValue(n: int): Int32 { WrapInt32(n) }
}

module Http {
  import opened Common
  import opened JsonValues

  datatype Header = Header(name: string, value: string)

  /**
   * What the network gives back for one request: a response with a status
   * code, its body as JSON (None when the body is not JSON) and, for the
   * CloudWatch Logs client, the `nextSequenceToken` it returns; or an
   * exception thrown by the client (connection refused, timeout, ...).
   */
  datatype Reply =
    | Response(status: int, body: Option<Json>, nextToken: Option<string>)
    | Thrown

  predicate StatusIs(reply: Reply, code: int)
  {
    reply.Response? && reply.status == code
  }
}
