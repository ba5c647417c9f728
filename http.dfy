/**
 * The values the three services exchange: JSON documents, HTTP responses,
 * and what came back from the outbound IP-lookup request.
 */
module Http {
  import opened Wrappers

  /** A JSON value. Numbers are integers here; the services never inspect a fractional one. */
  datatype Json = JNull | JBool(b: bool) | JNum(n: int) | JStr(s: string) | JArr(items: seq<Json>) | JObj(fields: map<string, Json>)

  /** A list or a dict: Python cannot hash it, so looking it up in a set raises TypeError. */
  predicate Unhashable(j: Json)
  {
    j.JArr? || j.JObj?
  }

  /** A JSON object (a Python dict, a JavaScript object). */
  type Object = map<string, Json>

  datatype Response = Response(status: int, body: Object, headers: map<string, string>)

  /** What a FastAPI `HTTPException(status, detail)` becomes on the wire. */
  function Detail(status: int, detail: string): Response
  {
    Response(status, map["detail" := JStr(detail)], map[])
  }

  /** What an Express handler's `res.status(status).json({message})` sends. */
  function Message(status: int, message: string): Response
  {
    Response(status, map["message" := JStr(message)], map[])
  }

  function Ok(body: Object): Response
  {
    Response(200, body, map[])
  }

  /** Starlette's answer to an exception the handler did not catch. */
  const InternalServerError := Response(500, map[], map[])

  /**
   * Result of the outbound request to the lookup service: either the request
   * itself failed (connection refused, timeout), or a reply came with an HTTP
   * status and a body that is a JSON object, or None when it is not JSON.
   */
  datatype Upstream = Unreachable | Reply(status: int, body: Option<Object>)

  /**
   * What an endpoint did: the response it sent, and the IP address it asked
   * the lookup service about, if it made that request at all.
   */
  datatype Handled = Handled(response: Response, lookedUp: Option<string>)
}
