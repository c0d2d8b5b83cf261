/**
 * The outbound HTTP round trip, abstracted. A request names the endpoint and
 * the query text; what the remote service answers is an `Exchange`, supplied
 * from outside the model.
 */
module Http {
  import opened Wrappers
  import opened Json

  /** One outbound GET: the endpoint URL and the query text it carries. */
  datatype Request = Request(endpoint: string, query: string)

  /**
   * What `requests.get` produced: no response at all (connection error,
   * timeout, ...), or a response with its status code and its body decoded as
   * JSON (`None` when the body is not valid JSON, so `.json()` raises).
   */
  datatype Exchange =
    | NoResponse
    | Response(status: int, body: Option<Value>)

  /** The status codes for which `raise_for_status()` raises (client and server errors). */
  predicate RaisesForStatus(status: int) {
    400 <= status < 600
  }

  /**
   * The payload left after `requests.get`, `raise_for_status()` and `.json()`
   * have all returned; `None` when any of the three raised.
   */
  function Payload(x: Exchange): Option<Value> {
    match x
    case NoResponse => None
    case Response(status, body) => if RaisesForStatus(status) then None else body
  }
}
