/** HTTP status codes and the five outbound verbs the relay and the
    validation tool accept. */
module Http {
  import opened Base

  type StatusCode = nat

  const BAD_REQUEST: StatusCode := 400
  const NOT_FOUND: StatusCode := 404
  const INTERNAL_SERVER_ERROR: StatusCode := 500

  datatype Method = GET | POST | PUT | DELETE | PATCH

  function MethodName(m: Method): string
  {
    match m
    case GET => "GET"
    case POST => "POST"
    case PUT => "PUT"
    case DELETE => "DELETE"
    case PATCH => "PATCH"
  }

  /** The dispatcher's `match` on the upper-cased target method: exactly the
      five verb names are recognised. */
  function ParseMethod(upper: string): (r: Option<Method>)
    ensures r.Some? ==> MethodName(r.value) == upper
    ensures r.None? <==> forall m: Method :: MethodName(m) != upper
  {
    if upper == "GET" then Some(GET)
    else if upper == "POST" then Some(POST)
    else if upper == "PUT" then Some(PUT)
    else if upper == "DELETE" then Some(DELETE)
    else if upper == "PATCH" then Some(PATCH)
    else None
  }

  /** The list the validation tool checks an inbound method against. */
  const VALID_METHODS: seq<string> := ["GET", "POST", "PUT", "DELETE", "PATCH"]

  /** The validation tool's list and the dispatcher's `match` accept the same names. */
  lemma ValidMethodsAgreeWithDispatch(upper: string)
    ensures upper in VALID_METHODS <==> ParseMethod(upper).Some?
  {
  }
}
