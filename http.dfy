/**
 * What the operations share: the process-wide axios Authorization default, the requests the
 * operations issue, the outcome the server gives them, and the value each operation settles with.
 */
module Http {
  import opened Wrappers
  import opened JsValues

  datatype Verb = GET | POST | PATCH | DELETE

  /** A request as issued, with the Authorization default in force when it was sent. */
  datatype Request = Request(verb: Verb, path: string, body: Option<Value>, authorization: Option<string>)

  /** The `response` an axios error carries when the server answered: its status and body. */
  datatype ErrorResponse = ErrorResponse(status: int, data: Value)

  /**
   * How a request ends: answered with a body, or failed, with the server's response when
   * there was one (none for a network error or an error thrown on the client).
   */
  datatype Outcome = Answered(data: Value) | Failed(response: Option<ErrorResponse>)

  /** The value an operation rejects with: `{message, status}` and, for auth operations, `details`. */
  datatype ErrorInfo = ErrorInfo(message: Value, status: int, details: Option<Value>)

  /** How an operation settles: fulfilled with a payload or rejected with an ErrorInfo. */
  datatype Settled = Fulfilled(payload: Value) | Rejected(reason: ErrorInfo)

  /** The rejection of an operation that needs a token and finds none. */
  const NoTokenProvided := ErrorInfo(Str("No token provided"), 401, None)

  /** The credentials a server reads from an Authorization value in the Bearer scheme. */
  function BearerCredentials(h: string): Option<string> {
    if |h| >= 7 && h[..7] == "Bearer " then Some(h[7..]) else None
  }

  /**
   * The header value `Bearer ${token}`: never the cleared value "", and read back by the
   * server as the token's text.
   */
  function BearerHeader(token: Value): (h: string)
    ensures h != ""
    ensures BearerCredentials(h) == Some(ToJsString(token))
  {
    "Bearer " + ToJsString(token)
  }

  /** The header determines the token's text. */
  lemma BearerHeaderDeterminesToken(a: Value, b: Value)
    ensures BearerHeader(a) == BearerHeader(b) ==> ToJsString(a) == ToJsString(b)
  {
  }

  /** `error.response?.status || 500`: never 0, the server's status when it is not 0. */
  function FailureStatus(response: Option<ErrorResponse>): (status: int)
    ensures status != 0
    ensures response.Some? && response.value.status != 0 ==> status == response.value.status
    ensures response.None? || response.value.status == 0 ==> status == 500
  {
    var v := Or(if response.Some? then Num(response.value.status) else Undefined, Num(500));
    v.n
  }

  /** `axios.defaults.headers.common`, reduced to its Authorization entry. */
  class AxiosDefaults {
    /** The Authorization default; None while it has never been assigned. */
    var authorization: Option<string>

    constructor ()
      ensures authorization == None
    {
      authorization := None;
    }

    method SetAuthHeader(token: Value)
      modifies this
      ensures authorization == Some(BearerHeader(token))
    {
      authorization := Some(BearerHeader(token));
    }

    /** Assigns the empty string; the entry stays present. */
    method ClearAuthHeader()
      modifies this
      ensures authorization == Some("")
    {
      authorization := Some("");
    }
  }
}
