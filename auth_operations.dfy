/**
 * The auth thunks: register, login, logout and refreshUser. Each is a method over the shared
 * Authorization default, given the token read from the store, the arguments, and the outcome
 * of its request; it returns how it settles and the request it issued, if any.
 */
module AuthOperations {
  import opened Wrappers
  import opened JsValues
  import opened Http

  const RegistrationFailed := "Registration failed"
  const LoginFailed := "Login failed"
  const LogoutFailed := "Logout failed"
  const RefreshFailed := "Refresh failed"

  /** `error.response?.data || {}`: always truthy, the server's body when that is truthy. */
  function ErrorData(response: Option<ErrorResponse>): (d: Value)
    ensures Truthy(d)
    ensures response.Some? && Truthy(response.value.data) ==> d == response.value.data
    ensures response.None? || !Truthy(response.value.data) ==> d == Obj(map[])
  {
    Or(if response.Some? then response.value.data else Undefined, Obj(map[]))
  }

  /**
   * The rejection built in every auth catch block: `errorData.message || errorData.error ||
   * fallback` as message, the status or 500, and the error data as details.
   */
  function AuthRejection(fallback: string, response: Option<ErrorResponse>): (e: ErrorInfo)
    ensures fallback != "" ==> Truthy(e.message)
    ensures e.status == FailureStatus(response) && e.status != 0
    ensures e.details == Some(ErrorData(response))
    ensures var d := ErrorData(response);
            if Truthy(Get(d, "message")) then e.message == Get(d, "message")
            else if Truthy(Get(d, "error")) then e.message == Get(d, "error")
            else e.message == Str(fallback)
  {
    var d := ErrorData(response);
    ErrorInfo(Or(Or(Get(d, "message"), Get(d, "error")), Str(fallback)), FailureStatus(response), Some(d))
  }

  /**
   * POST /users/signup. On an answer the header becomes `Bearer ${data.token}` and the body is
   * returned; reading `.token` of a null or undefined body throws, which the catch block turns
   * into a rejection with no response. The request carries whatever header was in force.
   */
  method Register(http: AxiosDefaults, credentials: Value, outcome: Outcome) returns (settled: Settled, sent: Request)
    modifies http
    ensures sent == Request(POST, "/users/signup", Some(credentials), old(http.authorization))
    ensures outcome.Answered? && !Nullish(outcome.data) ==>
      settled == Fulfilled(outcome.data) &&
      http.authorization == Some(BearerHeader(Get(outcome.data, "token")))
    ensures outcome.Answered? && Nullish(outcome.data) ==>
      settled == Rejected(AuthRejection(RegistrationFailed, None)) &&
      http.authorization == old(http.authorization)
    ensures outcome.Failed? ==>
      settled == Rejected(AuthRejection(RegistrationFailed, outcome.response)) &&
      http.authorization == old(http.authorization)
  {
    sent := Request(POST, "/users/signup", Some(credentials), http.authorization);
    match outcome
    case Answered(data) =>
      if Nullish(data) {
        settled := Rejected(AuthRejection(RegistrationFailed, None));
      } else {
        http.SetAuthHeader(Get(data, "token"));
        settled := Fulfilled(data);
      }
    case Failed(response) =>
      settled := Rejected(AuthRejection(RegistrationFailed, response));
  }

  /** POST /users/login, with the same shape as Register. */
  method Login(http: AxiosDefaults, credentials: Value, outcome: Outcome) returns (settled: Settled, sent: Request)
    modifies http
    ensures sent == Request(POST, "/users/login", Some(credentials), old(http.authorization))
    ensures outcome.Answered? && !Nullish(outcome.data) ==>
      settled == Fulfilled(outcome.data) &&
      http.authorization == Some(BearerHeader(Get(outcome.data, "token")))
    ensures outcome.Answered? && Nullish(outcome.data) ==>
      settled == Rejected(AuthRejection(LoginFailed, None)) &&
      http.authorization == old(http.authorization)
    ensures outcome.Failed? ==>
      settled == Rejected(AuthRejection(LoginFailed, outcome.response)) &&
      http.authorization == old(http.authorization)
  {
    sent := Request(POST, "/users/login", Some(credentials), http.authorization);
    match outcome
    case Answered(data) =>
      if Nullish(data) {
        settled := Rejected(AuthRejection(LoginFailed, None));
      } else {
        http.SetAuthHeader(Get(data, "token"));
        settled := Fulfilled(data);
      }
    case Failed(response) =>
      settled := Rejected(AuthRejection(LoginFailed, response));
  }

  /**
   * POST /users/logout. Without a truthy token nothing is sent and nothing changes. Otherwise
   * the header is set from the token first; it is cleared only when the server answers.
   */
  method Logout(http: AxiosDefaults, token: Value, outcome: Outcome) returns (settled: Settled, sent: Option<Request>)
    modifies http
    ensures !Truthy(token) ==>
      settled == Rejected(NoTokenProvided) && sent == None &&
      http.authorization == old(http.authorization)
    ensures Truthy(token) ==>
      sent == Some(Request(POST, "/users/logout", None, Some(BearerHeader(token))))
    ensures Truthy(token) && outcome.Answered? ==>
      settled == Fulfilled(Obj(map[])) && http.authorization == Some("")
    ensures Truthy(token) && outcome.Failed? ==>
      settled == Rejected(AuthRejection(LogoutFailed, outcome.response)) &&
      http.authorization == Some(BearerHeader(token))
  {
    if !Truthy(token) {
      return Rejected(NoTokenProvided), None;
    }
    http.SetAuthHeader(token);
    sent := Some(Request(POST, "/users/logout", None, http.authorization));
    match outcome
    case Answered(_) =>
      http.ClearAuthHeader();
      settled := Fulfilled(Obj(map[]));
    case Failed(response) =>
      settled := Rejected(AuthRejection(LogoutFailed, response));
  }

  /**
   * GET /users/current. Without a truthy token nothing is sent and nothing changes. Otherwise
   * the header is left at `Bearer ${token}` whatever the server does.
   */
  method RefreshUser(http: AxiosDefaults, token: Value, outcome: Outcome) returns (settled: Settled, sent: Option<Request>)
    modifies http
    ensures !Truthy(token) ==>
      settled == Rejected(NoTokenProvided) && sent == None &&
      http.authorization == old(http.authorization)
    ensures Truthy(token) ==>
      sent == Some(Request(GET, "/users/current", None, Some(BearerHeader(token)))) &&
      http.authorization == Some(BearerHeader(token))
    ensures Truthy(token) && outcome.Answered? ==> settled == Fulfilled(outcome.data)
    ensures Truthy(token) && outcome.Failed? ==>
      settled == Rejected(AuthRejection(RefreshFailed, outcome.response))
  {
    if !Truthy(token) {
      return Rejected(NoTokenProvided), None;
    }
    http.SetAuthHeader(token);
    sent := Some(Request(GET, "/users/current", None, http.authorization));
    match outcome
    case Answered(data) =>
      settled := Fulfilled(data);
    case Failed(response) =>
      settled := Rejected(AuthRejection(RefreshFailed, response));
  }
}
