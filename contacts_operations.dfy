/**
 * The contacts thunks: fetchContacts, addContact, deleteContact and updateContact. Only
 * fetchContacts checks the token; the other three set `Bearer ${token}` whatever it is.
 * Their rejections carry no `details` and do not consult the body's `error` field.
 */
module ContactsOperations {
  import opened Wrappers
  import opened JsValues
  import opened Http
  import AuthOperations

  const FetchFailed := "Failed to fetch contacts"
  const AddFailed := "Failed to add contact"
  const DeleteFailed := "Failed to delete contact"
  const UpdateFailed := "Failed to update contact"

  /** The rejection built in every contacts catch block: `data?.message || fallback` and the status or 500. */
  function ContactsRejection(fallback: string, response: Option<ErrorResponse>): (e: ErrorInfo)
    ensures fallback != "" ==> Truthy(e.message)
    ensures e.status == FailureStatus(response) && e.status != 0
    ensures e.details.None?
    ensures response.Some? && Truthy(Get(response.value.data, "message")) ==>
      e.message == Get(response.value.data, "message")
    ensures response.None? || !Truthy(Get(response.value.data, "message")) ==>
      e.message == Str(fallback)
  {
    var message := if response.Some? then Get(response.value.data, "message") else Undefined;
    ErrorInfo(Or(message, Str(fallback)), FailureStatus(response), None)
  }

  /** The id a server reads from a path below /contacts/. */
  function PathContactId(p: string): Option<string> {
    if |p| >= 10 && p[..10] == "/contacts/" then Some(p[10..]) else None
  }

  /**
   * The path of one contact, `/contacts/${id}`: never the collection path, and read back by
   * the server as the id's text. The id is inserted without URL encoding, so this reading
   * holds only for ids whose text has no '/', '?' or '#'; the server assigns the ids.
   */
  function ContactPath(id: Value): (p: string)
    ensures p != "/contacts"
    ensures PathContactId(p) == Some(ToJsString(id))
  {
    "/contacts/" + ToJsString(id)
  }

  /** GET /contacts. Without a truthy token nothing is sent and nothing changes. */
  method FetchContacts(http: AxiosDefaults, token: Value, outcome: Outcome) returns (settled: Settled, sent: Option<Request>)
    modifies http
    ensures !Truthy(token) ==>
      settled == Rejected(NoTokenProvided) && sent == None &&
      http.authorization == old(http.authorization)
    ensures Truthy(token) ==>
      sent == Some(Request(GET, "/contacts", None, Some(BearerHeader(token)))) &&
      http.authorization == Some(BearerHeader(token))
    ensures Truthy(token) && outcome.Answered? ==> settled == Fulfilled(outcome.data)
    ensures Truthy(token) && outcome.Failed? ==>
      settled == Rejected(ContactsRejection(FetchFailed, outcome.response))
  {
    if !Truthy(token) {
      return Rejected(NoTokenProvided), None;
    }
    http.SetAuthHeader(token);
    sent := Some(Request(GET, "/contacts", None, http.authorization));
    match outcome
    case Answered(data) =>
      settled := Fulfilled(data);
    case Failed(response) =>
      settled := Rejected(ContactsRejection(FetchFailed, response));
  }

  /** POST /contacts with the contact as body; no token check. */
  method AddContact(http: AxiosDefaults, token: Value, contact: Value, outcome: Outcome) returns (settled: Settled, sent: Request)
    modifies http
    ensures http.authorization == Some(BearerHeader(token))
    ensures sent == Request(POST, "/contacts", Some(contact), Some(BearerHeader(token)))
    ensures outcome.Answered? ==> settled == Fulfilled(outcome.data)
    ensures outcome.Failed? ==> settled == Rejected(ContactsRejection(AddFailed, outcome.response))
  {
    http.SetAuthHeader(token);
    sent := Request(POST, "/contacts", Some(contact), http.authorization);
    match outcome
    case Answered(data) =>
      settled := Fulfilled(data);
    case Failed(response) =>
      settled := Rejected(ContactsRejection(AddFailed, response));
  }

  /** DELETE /contacts/<id>; no token check; fulfils with the id it was given, not the server's body. */
  method DeleteContact(http: AxiosDefaults, token: Value, id: Value, outcome: Outcome) returns (settled: Settled, sent: Request)
    modifies http
    ensures http.authorization == Some(BearerHeader(token))
    ensures sent == Request(DELETE, ContactPath(id), None, Some(BearerHeader(token)))
    ensures outcome.Answered? ==> settled == Fulfilled(id)
    ensures outcome.Failed? ==> settled == Rejected(ContactsRejection(DeleteFailed, outcome.response))
  {
    http.SetAuthHeader(token);
    sent := Request(DELETE, ContactPath(id), None, http.authorization);
    match outcome
    case Answered(_) =>
      settled := Fulfilled(id);
    case Failed(response) =>
      settled := Rejected(ContactsRejection(DeleteFailed, response));
  }

  /**
   * PATCH /contacts/<id>; no token check. The argument is split as `{ id, ...contact }`: the
   * id goes into the path and only the remaining fields are sent.
   */
  method UpdateContact(http: AxiosDefaults, token: Value, argument: map<string, Value>, outcome: Outcome)
    returns (settled: Settled, sent: Request)
    modifies http
    ensures http.authorization == Some(BearerHeader(token))
    ensures sent.verb == PATCH && sent.authorization == Some(BearerHeader(token))
    ensures sent.path == ContactPath(if "id" in argument then argument["id"] else Undefined)
    ensures sent.body == Some(Obj(argument - {"id"}))
    ensures outcome.Answered? ==> settled == Fulfilled(outcome.data)
    ensures outcome.Failed? ==> settled == Rejected(ContactsRejection(UpdateFailed, outcome.response))
  {
    var id := Get(Obj(argument), "id");
    var contact := argument - {"id"};
    http.SetAuthHeader(token);
    sent := Request(PATCH, ContactPath(id), Some(Obj(contact)), http.authorization);
    match outcome
    case Answered(data) =>
      settled := Fulfilled(data);
    case Failed(response) =>
      settled := Rejected(ContactsRejection(UpdateFailed, response));
  }

  /**
   * Where the server's body has a truthy `message`, both files report it with the same status;
   * only the auth rejection carries the body as `details`.
   */
  lemma RejectionsAgreeOnMessage(authFallback: string, contactsFallback: string, response: Option<ErrorResponse>)
    requires response.Some? && Truthy(Get(response.value.data, "message"))
    ensures ContactsRejection(contactsFallback, response).message == AuthOperations.AuthRejection(authFallback, response).message
    ensures ContactsRejection(contactsFallback, response).status == AuthOperations.AuthRejection(authFallback, response).status
    ensures AuthOperations.AuthRejection(authFallback, response).details == Some(response.value.data)
    ensures ContactsRejection(contactsFallback, response).details == None
  {
  }

  /**
   * Without a truthy `message`, the auth files fall back to a truthy `error` field and the
   * contacts file to its fixed text.
   */
  lemma OnlyAuthFallsBackToErrorField(authFallback: string, contactsFallback: string, response: Option<ErrorResponse>)
    requires response.Some? && !Truthy(Get(response.value.data, "message"))
    requires Truthy(Get(response.value.data, "error"))
    ensures AuthOperations.AuthRejection(authFallback, response).message == Get(response.value.data, "error")
    ensures ContactsRejection(contactsFallback, response).message == Str(contactsFallback)
  {
  }
}
