/**
 * Clients of the operations: sequences of calls over one shared header, showing what the
 * contracts let a caller conclude.
 */
module Scenarios {
  import opened Wrappers
  import opened JsValues
  import opened Http
  import AuthOperations
  import ContactsOperations

  /** Log in, then call the contacts operations with and without the stored token, then log out. */
  method SessionWithSharedHeader() {
    var http := new AxiosDefaults();
    var credentials := Obj(map["email" := Str("a@b.com"), "password" := Str("secret1")]);
    var body := Obj(map["user" := Obj(map["name" := Str("A")]), "token" := Str("T1")]);

    var loggedIn, login := AuthOperations.Login(http, credentials, Answered(body));
    assert login.authorization == None;
    assert loggedIn == Fulfilled(body);
    assert Get(body, "token") == Str("T1");
    assert BearerHeader(Str("T1")) == "Bearer " + "T1" == "Bearer T1";
    assert http.authorization == Some("Bearer T1");

    // fetchContacts with no token in the store: nothing is sent, the header stays
    var fetched, fetch := ContactsOperations.FetchContacts(http, Null, Answered(Arr([])));
    assert fetched == Rejected(ErrorInfo(Str("No token provided"), 401, None));
    assert fetch == None && http.authorization == Some("Bearer T1");

    // addContact has no such guard: it sends `Bearer null`
    var taken := Obj(map["message" := Str("Number already exists")]);
    var added, add := ContactsOperations.AddContact(http, Null, Obj(map["name" := Str("B")]),
                                                   Failed(Some(ErrorResponse(400, taken))));
    assert added == Rejected(ErrorInfo(Str("Number already exists"), 400, None));
    assert BearerHeader(Null) == "Bearer " + "null" == "Bearer null";
    assert add.authorization == Some("Bearer null");

    // a failed logout leaves the token's header in place; a successful one clears it
    var refused, _ := AuthOperations.Logout(http, Str("T1"), Failed(None));
    assert refused == Rejected(ErrorInfo(Str("Logout failed"), 500, Some(Obj(map[]))));
    assert http.authorization == Some("Bearer T1");
    var loggedOut, _ := AuthOperations.Logout(http, Str("T1"), Answered(Obj(map[])));
    assert loggedOut == Fulfilled(Obj(map[]));
    assert http.authorization == Some("");
  }

  /** Registration whose body is null fails on reading the token and leaves the header alone. */
  method RegistrationWithNullBody() {
    var http := new AxiosDefaults();
    http.SetAuthHeader(Str("old"));
    assert BearerHeader(Str("old")) == "Bearer " + "old" == "Bearer old";
    var settled, _ := AuthOperations.Register(http, Obj(map[]), Answered(Null));
    assert settled == Rejected(ErrorInfo(Str("Registration failed"), 500, Some(Obj(map[]))));
    assert http.authorization == Some("Bearer old");
  }
}
