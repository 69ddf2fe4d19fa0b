# Contact book client: selectors and async operations

This project models the state layer of a React/Redux contact-book client that talks to a REST
contacts service. It covers two parts.

- **The filtered-contacts selector.** It takes the contact list and the free-text filter from
  the store. An empty or absent filter, or an absent list, gives the list back unchanged.
  Otherwise it keeps, in order, the contacts whose lower-cased name or raw number contains the
  lower-cased filter. The plain projections `selectContacts`, `selectIsLoading`, `selectError`
  and `selectFilter` are field reads (`ContactSelectors.SelectContacts` and its neighbours).
- **The outcome logic of the async operations** (`register`, `login`, `logout`, `refreshUser`,
  `fetchContacts`, `addContact`, `deleteContact`, `updateContact`). Each is a method over
  `Http.AxiosDefaults`, a class whose one field is the process-wide axios `Authorization`
  default. Both operation files write that same field. A method takes the token read from the
  store, its arguments and the outcome of its request. It returns how it settles (fulfilled
  payload or rejected `{message, status, details}`) and the request it issued, with the header
  that request carried. Its postconditions give the exact header value on every path.

JavaScript values are a datatype (`JsValues.Value`), so the model uses JavaScript's own rules
for truthiness, `||`, property reads and `${…}` string conversion. An empty message counts as
absent, and status 0 becomes 500.

Modules: `Wrappers` (Option), `JsValues`, `ContactSelectors`, `Http`, `AuthOperations`,
`ContactsOperations`, and `Scenarios`. `Scenarios` holds two client methods that chain
operations over one header.

## Model

| member | source | states |
|---|---|---|
| JsValues.ToLowerCase | src/redux/contacts/selectors.js:12 | lower-casing keeps the length, maps each character, and leaves no upper-case ASCII letter |
| JsValues.ToLowerCaseIdempotent | src/redux/contacts/selectors.js:12 | lower-casing twice is the same as lower-casing once |
| JsValues.IncludesIffOccurs | src/redux/contacts/selectors.js:15-16 | `includes` is true exactly when the substring occurs at some index |
| JsValues.Truthy | src/redux/contacts/selectors.js:11 | definition of the JavaScript truth test behind `!filter`, `!token` (src/redux/auth/operations.js:76, 111; src/redux/contacts/operations.js:20) and every `or`: undefined, null, false, 0 and "" are falsy; other numbers, non-empty strings, `true`, arrays and objects are truthy |
| JsValues.Get | src/redux/auth/operations.js:23 | definition of a property read such as `response.data.token` (also src/redux/auth/operations.js:28, 52 and src/redux/contacts/operations.js:31): the property's value on a plain object that has it, undefined on every other value |
| JsValues.Or | src/redux/auth/operations.js:26-28 | JavaScript `or` returns its first operand when that is truthy and its second otherwise, so the result is truthy iff either operand is |
| JsValues.Includes | src/redux/contacts/selectors.js:15-16 | `s.includes(sub)` holds whenever `sub` is a prefix of `s`, and only when `sub` is no longer than `s` |
| JsValues.ToJsString | src/redux/auth/operations.js:7 | the `${…}` conversion: a string converts to itself, and every other non-array value (null, undefined, numbers, booleans, objects) to a non-empty text |
| ContactSelectors.SelectContacts | src/redux/contacts/selectors.js:3 | no contract of its own: the body is the field read `state.contacts.items`; SelectFilteredContacts' contract is stated through it |
| ContactSelectors.SelectIsLoading | src/redux/contacts/selectors.js:4 | no contract of its own: the body is the field read `state.contacts.isLoading` |
| ContactSelectors.SelectError | src/redux/contacts/selectors.js:5 | no contract of its own: the body is the field read `state.contacts.error` |
| ContactSelectors.SelectFilter | src/redux/contacts/selectors.js:6 | no contract of its own: the body is the field read `state.filters.globalFilter`; SelectFilteredContacts' contract is stated through it |
| ContactSelectors.Matches | src/redux/contacts/selectors.js:14-16 | a contact with neither name nor number never matches; under the empty filter exactly the contacts with a name or a number match |
| ContactSelectors.KeepMatching | src/redux/contacts/selectors.js:13-17 | the filtered list is never longer than the input |
| ContactSelectors.KeepMatchingIsSubsequence | src/redux/contacts/selectors.js:13-17 | the kept list is a subsequence of the input: relative order is preserved |
| ContactSelectors.KeepMatchingCount | src/redux/contacts/selectors.js:13-17 | a matching contact is kept as many times as it occurs in the input; a non-matching one is not kept at all |
| ContactSelectors.KeepMatchingMembership | src/redux/contacts/selectors.js:13-17 | soundness and completeness: a contact is in the kept list iff it is in the input and matches the filter |
| ContactSelectors.FilterContacts | src/redux/contacts/selectors.js:10-18 | an absent or empty filter, or an absent list, returns the input itself; the result is absent iff the list is; otherwise the result is a subsequence of the list holding exactly the contacts that match the lower-cased filter |
| ContactSelectors.SelectFilteredContacts | src/redux/contacts/selectors.js:8-19 | applied to the store, the selector returns a subsequence of the stored list, and returns the stored list itself when the filter is absent or empty |
| ContactSelectors.FilterContactsCount | src/redux/contacts/selectors.js:11-17 | with a non-empty filter, a contact occurs in the result as often as in the list when it matches the lower-cased filter, and not at all otherwise |
| ContactSelectors.FilteredViewIgnoresLoadingAndError | src/redux/contacts/selectors.js:8-9 | the filtered view depends only on the list and the filter: changing `isLoading` or `error` leaves it unchanged |
| ContactSelectors.KeepMatchingKeepsAllMatching | src/redux/contacts/selectors.js:13-17 | a list whose every contact matches passes through unchanged |
| ContactSelectors.KeepMatchingIdempotent | src/redux/contacts/selectors.js:13-17 | filtering an already filtered list with the same lower-cased filter returns it unchanged |
| ContactSelectors.FilterContactsIdempotent | src/redux/contacts/selectors.js:11-17 | applying the selector's combiner to its own output with the same filter changes nothing |
| ContactSelectors.FilterContactsCaseInsensitive | src/redux/contacts/selectors.js:11-12 | filtering with `f` and with `f.toLowerCase()` gives the same result |
| ContactSelectors.NamelessContactMatchesOnNumber | src/redux/contacts/selectors.js:15-16 | a contact without a name is kept exactly when its number contains the lower-cased filter |
| ContactSelectors.BareContactNeverMatches | src/redux/contacts/selectors.js:15-16 | a contact with neither name nor number is never kept by a non-empty filter |
| Http.BearerHeader | src/redux/auth/operations.js:7 | the header `Bearer ${token}` is never the cleared value "", and a server reading the Bearer scheme gets back the token's text |
| Http.BearerHeaderDeterminesToken | src/redux/auth/operations.js:7 | two tokens giving the same header have the same text |
| Http.FailureStatus | src/redux/auth/operations.js:36 | the rejected status is never 0: the response status when it is non-zero, 500 when it is 0 or there is no response |
| Http.AxiosDefaults.SetAuthHeader | src/redux/auth/operations.js:6-8 | the header becomes `Bearer ${token}` |
| Http.AxiosDefaults.ClearAuthHeader | src/redux/auth/operations.js:10-12 | the header becomes the empty string; it is not removed |
| AuthOperations.ErrorData | src/redux/auth/operations.js:26 | the error data is always truthy: the response body when that is truthy, `{}` otherwise |
| AuthOperations.AuthRejection | src/redux/auth/operations.js:26-38 | the message is `data.message` if truthy, else `data.error` if truthy, else the fallback (so always truthy); status as FailureStatus; `details` is the error data |
| AuthOperations.Register | src/redux/auth/operations.js:14-41 | sends POST /users/signup with the current header. On an answer with a body, it sets the header from `data.token` and returns the body. A null or undefined body, or a failure, rejects with 'Registration failed' or the server's message and leaves the header untouched |
| AuthOperations.Login | src/redux/auth/operations.js:43-70 | the same as Register for POST /users/login, with the fallback 'Login failed' |
| AuthOperations.Logout | src/redux/auth/operations.js:72-103 | with a falsy token: rejects with ('No token provided', 401), sends nothing and leaves the header alone. Otherwise it sends POST /users/logout with `Bearer ${token}`. Success clears the header and returns `{}`. Failure leaves `Bearer ${token}` and rejects with 'Logout failed' or the server's message |
| AuthOperations.RefreshUser | src/redux/auth/operations.js:105-138 | with a falsy token: rejects with ('No token provided', 401), sends nothing and leaves the header alone. Otherwise it sends GET /users/current and leaves the header at `Bearer ${token}` on both paths. It returns the body, or rejects with 'Refresh failed' or the server's message |
| ContactsOperations.ContactsRejection | src/redux/contacts/operations.js:29-34 | the message is `data.message` if truthy, else the fallback (no `error` fallback); status as FailureStatus; no `details` |
| ContactsOperations.ContactPath | src/redux/contacts/operations.js:63 | the path `/contacts/${id}` is never the collection path, and a server reads back the id's text from it (the id is not URL-encoded, so this holds for ids without '/', '?' or '#'; the server assigns ids) |
| ContactsOperations.FetchContacts | src/redux/contacts/operations.js:14-36 | with a falsy token: rejects with ('No token provided', 401), sends nothing and leaves the header alone. Otherwise it sets `Bearer ${token}` and sends GET /contacts. It returns the body, or rejects with 'Failed to fetch contacts' or the server's message |
| ContactsOperations.AddContact | src/redux/contacts/operations.js:38-54 | has no token check and always sets `Bearer ${token}`, even for a null token. Sends POST /contacts with the contact. Returns the body, or rejects with 'Failed to add contact' or the server's message |
| ContactsOperations.DeleteContact | src/redux/contacts/operations.js:56-72 | has no token check and always sets `Bearer ${token}`. Sends DELETE /contacts/<id>. Returns its argument id, not the server's body, or rejects with 'Failed to delete contact' or the server's message |
| ContactsOperations.UpdateContact | src/redux/contacts/operations.js:74-90 | has no token check and always sets `Bearer ${token}`. PATCHes /contacts/<id> with the argument minus its `id` field. Returns the body, or rejects with 'Failed to update contact' or the server's message |
| ContactsOperations.RejectionsAgreeOnMessage | src/redux/contacts/operations.js:31-32 | when the body has a truthy `message`, auth and contacts rejections agree on message and status; only the auth one carries `details` |
| ContactsOperations.OnlyAuthFallsBackToErrorField | src/redux/auth/operations.js:27-28 | without a truthy `message` but with a truthy `error`, the auth rejection reports `error` and the contacts rejection its fixed text |

## Left out

- The reducers for `items`, `isLoading`, `error`, `user`, `isLoggedIn` and the filter live in slice files that are not part of this model. So list insertion, deletion and replacement are not modelled, and neither are the store transitions after an operation settles.
- The HTTP requests themselves, `baseURL`, the per-request `Content-Type` header, `async`/`await` and the pending/fulfilled/rejected dispatch: the outcome of each request is a parameter.
- Races between concurrent requests over the shared header: each method runs to completion.
- `console.log` calls, all `.jsx` components and pages, the Yup validation schemas, and `createSelector` memoisation (reference identity across calls).
- JsValues.ToLowerCase: maps only ASCII letters, not full Unicode `toLowerCase`.
- JsValues.Value: numbers are unbounded integers. NaN, fractions, -0 and the 2^53 limit of JavaScript numbers are not modelled. `ToJsString` prints plain decimal where JavaScript switches to exponent form from 1e21 up. Strings are sequences of Unicode scalar values, not UTF-16 code units. The modelled operations depend on none of these.
- JsValues.ToJsString: objects convert to "[object Object]"; custom `toString` methods and symbols (which can throw) are not modelled.
- ContactSelectors.Contact: `name` and `number` are strings or absent. A non-string name, on which `toLowerCase` would throw, is not modelled, and null and undefined are one case.
- ContactsOperations.UpdateContact: the argument is an object. A null or undefined argument throws while being destructured, before the `try`, and the rejection the thunk library then builds is not modelled.
- The `setAuthHeader`/`clearAuthHeader` copies in src/redux/contacts/operations.js:6-12 are the same assignments as in the auth file. Both are modelled once, by `Http.AxiosDefaults`.
- src/components/Contact/Contact.jsx imports a module that is not part of this model and is left out.

Behaviours of the code worth noting:
- `clearAuthHeader` assigns the empty string rather than removing the header.
- `addContact`, `deleteContact` and `updateContact` do not check the token.
- A failed `logout` keeps `Bearer ${token}`.
- `updateContact` sends every field of its argument except `id`.
