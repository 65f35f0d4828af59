# OAuth2 calendar handshake: a verified model

This project models a Django backend that connects a user to Google Calendar.
The backend is two views and one helper, all in `backend.py`:

- the **authorization initiator** (`GoogleCalendarInitView.get`) asks the
  OAuth flow library for a consent URL, stores the anti-forgery `state` in
  the session under `oauth2_state` and redirects to that URL;
- the **callback** (`GoogleCalendarRedirectView.get`) runs four gates that
  short-circuit:
  1. the upstream `error` parameter;
  2. the anti-forgery check, which first pops `oauth2_state` and then
     compares it with the `state` parameter;
  3. the code-for-token exchange;
  4. the calendar query. This gate first stores
     `credentials_to_dict(credentials)` under `oauth2_credentials`, then turns
     the upstream events into `{summary, start}` records;
- **`credentials_to_dict`** copies six attributes of the credential object
  into a dict.

The modules:

- `Values` (values.dfy) models Python values as JSON-shaped data: `None`,
  booleans, integers, strings, lists and dicts. It also gives their
  truthiness (`if x:`), `dict.get` and `request.GET.get`.
- `CredentialStore` (credentials.dfy) holds the credential set,
  `CredentialsToDict` and its inverse `DictToCredentials`. The lemmas prove
  the round trip and that none of the six serialised attributes is lost.
- `EventProjection` (events.dfy) projects one event
  (`ProjectEvent`, `StartOf`). `ProjectEvents` is the loop that builds
  `event_list`. `ProjectAll` is the recursive function the loop is proved
  to compute. `ProjectAllSpec` gives its length, order and failure.
- `CalendarViews` (views.dfy):
  - `Initiate` and `Callback` are pure functions from the session before a
    request to the response and the session after it;
  - a `Session` class stands for the request's session. Its `Pop` and `Put`
    methods update it in place;
  - `InitView` and `RedirectView` are the views written step by step over
    that class. Each is proved to leave the response and session its
    function gives.
- `ViewProperties` (properties.dfy) holds the lemmas about what the views
  guarantee.

The library calls are inputs to the model:

- The initiator gets `authorize`, a function from the arguments the view
  passes to the flow (scope, redirect URI, `access_type`, `prompt`) to the
  URL and state it returns.
- The callback gets an `Exchange`: `Exchanged(credentials)` or
  `ExchangeFailed(reason)`.
- The callback also gets a `Listing`: the calendar response dict, or
  `ListFailed(reason)`, which stands for an `HttpError`.
- Redirects, 400 answers and JSON answers are built-in cases of `Response`.
  An exception the view does not catch is `Unhandled`; Django answers it
  with a server error.

Behaviour of the code a reader might not expect:

- With no stored state and no `state` parameter, `None != None` is false,
  so the anti-forgery check passes (`MissingStateOnBothSidesPasses`). It
  does not answer "Invalid state parameter".
- The data-retrieval gate catches only `HttpError`. An event without
  `summary` or `start`, a `start` that is not a dict, or a truthy `items`
  that is not a list makes the view raise (`Unhandled`), not answer 400.
- The records carry the key `summary`, not `title`.
- The initiator does not require the session to be free of a state. It
  overwrites any earlier one.

## Model

| member | source | states |
|---|---|---|
| CredentialStore.CredentialsToDict | backend.py:14-22 | the dict has exactly the keys token, refresh_token, token_uri, client_id, client_secret and scopes, and each holds the matching attribute unchanged |
| CredentialStore.TextListRoundTrip | backend.py:21 | a scope list stored as a list of strings reads back as the same list, in order |
| CredentialStore.CredentialsRoundTrip | backend.py:14-22 | reading the stored dict back gives exactly the credential set that was serialised |
| CredentialStore.CredentialsToDictInjective | backend.py:14-22 | two credential sets with the same serialisation are equal: none of the six copied attributes is lost |
| EventProjection.StartOf | backend.py:76 | `start` is the `dateTime` value when that key is present, else the `date` value, else `None` |
| EventProjection.ProjectEvent | backend.py:76-77 | the loop body succeeds exactly for a dict event with `summary` and a dict `start`; the record then has exactly the keys summary (copied) and start (from StartOf) |
| EventProjection.ProjectAllSpec | backend.py:74-77 | the projection succeeds exactly when every event is well formed; it then has the items' length and each position holds that item's projection |
| EventProjection.ProjectAll | backend.py:74-77 | the whole loop as a function: one record per event, in order, or failure if any event raises; characterised by ProjectAllSpec (the iff, the length and each position) and equal to what ProjectEvents computes |
| EventProjection.ProjectEvents | backend.py:74-77 | the `for`/`append` loop fails iff some event is malformed; otherwise it returns one record per event in order, and it equals ProjectAll |
| Values.QueryGet | backend.py:44 | `request.GET.get(key)` is the parameter's text when present and `None` otherwise; used at lines 44 and 49 |
| Values.Truthy | backend.py:45 | Python truthiness for `if error:` (line 45) and `if not events:` (line 71); characterised through ErrorGateLeavesSession, EmptyErrorIsIgnored and NoEventsMessage |
| CalendarViews.Initiate | backend.py:26-39 | the initiator as a function of the session; characterised by InitView's equality ensures and by InitiateStoresState and InitiateThenCallback |
| CalendarViews.Callback | backend.py:43-81 | the four-gate callback as a function of the session; characterised by RedirectView's equality ensures and by the ViewProperties lemmas (StateGate, CallbackFootprint, ExchangeStoresCredentials, ...) |
| CalendarViews.ListingResponse | backend.py:66-81 | the data-retrieval gate answers 400 exactly when the calendar call raised HttpError (its ensures); NoEventsMessage and EventsResponse give the JSON answers |
| CalendarViews.InitView | backend.py:26-39 | the session afterwards is the old one with `oauth2_state` set to the flow's state, and the answer redirects to the flow's URL; this is what Initiate gives |
| CalendarViews.RedirectView | backend.py:43-81 | the gates run in place on the session (pop, then a credentials write) and end with the response and session that Callback gives |
| CalendarViews.Session.Pop | backend.py:48 | `session.pop(key, default)` returns the stored value or the default and removes the key |
| CalendarViews.Session.Put | backend.py:64 | `session[key] = v` sets that key and leaves the others |
| ViewProperties.InitiateStoresState | backend.py:27-39 | the flow is asked for calendar scope, offline access and forced consent; `oauth2_state` then holds its state, replacing any earlier one; no other key changes; the answer redirects to its URL |
| ViewProperties.ErrorGateLeavesSession | backend.py:44-46 | a non-empty `error` parameter gives a 400 with that text and the session exactly as it was, `oauth2_state` included |
| ViewProperties.EmptyErrorIsIgnored | backend.py:44-45 | an empty `error` parameter is falsy: the request goes on as if it were absent |
| ViewProperties.StateAlwaysConsumed | backend.py:48 | once past the error gate, `oauth2_state` is absent afterwards whatever the outcome |
| ViewProperties.StateGate | backend.py:48-50 | past the error gate, the answer is 400 "Invalid state parameter" exactly when the popped value differs from the `state` parameter |
| ViewProperties.MismatchStopsBeforeExchange | backend.py:48-50 | on a state mismatch only `oauth2_state` is removed, and neither the exchange nor the calendar outcome affects the answer or the session |
| ViewProperties.MissingStateOnBothSidesPasses | backend.py:48-49 | with no stored state and no `state` parameter (None == None) the anti-forgery gate passes |
| ViewProperties.ExchangeFailureWritesNothing | backend.py:58-61 | a failed exchange gives 400 "Error getting access token: " plus its cause, writes no `oauth2_credentials` and never depends on the calendar |
| ViewProperties.ExchangeStoresCredentials | backend.py:63-81 | a successful exchange stores the serialised credentials before the calendar call; they stay stored even when the call's HttpError gives 400 "An error occurred: ...", and they read back unchanged |
| ViewProperties.CallbackFootprint | backend.py:43-81 | the callback changes no session key except `oauth2_state` and `oauth2_credentials`, and it changes more than the state only after the state gate passed and the exchange succeeded |
| ViewProperties.NoEventsMessage | backend.py:69-72 | a missing, empty or otherwise falsy `items` gives the JSON `{"message": "No events found."}` |
| ViewProperties.EventsResponse | backend.py:69-79 | non-empty well-formed items give `{"events": list}` with one record per item, in order; one malformed item makes the view raise |
| ViewProperties.MixedStartsExample | backend.py:69-79 | one all-day and one timed event: the order is kept, and `start` comes from `date` and from `dateTime` respectively |
| ViewProperties.InitiateThenCallback | backend.py:33-50 | after the initiator, a callback carrying the issued state passes the gate, consumes the state and (on a successful exchange) stores the credentials; replaying it is rejected as invalid state |

## Left out

- The OAuth flow library is not modelled: building the flow from the
  client-secret file, `authorization_url` and `fetch_token`. Their results
  are inputs (`authorize`, `Exchange`).
- Reading the client-secret file, `os.path.join` and `settings.BASE_DIR`
  are configuration I/O, and a missing or bad file is a fatal
  misconfiguration that the model does not cover. In the initiator,
  `Flow.from_client_secrets_file` then raises before the state is stored. In
  the callback, the second construction (backend.py:52-56) runs after the
  error gate and after `oauth2_state` has been popped and compared. It sits
  outside the `try`, so a bad file raises after gates 1 and 2, with the
  state already removed, and before the exchange.
- `googleapiclient.build` and `events().list(...).execute()` are a network
  client. Their result is the `Listing` input. The query arguments
  (`calendarId='primary'`, `maxResults=10`, `singleEvents`, `orderBy`) only
  shape what the service returns, so they are not modelled.
- That client can raise exceptions other than `HttpError`. The view would
  not catch them, with the credentials already stored. The `Listing` input
  does not cover this case.
- Django's request object, `reverse` and `build_absolute_uri` are not
  modelled. The callback's absolute URL is the `redirectUri` input. The
  response classes become the `Response` cases.
- Session persistence by the middleware is not modelled. The model's
  session is the in-memory `request.session` as the view leaves it.
  Django's session middleware does not save the session for a 5xx
  response. So on the `Unhandled` outcomes neither the `oauth2_state` pop
  nor the credentials write is persisted. `StateAlwaysConsumed`,
  `ExchangeStoresCredentials` and the replay half of `InitiateThenCallback`
  hold of the in-memory session only.
- The credential object that `flow.credentials` returns has more
  attributes than the six that `credentials_to_dict` copies (for example
  `expiry` and `id_token`). The source does not serialise them and the
  model's `Credentials` does not carry them.
- The text of an exception (`{e}`, `{error}` in the f-strings) is the
  abstract `reason` string. Only the fixed prefixes are modelled.
- Repeated query parameters are not modelled. The query is the value
  `request.GET.get` returns for each key.
- Python equality is modelled as structural equality of values. It differs
  from Python's, where `True == 1` and floats exist. Only the stored state
  is compared, and the initiator always stores a string there.
- Concurrent callbacks racing on the state pop are not modelled: the code
  has no concurrency control.
