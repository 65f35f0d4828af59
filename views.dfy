/** The two request handlers: the authorization initiator and the OAuth
    callback, each as a function from the session before the request to the
    response and the session after it, and as a method that updates the
    request's session in place. */
module CalendarViews {
  import opened Values
  import opened CredentialStore
  import opened EventProjection

  const STATE_KEY := "oauth2_state"
  const CREDENTIALS_KEY := "oauth2_credentials"
  const CALENDAR_SCOPE := "https://www.googleapis.com/auth/calendar"

  const INVALID_STATE_MESSAGE := "Invalid state parameter"
  const TOKEN_ERROR_PREFIX := "Error getting access token: "
  const API_ERROR_PREFIX := "An error occurred: "
  const NO_EVENTS_MESSAGE := "No events found."

  /** What a view hands back to the framework. `Unhandled` is an exception
      that escapes the view (answered by the framework with a server error). */
  datatype Response =
    | Redirect(url: string)
    | BadRequest(message: string)
    | JsonOk(body: Json)
    | Unhandled

  /** The response together with the session as the view leaves it. */
  datatype Outcome = Outcome(response: Response, session: map<string, Json>)

  // ---------------------------------------------------------------------
  // Authorization initiator

  /** The arguments the initiator gives the OAuth flow library. */
  datatype AuthRequest = AuthRequest(
    scopes: seq<string>, redirectUri: string, accessType: string, prompt: string)

  /** What the library's `authorization_url` returns. */
  datatype AuthGrant = AuthGrant(url: string, state: string)

  /** The flow is built for the calendar scope and the callback's absolute
      URL, and asked for offline access with the consent screen forced. */
  function ConsentRequest(redirectUri: string): AuthRequest {
    AuthRequest([CALENDAR_SCOPE], redirectUri, "offline", "consent")
  }

  /** `GoogleCalendarInitView.get`, with the library call as `authorize`. */
  function Initiate(session: map<string, Json>, redirectUri: string,
                    authorize: AuthRequest -> AuthGrant): Outcome
  {
    var grant := authorize(ConsentRequest(redirectUri));
    Outcome(Redirect(grant.url), session[STATE_KEY := JStr(grant.state)])
  }

  // ---------------------------------------------------------------------
  // Authorization callback

  /** What the code-for-token exchange did. */
  datatype Exchange = Exchanged(credentials: Credentials) | ExchangeFailed(reason: string)

  /** What the calendar query did: the response dict, or an `HttpError`. */
  datatype Listing = Listed(result: map<string, Json>) | ListFailed(reason: string)

  function NoEventsBody(): Json {
    JObj(map["message" := JStr(NO_EVENTS_MESSAGE)])
  }

  function EventsBody(list: seq<Json>): Json {
    JObj(map["events" := JArr(list)])
  }

  /** The data-retrieval gate, after the credentials are stored. A truthy
      `items` that is not a list raises: a dict or a string is iterated and
      the loop body then fails on its keys or characters; a number or a bool
      cannot be iterated at all. */
  function ListingResponse(listing: Listing): (r: Response)
    ensures r.BadRequest? <==> listing.ListFailed?
    ensures r.JsonOk? ==> r.body.JObj? && r.body.fields.Keys <= {"message", "events"}
  {
    match listing
    case ListFailed(reason) => BadRequest(API_ERROR_PREFIX + reason)
    case Listed(result) =>
      var events := GetOr(result, "items", JArr([]));
      if !Truthy(events) then JsonOk(NoEventsBody())
      else if !events.JArr? then Unhandled
      else match ProjectAll(events.elems)
        case None => Unhandled
        case Some(list) => JsonOk(EventsBody(list))
  }

  /** `GoogleCalendarRedirectView.get`: four gates, each of which may end the
      request. The stored state is removed before it is compared, so it is
      gone after every request that passes the first gate. */
  function Callback(session: map<string, Json>, query: map<string, string>,
                    exchange: Exchange, listing: Listing): Outcome
  {
    var error := QueryGet(query, "error");
    if Truthy(error) then Outcome(BadRequest(error.s), session)
    else
      var stored := GetOr(session, STATE_KEY, JNull);
      var popped := session - {STATE_KEY};
      if stored != QueryGet(query, "state") then
        Outcome(BadRequest(INVALID_STATE_MESSAGE), popped)
      else match exchange
        case ExchangeFailed(reason) =>
          Outcome(BadRequest(TOKEN_ERROR_PREFIX + reason), popped)
        case Exchanged(c) =>
          Outcome(ListingResponse(listing), popped[CREDENTIALS_KEY := JObj(CredentialsToDict(c))])
  }

  // ---------------------------------------------------------------------
  // The request's session and the views as methods that update it

  /** The request's session: a dict the views read and update in place. */
  class Session {
    var data: map<string, Json>

    constructor (initial: map<string, Json>)
      ensures data == initial
    {
      data := initial;
    }

    /** `session.pop(key, default)`. */
    method Pop(key: string, default: Json) returns (v: Json)
      modifies this
      ensures v == GetOr(old(data), key, default)
      ensures data == old(data) - {key}
    {
      v := GetOr(data, key, default);
      data := data - {key};
    }

    /** `session[key] = v`. */
    method Put(key: string, v: Json)
      modifies this
      ensures data == old(data)[key := v]
    {
      data := data[key := v];
    }
  }

  method InitView(session: Session, redirectUri: string, authorize: AuthRequest -> AuthGrant)
    returns (r: Response)
    modifies session
    ensures Outcome(r, session.data) == Initiate(old(session.data), redirectUri, authorize)
    ensures session.data == old(session.data)[STATE_KEY := JStr(authorize(ConsentRequest(redirectUri)).state)]
    ensures r == Redirect(authorize(ConsentRequest(redirectUri)).url)
  {
    var grant := authorize(ConsentRequest(redirectUri));
    session.Put(STATE_KEY, JStr(grant.state));
    r := Redirect(grant.url);
  }

  method RedirectView(session: Session, query: map<string, string>,
                      exchange: Exchange, listing: Listing)
    returns (r: Response)
    modifies session
    ensures Outcome(r, session.data) == Callback(old(session.data), query, exchange, listing)
  {
    var error := QueryGet(query, "error");
    if Truthy(error) {
      return BadRequest(error.s);
    }

    var stored := session.Pop(STATE_KEY, JNull);
    if stored != QueryGet(query, "state") {
      return BadRequest(INVALID_STATE_MESSAGE);
    }

    if exchange.ExchangeFailed? {
      return BadRequest(TOKEN_ERROR_PREFIX + exchange.reason);
    }
    session.Put(CREDENTIALS_KEY, JObj(CredentialsToDict(exchange.credentials)));

    if listing.ListFailed? {
      return BadRequest(API_ERROR_PREFIX + listing.reason);
    }
    var events := GetOr(listing.result, "items", JArr([]));
    if !Truthy(events) {
      return JsonOk(NoEventsBody());
    }
    if !events.JArr? {
      return Unhandled;
    }
    var eventList := ProjectEvents(events.elems);
    if eventList.None? {
      return Unhandled;
    }
    r := JsonOk(EventsBody(eventList.value));
  }
}
