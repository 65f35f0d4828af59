/** What the two views guarantee about the session and the response, stated
    over the functions Initiate and Callback that the view methods are
    proved to implement. */
module ViewProperties {
  import opened Values
  import opened CredentialStore
  import opened EventProjection
  import opened CalendarViews

  /** `a` and `b` agree on every key outside `keys`. */
  ghost predicate SameExcept(a: map<string, Json>, b: map<string, Json>, keys: set<string>) {
    forall k :: k !in keys ==> (k in a <==> k in b) && (k in a ==> k in b && a[k] == b[k])
  }

  // ---------------------------------------------------------------------
  // Initiator

  /** The initiator asks for offline access with forced consent, stores the
      state the flow returned (replacing any earlier one), changes no other
      key and redirects to the flow's URL. */
  lemma InitiateStoresState(session: map<string, Json>, redirectUri: string,
                            authorize: AuthRequest -> AuthGrant)
    ensures var request := ConsentRequest(redirectUri);
            var out := Initiate(session, redirectUri, authorize);
            && request.accessType == "offline" && request.prompt == "consent"
            && request.scopes == [CALENDAR_SCOPE]
            && out.response == Redirect(authorize(request).url)
            && STATE_KEY in out.session
            && out.session[STATE_KEY] == JStr(authorize(request).state)
            && SameExcept(session, out.session, {STATE_KEY})
  {
  }

  // ---------------------------------------------------------------------
  // Callback, gate by gate

  /** Upstream-error gate: a non-empty `error` parameter is echoed in a 400
      and the session is left exactly as it was; the stored state is not
      consumed. */
  lemma ErrorGateLeavesSession(session: map<string, Json>, query: map<string, string>,
                               exchange: Exchange, listing: Listing)
    requires "error" in query && query["error"] != ""
    ensures Callback(session, query, exchange, listing) == Outcome(BadRequest(query["error"]), session)
  {
  }

  /** An empty `error` parameter is falsy and does not stop the request. */
  lemma EmptyErrorIsIgnored(session: map<string, Json>, query: map<string, string>,
                            exchange: Exchange, listing: Listing)
    requires "error" in query && query["error"] == ""
    ensures Callback(session, query, exchange, listing)
         == Callback(session, query - {"error"}, exchange, listing)
  {
    assert QueryGet(query, "state") == QueryGet(query - {"error"}, "state");
  }

  /** Past the error gate, the stored state is gone afterwards whatever the
      outcome, so it can never be used twice. */
  lemma StateAlwaysConsumed(session: map<string, Json>, query: map<string, string>,
                            exchange: Exchange, listing: Listing)
    requires !Truthy(QueryGet(query, "error"))
    ensures STATE_KEY !in Callback(session, query, exchange, listing).session
  {
  }

  /** Past the error gate, the answer is "Invalid state parameter" exactly
      when the popped state (`None` if there was none) differs from the
      `state` parameter (`None` if absent). */
  lemma StateGate(session: map<string, Json>, query: map<string, string>,
                  exchange: Exchange, listing: Listing)
    requires !Truthy(QueryGet(query, "error"))
    ensures Callback(session, query, exchange, listing).response == BadRequest(INVALID_STATE_MESSAGE)
        <==> GetOr(session, STATE_KEY, JNull) != QueryGet(query, "state")
  {
    var out := Callback(session, query, exchange, listing);
    if GetOr(session, STATE_KEY, JNull) == QueryGet(query, "state") {
      match exchange
      case ExchangeFailed(reason) =>
        assert (TOKEN_ERROR_PREFIX + reason)[0] == 'E' != INVALID_STATE_MESSAGE[0];
      case Exchanged(c) =>
        if listing.ListFailed? {
          assert (API_ERROR_PREFIX + listing.reason)[0] == 'A' != INVALID_STATE_MESSAGE[0];
        }
    }
  }

  /** A mismatched state stops the request before the exchange: the
      response and the session do not depend on what the exchange or the
      calendar would have done, and nothing but the state is removed. */
  lemma MismatchStopsBeforeExchange(session: map<string, Json>, query: map<string, string>,
                                    exchange: Exchange, listing: Listing,
                                    exchange': Exchange, listing': Listing)
    requires !Truthy(QueryGet(query, "error"))
    requires GetOr(session, STATE_KEY, JNull) != QueryGet(query, "state")
    ensures Callback(session, query, exchange, listing)
         == Outcome(BadRequest(INVALID_STATE_MESSAGE), session - {STATE_KEY})
    ensures Callback(session, query, exchange, listing)
         == Callback(session, query, exchange', listing')
  {
  }

  /** The code compares `None == None` as equal: with no stored state and no
      `state` parameter the anti-forgery gate lets the request through. */
  lemma MissingStateOnBothSidesPasses(session: map<string, Json>, query: map<string, string>,
                                      exchange: Exchange, listing: Listing)
    requires !Truthy(QueryGet(query, "error"))
    requires STATE_KEY !in session && "state" !in query
    ensures Callback(session, query, exchange, listing).response != BadRequest(INVALID_STATE_MESSAGE)
  {
    StateGate(session, query, exchange, listing);
  }

  /** A failed exchange answers with the fixed prefix and its cause, writes
      no credentials (an earlier entry stays as it was) and never reaches the
      calendar. */
  lemma ExchangeFailureWritesNothing(session: map<string, Json>, query: map<string, string>,
                                     reason: string, listing: Listing, listing': Listing)
    requires !Truthy(QueryGet(query, "error"))
    requires GetOr(session, STATE_KEY, JNull) == QueryGet(query, "state")
    ensures Callback(session, query, ExchangeFailed(reason), listing)
         == Outcome(BadRequest(TOKEN_ERROR_PREFIX + reason), session - {STATE_KEY})
    ensures Callback(session, query, ExchangeFailed(reason), listing)
         == Callback(session, query, ExchangeFailed(reason), listing')
    ensures SameExcept(session, Callback(session, query, ExchangeFailed(reason), listing).session, {STATE_KEY})
  {
  }

  /** A successful exchange stores the serialised credentials before the
      calendar call, so they stay stored whatever the call does (the
      `HttpError` answer included), and they read back unchanged. */
  lemma ExchangeStoresCredentials(session: map<string, Json>, query: map<string, string>,
                                  c: Credentials, listing: Listing)
    requires !Truthy(QueryGet(query, "error"))
    requires GetOr(session, STATE_KEY, JNull) == QueryGet(query, "state")
    ensures var out := Callback(session, query, Exchanged(c), listing);
            && out.session == (session - {STATE_KEY})[CREDENTIALS_KEY := JObj(CredentialsToDict(c))]
            && out.session[CREDENTIALS_KEY].JObj?
            && DictToCredentials(out.session[CREDENTIALS_KEY].fields) == Some(c)
            && out.response == ListingResponse(listing)
            && (listing.ListFailed? ==> out.response == BadRequest(API_ERROR_PREFIX + listing.reason))
  {
    CredentialsRoundTrip(c);
  }

  /** The callback touches two session keys and no others, and it changes the
      credential entry only after the state gate passed and the exchange
      succeeded. */
  lemma CallbackFootprint(session: map<string, Json>, query: map<string, string>,
                          exchange: Exchange, listing: Listing)
    ensures var out := Callback(session, query, exchange, listing);
            SameExcept(session, out.session, {STATE_KEY, CREDENTIALS_KEY})
    ensures var out := Callback(session, query, exchange, listing);
            !SameExcept(session, out.session, {STATE_KEY}) ==>
              && !Truthy(QueryGet(query, "error"))
              && GetOr(session, STATE_KEY, JNull) == QueryGet(query, "state")
              && exchange.Exchanged?
  {
  }

  // ---------------------------------------------------------------------
  // Data-retrieval gate

  /** An `items` list that is missing or empty (or otherwise falsy) gives the
      "No events found." message. */
  lemma NoEventsMessage(result: map<string, Json>)
    requires "items" !in result || !Truthy(result["items"])
    ensures ListingResponse(Listed(result)) == JsonOk(JObj(map["message" := JStr("No events found.")]))
  {
  }

  /** A non-empty item list of well-formed events gives one `{summary, start}`
      record per event, in the same order; one malformed event makes the
      loop raise. */
  lemma EventsResponse(result: map<string, Json>, items: seq<Json>)
    requires "items" in result && result["items"] == JArr(items) && items != []
    ensures (forall i :: 0 <= i < |items| ==> WellFormed(items[i])) ==>
      exists list: seq<Json> ::
        && ListingResponse(Listed(result)) == JsonOk(JObj(map["events" := JArr(list)]))
        && |list| == |items|
        && forall i :: 0 <= i < |items| ==> list[i] == ProjectEvent(items[i]).value
    ensures (exists i :: 0 <= i < |items| && !WellFormed(items[i])) ==>
      ListingResponse(Listed(result)) == Unhandled
  {
    ProjectAllSpec(items);
    if forall i :: 0 <= i < |items| ==> WellFormed(items[i]) {
      var list := ProjectAll(items).value;
      assert ListingResponse(Listed(result)) == JsonOk(JObj(map["events" := JArr(list)]));
    }
  }

  /** Two upstream events, one all-day and one timed: the order is kept and
      each `start` comes from the right field. */
  lemma MixedStartsExample()
    ensures
      var allDay := JObj(map["summary" := JStr("Holiday"),
                             "start" := JObj(map["date" := JStr("2024-01-01")])]);
      var timed := JObj(map["summary" := JStr("Meeting"),
                            "start" := JObj(map["dateTime" := JStr("2024-01-02T10:00:00Z")])]);
      ListingResponse(Listed(map["items" := JArr([allDay, timed])]))
        == JsonOk(JObj(map["events" := JArr([
             JObj(map["summary" := JStr("Holiday"), "start" := JStr("2024-01-01")]),
             JObj(map["summary" := JStr("Meeting"), "start" := JStr("2024-01-02T10:00:00Z")])])]))
  {
    var allDay := JObj(map["summary" := JStr("Holiday"),
                           "start" := JObj(map["date" := JStr("2024-01-01")])]);
    var timed := JObj(map["summary" := JStr("Meeting"),
                          "start" := JObj(map["dateTime" := JStr("2024-01-02T10:00:00Z")])]);
    var projectedAllDay := JObj(map["summary" := JStr("Holiday"), "start" := JStr("2024-01-01")]);
    var projectedTimed := JObj(map["summary" := JStr("Meeting"), "start" := JStr("2024-01-02T10:00:00Z")]);
    assert ProjectEvent(allDay) == Some(projectedAllDay);
    assert ProjectEvent(timed) == Some(projectedTimed);
    ProjectAllSpec([allDay, timed]);
    assert WellFormed([allDay, timed][0]) && WellFormed([allDay, timed][1]);
    assert ProjectAll([allDay, timed]).value == [projectedAllDay, projectedTimed];
    assert ProjectAll([allDay, timed]) == Some([projectedAllDay, projectedTimed]);
  }

  // ---------------------------------------------------------------------
  // The two views together

  /** Initiate, then come back with the state the flow issued: the state gate
      passes, the state is consumed, a successful exchange leaves the
      credentials stored, and replaying the same callback is rejected. */
  lemma InitiateThenCallback(session: map<string, Json>, redirectUri: string,
                             authorize: AuthRequest -> AuthGrant, query: map<string, string>,
                             exchange: Exchange, listing: Listing,
                             exchange': Exchange, listing': Listing)
    requires !Truthy(QueryGet(query, "error"))
    requires "state" in query && query["state"] == authorize(ConsentRequest(redirectUri)).state
    ensures var first := Callback(Initiate(session, redirectUri, authorize).session, query, exchange, listing);
            && first.response != BadRequest(INVALID_STATE_MESSAGE)
            && STATE_KEY !in first.session
            && (exchange.Exchanged? ==>
                  CREDENTIALS_KEY in first.session &&
                  first.session[CREDENTIALS_KEY] == JObj(CredentialsToDict(exchange.credentials)))
            && Callback(first.session, query, exchange', listing')
                 == Outcome(BadRequest(INVALID_STATE_MESSAGE), first.session)
  {
    var started := Initiate(session, redirectUri, authorize).session;
    StateGate(started, query, exchange, listing);
    var first := Callback(started, query, exchange, listing);
    assert first.session - {STATE_KEY} == first.session;
  }
}
