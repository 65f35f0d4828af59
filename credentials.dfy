/** The OAuth2 credential set and its serialisation into the session
    (`credentials_to_dict`). */
module CredentialStore {
  import opened Values

  /** The six attributes of the credential object that are serialised. The
      library lets each of them be `None`. */
  datatype Credentials = Credentials(
    token: Option<string>,
    refreshToken: Option<string>,
    tokenUri: Option<string>,
    clientId: Option<string>,
    clientSecret: Option<string>,
    scopes: Option<seq<string>>)

  const CREDENTIAL_KEYS: set<string> :=
    {"token", "refresh_token", "token_uri", "client_id", "client_secret", "scopes"}

  /** A string attribute that may be `None`, as a Python value. */
  function TextValue(o: Option<string>): Json {
    match o
    case None => JNull
    case Some(s) => JStr(s)
  }

  /** A list of strings, as a Python list of strings. */
  function TextList(xs: seq<string>): (r: seq<Json>)
    ensures |r| == |xs|
  {
    if xs == [] then [] else [JStr(xs[0])] + TextList(xs[1..])
  }

  function ScopesValue(o: Option<seq<string>>): Json {
    match o
    case None => JNull
    case Some(xs) => JArr(TextList(xs))
  }

  /** `credentials_to_dict`: a dict with exactly the six keys, each holding
      the corresponding attribute unchanged. */
  function CredentialsToDict(c: Credentials): (d: map<string, Json>)
    ensures d.Keys == CREDENTIAL_KEYS
    ensures d["token"] == TextValue(c.token)
    ensures d["refresh_token"] == TextValue(c.refreshToken)
    ensures d["token_uri"] == TextValue(c.tokenUri)
    ensures d["client_id"] == TextValue(c.clientId)
    ensures d["client_secret"] == TextValue(c.clientSecret)
    ensures d["scopes"] == ScopesValue(c.scopes)
  {
    map[
      "token" := TextValue(c.token),
      "refresh_token" := TextValue(c.refreshToken),
      "token_uri" := TextValue(c.tokenUri),
      "client_id" := TextValue(c.clientId),
      "client_secret" := TextValue(c.clientSecret),
      "scopes" := ScopesValue(c.scopes)
    ]
  }

  // Reading a stored credential dict back: the partner of CredentialsToDict.

  function ReadText(v: Json): Option<Option<string>> {
    match v
    case JNull => Some(None)
    case JStr(s) => Some(Some(s))
    case _ => None
  }

  function ReadTextList(vs: seq<Json>): (r: Option<seq<string>>)
    ensures r.Some? ==> |r.value| == |vs|
  {
    if vs == [] then Some([])
    else if !vs[0].JStr? then None
    else match ReadTextList(vs[1..])
      case None => None
      case Some(rest) => Some([vs[0].s] + rest)
  }

  function ReadScopes(v: Json): Option<Option<seq<string>>> {
    match v
    case JNull => Some(None)
    case JArr(vs) =>
      (match ReadTextList(vs)
       case None => None
       case Some(xs) => Some(Some(xs)))
    case _ => None
  }

  /** Rebuilds a credential set from a dict shaped like the ones
      CredentialsToDict writes; `None` for any other dict. */
  function DictToCredentials(d: map<string, Json>): Option<Credentials> {
    if !(CREDENTIAL_KEYS <= d.Keys) then None
    else
      var token := ReadText(d["token"]);
      var refreshToken := ReadText(d["refresh_token"]);
      var tokenUri := ReadText(d["token_uri"]);
      var clientId := ReadText(d["client_id"]);
      var clientSecret := ReadText(d["client_secret"]);
      var scopes := ReadScopes(d["scopes"]);
      if token.Some? && refreshToken.Some? && tokenUri.Some? && clientId.Some?
         && clientSecret.Some? && scopes.Some?
      then Some(Credentials(token.value, refreshToken.value, tokenUri.value,
                            clientId.value, clientSecret.value, scopes.value))
      else None
  }

  lemma {:induction false} TextListRoundTrip(xs: seq<string>)
    ensures ReadTextList(TextList(xs)) == Some(xs)
  {
    if xs != [] {
      TextListRoundTrip(xs[1..]);
      assert TextList(xs)[1..] == TextList(xs[1..]);
      assert [xs[0]] + xs[1..] == xs;
    }
  }

  /** The session keeps the credential set verbatim: reading back what
      CredentialsToDict wrote gives the same credentials. */
  lemma CredentialsRoundTrip(c: Credentials)
    ensures DictToCredentials(CredentialsToDict(c)) == Some(c)
  {
    if c.scopes.Some? {
      TextListRoundTrip(c.scopes.value);
    }
  }

  /** Hence no information is lost: distinct credentials serialise to
      distinct dicts. */
  lemma CredentialsToDictInjective(a: Credentials, b: Credentials)
    requires CredentialsToDict(a) == CredentialsToDict(b)
    ensures a == b
  {
    CredentialsRoundTrip(a);
    CredentialsRoundTrip(b);
  }
}
