/** The OAuth side of the Oura connection (app/oauth/service.py): scope
    parsing, the redirect URI, the one-shot pending states of the
    authorisation flow, the token payload built from a token response, the
    expiry rule with its 30-second skew, and the access-token decision
    (not configured, not connected, expired and refreshed, or as stored). */
module OAuth {
  import opened Common
  import opened Config

  /** A JSON object: a token response, a token payload, a form. */
  type Json = map<string, Value>

  // ---------------------------------------------------------------------------
  // Scopes and redirect URI

  const DefaultScopes: seq<string> := ["email", "personal", "daily"]

  /** `[scope for scope in parts if scope]` */
  function DropEmpty(parts: seq<string>): (r: seq<string>)
    ensures forall i :: 0 <= i < |r| ==> r[i] != ""
    ensures forall i :: 0 <= i < |r| ==> r[i] in parts
    ensures forall i :: 0 <= i < |parts| && parts[i] != "" ==> parts[i] in r
    ensures |r| <= |parts|
    ensures (forall i :: 0 <= i < |parts| ==> parts[i] != "") ==> r == parts
  {
    if parts == [] then []
    else if parts[0] == "" then DropEmpty(parts[1..])
    else [parts[0]] + DropEmpty(parts[1..])
  }

  /** The scopes of the service: the defaults when none are configured,
      otherwise the whitespace-separated tokens of the setting. */
  function ParseScopes(raw: Option<string>): (scopes: seq<string>)
    ensures forall i :: 0 <= i < |scopes| ==> Word(scopes[i])
  {
    if raw.None? then DefaultScopes else DropEmpty(Words(raw.value))
  }

  /** The filter keeps the order of the parts: filtering a concatenation
      concatenates the filtered halves. */
  lemma {:induction false} DropEmptyAppend(a: seq<string>, b: seq<string>)
    ensures DropEmpty(a + b) == DropEmpty(a) + DropEmpty(b)
    decreases |a|
  {
    if a == [] {
      assert a + b == b;
    } else {
      assert (a + b)[1..] == a[1..] + b;
      DropEmptyAppend(a[1..], b);
    }
  }

  /** Unset scopes give the three defaults; a set value gives its tokens in
      order (the filter drops nothing, as split never yields an empty token),
      so a blank value gives no scope at all. */
  lemma ScopesOfSetting(raw: Option<string>)
    ensures raw.None? ==> ParseScopes(raw) == ["email", "personal", "daily"]
    ensures raw.Some? ==> ParseScopes(raw) == Words(raw.value)
    ensures raw.Some? && AllSpace(raw.value) ==> ParseScopes(raw) == []
  {
    if raw.Some? {
      assert forall i :: 0 <= i < |Words(raw.value)| ==> Word(Words(raw.value)[i]);
      if AllSpace(raw.value) {
        WordsOfBlank(raw.value);
      }
    }
  }

  lemma {:induction false} WordsOfBlank(s: string)
    requires AllSpace(s)
    ensures Words(s) == []
    decreases |s|
  {
    if s != [] {
      WordsOfBlank(s[1..]);
    }
  }

  /** The scope parameter of the authorisation URL, parsed as a setting,
      gives back the scopes it was made of. */
  lemma ScopeParameterRoundTrip(scopes: seq<string>)
    requires forall i :: 0 <= i < |scopes| ==> Word(scopes[i])
    ensures ParseScopes(Some(JoinSpace(scopes))) == scopes
  {
    WordsOfJoin(scopes);
  }

  const CallbackPath := "/auth/callback"

  /** `_redirect_uri`: the public base URL without its trailing slashes, then the callback path. */
  function RedirectUri(publicBaseUrl: string): (uri: string)
    ensures |uri| >= |CallbackPath| && uri[|uri| - |CallbackPath|..] == CallbackPath
    ensures uri[..|uri| - |CallbackPath|] == TrimSlashes(publicBaseUrl)
  {
    TrimSlashes(publicBaseUrl) + CallbackPath
  }

  /** Trailing slashes of the base URL make no difference: the URI never has
      a doubled slash before the callback path. */
  lemma RedirectUriIgnoresTrailingSlash(base: string)
    ensures RedirectUri(base + "/") == RedirectUri(base)
    ensures var prefix := TrimSlashes(base); prefix == [] || prefix[|prefix| - 1] != '/'
  {
    assert (base + "/")[..|base + "/"| - 1] == base;
  }

  // ---------------------------------------------------------------------------
  // Authorisation URL

  /** A URL with its query parameters, in order, before encoding. */
  datatype Url = Url(base: string, query: seq<(string, string)>)

  /** `str(None)` rendering of an absent client id in the query: the empty string. */
  function QueryText(v: Option<string>): string
  {
    if v.Some? then v.value else ""
  }

  /** The query of the authorisation URL. */
  function AuthorisationQuery(clientId: Option<string>, redirectUri: string, state: string, scopes: seq<string>): (q: seq<(string, string)>)
    ensures |q| == if scopes == [] then 4 else 5
    ensures q[0] == ("response_type", "code") && q[1] == ("client_id", QueryText(clientId))
    ensures q[2] == ("redirect_uri", redirectUri) && q[3] == ("state", state)
    ensures scopes != [] ==> q[4] == ("scope", JoinSpace(scopes))
  {
    [("response_type", "code"), ("client_id", QueryText(clientId)), ("redirect_uri", redirectUri), ("state", state)]
      + (if scopes == [] then [] else [("scope", JoinSpace(scopes))])
  }

  /** The query names a scope exactly when the service has scopes, and that
      parameter parses back to the service's scopes. */
  lemma AuthorisationScope(clientId: Option<string>, redirectUri: string, state: string, scopes: seq<string>)
    requires forall i :: 0 <= i < |scopes| ==> Word(scopes[i])
    ensures var q := AuthorisationQuery(clientId, redirectUri, state, scopes);
      && ((exists i :: 0 <= i < |q| && q[i].0 == "scope") <==> scopes != [])
      && forall i :: 0 <= i < |q| && q[i].0 == "scope" ==> ParseScopes(Some(q[i].1)) == scopes
  {
    var q := AuthorisationQuery(clientId, redirectUri, state, scopes);
    if scopes != [] {
      assert q[4].0 == "scope";
      ScopeParameterRoundTrip(scopes);
    }
    assert forall i :: 0 <= i < 4 ==> q[i].0 != "scope" by {
      assert q[0].0[0] == 'r' && q[1].0[0] == 'c' && q[2].0[0] == 'r' && q[3].0 == "state";
    }
  }

  // ---------------------------------------------------------------------------
  // Tokens

  const NotConfiguredMessage := "OAuth not configured; use personal access token instead."
  const NotConnectedMessage := "Oura account not connected. " + "Visit /auth/login to " + "authorise access."
  const MissingRefreshMessage := "Stored Oura tokens missing refresh_token, please reconnect."
  const AccessTokenKeyError := Error(KeyError, "'access_token'")
  const ExpirySkew := 30

  /** `int(expires_in)`: an integer as it is, a boolean as 0 or 1, a
      decimal string as its value; other strings raise ValueError and None
      raises TypeError. */
  function ToInt(v: Value): (r: Result<int, Error>)
    ensures v.Int? ==> r == Ok(v.i)
    ensures v.Bool? ==> r == Ok(if v.b then 1 else 0)
    ensures v.Text? ==> (r.Ok? <==> ParseInt(v.s).Some?) && (r.Ok? ==> r.value == ParseInt(v.s).value)
    ensures v.Text? && r.Err? ==> r.error.kind == ValueError
    ensures v.Null? ==> r.Err? && r.error.kind == TypeError
  {
    match v
    case Int(i) => Ok(i)
    case Bool(b) => Ok(if b then 1 else 0)
    case Text(s) =>
      (match ParseInt(s)
       case Some(n) => Ok(n)
       case None => Err(Error(ValueError, "invalid literal for int() with base 10: '" + s + "'")))
    case Null => Err(Error(TypeError, "int() argument must be a string, a bytes-like object or a real number, not 'NoneType'"))
  }

  /** The token payload `_request_token` builds from a token response at
      instant `now`; `format` renders an instant as ISO 8601 in UTC. */
  function TokenPayload(data: Json, now: Instant, format: Instant -> string): (r: Result<Json, Error>)
    ensures r.Ok? <==> "access_token" in data && (Get(data, "expires_in") == Null || ToInt(Get(data, "expires_in")).Ok?)
    ensures r.Ok? ==>
      && r.value.Keys == {"access_token", "refresh_token", "expires_at", "scope", "token_type"}
      && r.value["access_token"] == data["access_token"]
      && r.value["refresh_token"] == Get(data, "refresh_token")
      && r.value["scope"] == Get(data, "scope") && r.value["token_type"] == Get(data, "token_type")
      && (Get(data, "expires_in") == Null ==> r.value["expires_at"] == Null)
      && (Get(data, "expires_in") != Null ==> r.value["expires_at"] == Text(format(now + ToInt(Get(data, "expires_in")).value)))
    ensures Get(data, "expires_in") != Null && ToInt(Get(data, "expires_in")).Err? ==>
      r == Err(ToInt(Get(data, "expires_in")).error)
    ensures r.Err? && (Get(data, "expires_in") == Null || ToInt(Get(data, "expires_in")).Ok?) ==>
      r.error == AccessTokenKeyError
  {
    var expiresIn := Get(data, "expires_in");
    var expiresAt: Result<Value, Error> :=
      if expiresIn == Null then Ok(Null)
      else match ToInt(expiresIn)
        case Ok(seconds) => Ok(Text(format(now + seconds)))
        case Err(e) => Err(e);
    if expiresAt.Err? then Err(expiresAt.error)
    else if "access_token" !in data then Err(AccessTokenKeyError)
    else Ok(map["access_token" := data["access_token"],
                "refresh_token" := Get(data, "refresh_token"),
                "expires_at" := expiresAt.value,
                "scope" := Get(data, "scope"),
                "token_type" := Get(data, "token_type")])
  }

  /** A parsed `datetime.fromisoformat` value: the wall-clock seconds and the
      UTC offset in seconds, if any. */
  datatype ParsedTime = ParsedTime(wallSeconds: int, utcOffset: Option<int>)

  /** The instant a parsed time denotes; a naive time is read as UTC. */
  function InstantOf(t: ParsedTime): Instant
  {
    t.wallSeconds - (if t.utcOffset.Some? then t.utcOffset.value else 0)
  }

  /** `_is_expired`; `parse` is `datetime.fromisoformat`, None for a string it rejects. */
  function TokensExpired(tokens: Json, now: Instant, parse: string -> Option<ParsedTime>): (r: Result<bool, Error>)
    ensures !Truthy(Get(tokens, "expires_at")) ==> r == Ok(false)
    ensures Truthy(Get(tokens, "expires_at")) && !Get(tokens, "expires_at").Text? ==> r.Err? && r.error.kind == TypeError
    ensures Get(tokens, "expires_at").Text? && Truthy(Get(tokens, "expires_at")) ==>
      match parse(Get(tokens, "expires_at").s)
      case None => r == Ok(true)
      case Some(t) => r == Ok(now >= InstantOf(t) - ExpirySkew)
  {
    var expiresAt := Get(tokens, "expires_at");
    if !Truthy(expiresAt) then Ok(false)
    else if !expiresAt.Text? then Err(Error(TypeError, "fromisoformat: argument must be str"))
    else match parse(expiresAt.s)
      case None => Ok(true)
      case Some(t) => Ok(now >= InstantOf(t) - ExpirySkew)
  }

  /** The lifetime of a fresh payload: issued at `issued` with `expires_in`
      seconds, it counts as expired from 30 seconds before the end of that
      lifetime on; without `expires_in` it never expires. The premise is that
      `parse` reads back what `format` writes. */
  lemma TokenLifetime(data: Json, issued: Instant, later: Instant, format: Instant -> string, parse: string -> Option<ParsedTime>)
    requires TokenPayload(data, issued, format).Ok?
    requires Get(data, "expires_in") != Null ==>
      parse(format(issued + ToInt(Get(data, "expires_in")).value)) == Some(ParsedTime(issued + ToInt(Get(data, "expires_in")).value, Some(0)))
    ensures Get(data, "expires_in") == Null ==> TokensExpired(TokenPayload(data, issued, format).value, later, parse) == Ok(false)
    ensures Get(data, "expires_in") != Null && format(issued + ToInt(Get(data, "expires_in")).value) != "" ==>
      TokensExpired(TokenPayload(data, issued, format).value, later, parse)
        == Ok(later >= issued + ToInt(Get(data, "expires_in")).value - ExpirySkew)
  {
  }

  /** A token endpoint may send `expires_in` as a number or as its decimal
      text: both give the same number of seconds. */
  lemma ExpiresInAsText(seconds: int)
    ensures ToInt(Text(IntToString(seconds))) == ToInt(Int(seconds)) == Ok(seconds)
  {
    ParseIntOfIntToString(seconds);
  }

  /** Whether a stored token file counts as a connection (`bool(tokens)`). */
  predicate Connected(store: Option<Json>)
  {
    store.Some? && store.value != map[]
  }

  /** `tokens["access_token"]` */
  function AccessTokenOf(tokens: Json): (r: Result<Value, Error>)
    ensures r.Ok? <==> "access_token" in tokens
    ensures r.Ok? ==> r.value == tokens["access_token"]
    ensures r.Err? ==> r.error == AccessTokenKeyError
  {
    if "access_token" in tokens then Ok(tokens["access_token"]) else Err(AccessTokenKeyError)
  }

  /** A client credential as a form value. */
  function FormValue(v: Option<string>): Value
  {
    if v.Some? then Text(v.value) else Null
  }

  function ExchangeForm(code: string, redirectUri: string, clientId: Option<string>, clientSecret: Option<string>): Json
  {
    map["grant_type" := Text("authorization_code"), "code" := Text(code), "redirect_uri" := Text(redirectUri),
        "client_id" := FormValue(clientId), "client_secret" := FormValue(clientSecret)]
  }

  function RefreshForm(refreshToken: Value, clientId: Option<string>, clientSecret: Option<string>): Json
  {
    map["grant_type" := Text("refresh_token"), "refresh_token" := refreshToken,
        "client_id" := FormValue(clientId), "client_secret" := FormValue(clientSecret)]
  }

  /** What a token request returns: the endpoint's error, or the payload built from its body. */
  function TokenOutcome(endpoint: Json -> Result<Json, Error>, form: Json, now: Instant, format: Instant -> string): Result<Json, Error>
  {
    match endpoint(form)
    case Err(e) => Err(e)
    case Ok(data) => TokenPayload(data, now, format)
  }

  /** A successful token request always yields tokens holding an access token. */
  lemma TokenOutcomeHasAccessToken(endpoint: Json -> Result<Json, Error>, form: Json, now: Instant, format: Instant -> string)
    ensures var r := TokenOutcome(endpoint, form, now, format);
      r.Ok? ==> endpoint(form).Ok? && AccessTokenOf(r.value) == Ok(endpoint(form).value["access_token"])
  {
  }

  /** The OAuth service. `tokenEndpoint` is the POST to the token URL
      (status errors included), `store` the content of the token file (None
      when there is none) and `posts` the forms sent, for the specification only. */
  class OAuthService {
    const settings: Settings
    const scopes: seq<string>
    const tokenEndpoint: Json -> Result<Json, Error>
    var pendingStates: set<string>
    var store: Option<Json>
    ghost var posts: seq<Json>

    constructor(settings: Settings, tokenEndpoint: Json -> Result<Json, Error>, store: Option<Json>)
      ensures this.settings == settings && this.tokenEndpoint == tokenEndpoint && this.store == store
      ensures scopes == ParseScopes(settings.scopes)
      ensures pendingStates == {} && posts == []
    {
      this.settings := settings;
      this.tokenEndpoint := tokenEndpoint;
      this.store := store;
      scopes := ParseScopes(settings.scopes);
      pendingStates := {};
      posts := [];
    }

    /** `build_authorisation_url`, the fresh random state given as `state`. */
    method BuildAuthorisationUrl(state: string) returns (url: Url, returnedState: string)
      modifies this`pendingStates
      ensures pendingStates == old(pendingStates) + {state}
      ensures returnedState == state
      ensures url == Url(settings.authorizeUrl, AuthorisationQuery(settings.clientId, RedirectUri(settings.publicBaseUrl), state, scopes))
    {
      pendingStates := pendingStates + {state};
      url := Url(settings.authorizeUrl, AuthorisationQuery(settings.clientId, RedirectUri(settings.publicBaseUrl), state, scopes));
      returnedState := state;
    }

    /** `is_state_valid`: a non-empty pending state is accepted once and then forgotten. */
    method IsStateValid(state: Option<string>) returns (valid: bool)
      modifies this`pendingStates
      ensures valid <==> Given(state) && state.value in old(pendingStates)
      ensures valid ==> pendingStates == old(pendingStates) - {state.value}
      ensures !valid ==> pendingStates == old(pendingStates)
    {
      if Given(state) && state.value in pendingStates {
        pendingStates := pendingStates - {state.value};
        return true;
      }
      return false;
    }

    /** `has_tokens` */
    function HasTokens(): bool
      reads this
    {
      Connected(store)
    }

    /** `_request_token` */
    method RequestToken(form: Json, now: Instant, format: Instant -> string) returns (r: Result<Json, Error>)
      modifies this`posts
      ensures r == TokenOutcome(tokenEndpoint, form, now, format)
      ensures posts == old(posts) + [form]
    {
      posts := posts + [form];
      var response := tokenEndpoint(form);
      if response.Err? {
        return Err(response.error);
      }
      r := TokenPayload(response.value, now, format);
    }

    /** `_refresh`: a stored refresh token is required before anything is sent. */
    method Refresh(tokens: Json, now: Instant, format: Instant -> string) returns (r: Result<Json, Error>)
      modifies this`posts
      ensures !Truthy(Get(tokens, "refresh_token")) ==> r == Err(Error(RuntimeError, MissingRefreshMessage)) && posts == old(posts)
      ensures Truthy(Get(tokens, "refresh_token")) ==>
        var form := RefreshForm(Get(tokens, "refresh_token"), settings.clientId, settings.clientSecret);
        r == TokenOutcome(tokenEndpoint, form, now, format) && posts == old(posts) + [form]
    {
      var refreshToken := Get(tokens, "refresh_token");
      if !Truthy(refreshToken) {
        return Err(Error(RuntimeError, MissingRefreshMessage));
      }
      r := RequestToken(RefreshForm(refreshToken, settings.clientId, settings.clientSecret), now, format);
    }

    /** `exchange_code`: the tokens obtained for the code are stored and returned. */
    method ExchangeCode(code: string, now: Instant, format: Instant -> string) returns (r: Result<Json, Error>)
      modifies this`posts, this`store
      ensures var form := ExchangeForm(code, RedirectUri(settings.publicBaseUrl), settings.clientId, settings.clientSecret);
        && r == TokenOutcome(tokenEndpoint, form, now, format)
        && posts == old(posts) + [form]
        && (r.Ok? ==> store == Some(r.value))
        && (r.Err? ==> store == old(store))
    {
      var form := ExchangeForm(code, RedirectUri(settings.publicBaseUrl), settings.clientId, settings.clientSecret);
      r := RequestToken(form, now, format);
      if r.Ok? {
        store := Some(r.value);
      }
    }

    /** `get_access_token` */
    method GetAccessToken(now: Instant, parse: string -> Option<ParsedTime>, format: Instant -> string)
      returns (r: Result<Value, Error>)
      modifies this`posts, this`store
      // without OAuth, or without stored tokens, nothing is sent and nothing is saved
      ensures !UseOAuth(settings) ==>
        r == Err(Error(RuntimeError, NotConfiguredMessage)) && store == old(store) && posts == old(posts)
      ensures UseOAuth(settings) && !Connected(old(store)) ==>
        r == Err(Error(RuntimeError, NotConnectedMessage)) && store == old(store) && posts == old(posts)
      // tokens that are not expired are used as stored
      ensures UseOAuth(settings) && Connected(old(store)) && TokensExpired(old(store).value, now, parse) != Ok(true) ==>
        && store == old(store) && posts == old(posts)
        && r == (match TokensExpired(old(store).value, now, parse)
                 case Err(e) => Err(e)
                 case Ok(_) => AccessTokenOf(old(store).value))
      // expired tokens are refreshed; the refreshed tokens are saved and their access token returned
      ensures UseOAuth(settings) && Connected(old(store)) && TokensExpired(old(store).value, now, parse) == Ok(true) ==>
        var refreshToken := Get(old(store).value, "refresh_token");
        var form := RefreshForm(refreshToken, settings.clientId, settings.clientSecret);
        var refreshed := TokenOutcome(tokenEndpoint, form, now, format);
        && (!Truthy(refreshToken) ==>
              r == Err(Error(RuntimeError, MissingRefreshMessage)) && store == old(store) && posts == old(posts))
        && (Truthy(refreshToken) ==> posts == old(posts) + [form])
        && (Truthy(refreshToken) && refreshed.Err? ==> r == Err(refreshed.error) && store == old(store))
        && (Truthy(refreshToken) && refreshed.Ok? ==> store == Some(refreshed.value) && r == AccessTokenOf(refreshed.value))
    {
      if !UseOAuth(settings) {
        return Err(Error(RuntimeError, NotConfiguredMessage));
      }
      var tokens := store;
      if !Connected(tokens) {
        return Err(Error(RuntimeError, NotConnectedMessage));
      }
      var current := tokens.value;
      var expired := TokensExpired(current, now, parse);
      if expired.Err? {
        return Err(expired.error);
      }
      if expired.value {
        var refreshed := Refresh(current, now, format);
        if refreshed.Err? {
          return Err(refreshed.error);
        }
        current := refreshed.value;
        store := Some(current);
      }
      r := AccessTokenOf(current);
    }

    /** `disconnect`: the stored tokens are dropped. */
    method Disconnect()
      modifies this`store
      ensures store == None
      ensures !HasTokens()
    {
      store := None;
    }
  }

  /** A state is good for one callback only: the first check accepts a state
      handed out by the service, and a second check of it fails. */
  method StateIsOneShot(service: OAuthService, state: string) returns (first: bool, second: bool)
    requires state != ""
    modifies service
    ensures first && !second
  {
    var _, _ := service.BuildAuthorisationUrl(state);
    first := service.IsStateValid(Some(state));
    second := service.IsStateValid(Some(state));
  }
}
