/** The two decisions of the web layer (app/web/main.py): the guard on the
    post-login redirect target, which refuses targets that `urlparse` gives a
    scheme or a network location, and the shaping of the
    dashboard payload (defaults after a build, the error payload, the OAuth
    prompt). The session check `_is_authenticated` sits beside them. */
module Web {
  import opened Common
  import opened Oura
  import opened DailyMessage
  import opened OAuth

  // ---------------------------------------------------------------------------
  // Session

  const SessionUserKey := "app_user"

  /** `_is_authenticated`: the session names a (non-empty) user. */
  function IsAuthenticated(session: map<string, Value>): (r: bool)
    ensures r <==> SessionUserKey in session && Truthy(session[SessionUserKey])
  {
    Truthy(Get(session, SessionUserKey))
  }

  // ---------------------------------------------------------------------------
  // Redirect guard

  /** The components of `urlparse(value)` the guard reads. */
  datatype ParsedUrl = ParsedUrl(scheme: string, netloc: string, path: string, query: string)

  /** `_sanitize_redirect_target`; `parse` is `urlparse`. */
  function SanitizeRedirectTarget(value: Option<string>, parse: string -> ParsedUrl): (target: string)
    ensures target != ""
    ensures !Given(value) ==> target == "/"
    ensures Given(value) && (parse(value.value).scheme != "" || parse(value.value).netloc != "") ==> target == "/"
  {
    if !Given(value) then "/"
    else
      var parsed := parse(value.value);
      if parsed.scheme != "" || parsed.netloc != "" then "/"
      else
        var path := if parsed.path == "" then "/" else parsed.path;
        if parsed.query != "" then path + "?" + parsed.query else path
  }

  /** What a local target keeps: when `urlparse` gives no scheme and no
      network location, the target is its path (or "/" for an empty path),
      then "?" and its query exactly when the query is non-empty. */
  lemma SanitizedTargetShape(value: Option<string>, parse: string -> ParsedUrl)
    ensures var target := SanitizeRedirectTarget(value, parse);
      Given(value) && parse(value.value).scheme == "" && parse(value.value).netloc == "" ==>
        var path := if parse(value.value).path == "" then "/" else parse(value.value).path;
        && StartsWith(target, path)
        && (parse(value.value).query != "" <==> target != path)
        && (parse(value.value).query != "" ==> target[|path|..] == "?" + parse(value.value).query)
  {
    var target := SanitizeRedirectTarget(value, parse);
    if Given(value) && parse(value.value).scheme == "" && parse(value.value).netloc == "" {
      var parsed := parse(value.value);
      var path := if parsed.path == "" then "/" else parsed.path;
      if parsed.query != "" {
        assert target == path + ("?" + parsed.query);
        assert target[..|path|] == path;
      }
    }
  }

  /** A target a browser reads as protocol-relative (`//host/...`), and so as
      another site: it starts with two slashes, a backslash counting as a slash. */
  predicate ProtocolRelative(target: string)
  {
    |target| >= 2 && (target[0] == '/' || target[0] == '\\') && (target[1] == '/' || target[1] == '\\')
  }

  /** The guard as written lets a protocol-relative target through:
      `urlparse("////evil.com")` has no scheme and an empty network location
      (the location after the leading "//" ends at the next "/"), and its
      path "//evil.com" is returned as it is. */
  lemma SanitizeAdmitsProtocolRelative(parse: string -> ParsedUrl)
    requires parse("////evil.com") == ParsedUrl("", "", "//evil.com", "")
    ensures SanitizeRedirectTarget(Some("////evil.com"), parse) == "//evil.com"
    ensures ProtocolRelative(SanitizeRedirectTarget(Some("////evil.com"), parse))
  {
  }

  /** The guard as intended: it also sends a protocol-relative target to the
      site root, and keeps every other target the guard as written returns. */
  function SafeRedirectTarget(value: Option<string>, parse: string -> ParsedUrl): (target: string)
    ensures target != "" && !ProtocolRelative(target)
    ensures ProtocolRelative(SanitizeRedirectTarget(value, parse)) ==> target == "/"
    ensures !ProtocolRelative(SanitizeRedirectTarget(value, parse)) ==> target == SanitizeRedirectTarget(value, parse)
    ensures Given(value) && (parse(value.value).scheme != "" || parse(value.value).netloc != "") ==> target == "/"
  {
    var t := SanitizeRedirectTarget(value, parse);
    if ProtocolRelative(t) then "/" else t
  }

  /** The corrected guard refuses the target the guard as written admits. */
  lemma SafeRedirectRefusesProtocolRelative(parse: string -> ParsedUrl)
    requires parse("////evil.com") == ParsedUrl("", "", "//evil.com", "")
    ensures SafeRedirectTarget(Some("////evil.com"), parse) == "/"
  {
    SanitizeAdmitsProtocolRelative(parse);
  }

  /** A target whose parse reads back as it was written passes unchanged
      when it is local, and twice sanitised is once sanitised. */
  lemma SanitizeIsIdempotent(value: string, parse: string -> ParsedUrl)
    requires value != ""
    requires var t := SanitizeRedirectTarget(Some(value), parse);
      t != "/" ==> parse(t) == ParsedUrl("", "", parse(value).path, parse(value).query)
    requires parse("/") == ParsedUrl("", "", "/", "")
    ensures var t := SanitizeRedirectTarget(Some(value), parse);
      SanitizeRedirectTarget(Some(t), parse) == t
  {
  }

  // ---------------------------------------------------------------------------
  // Dashboard payload

  /** The `oauth` member of the payload. */
  datatype OAuthMeta = OAuthMeta(enabled: bool, connected: bool, loginUrl: string, disconnectUrl: string)

  /** A value of the payload dict. */
  datatype Field =
    | NullField
    | Flag(b: bool)
    | Str(s: string)
    | Day(d: Date)
    | SummaryField(summary: Summary)
    | MetricsField(metrics: DailyMetrics)
    | EmptyObject
    | OAuthField(meta: OAuthMeta)

  type Dict = map<string, Field>

  /** `oauth_meta`; `oauthConnected` is None without an OAuth service and
      otherwise what its `has_tokens()` returns. */
  function Meta(oauthConnected: Option<bool>): (m: OAuthMeta)
    ensures m.enabled <==> oauthConnected.Some?
    ensures !m.enabled ==> m.connected
    ensures m.enabled ==> m.connected == oauthConnected.value
  {
    OAuthMeta(oauthConnected.Some?, if oauthConnected.Some? then oauthConnected.value else true,
              "/auth/login", "/auth/disconnect")
  }

  /** `tz_alias or request.headers.get("X-Timezone")`: the alias the service is given. */
  function TimezoneHint(tzAlias: Option<string>, header: Option<string>): (hint: Option<string>)
    ensures Given(tzAlias) ==> hint == tzAlias
    ensures !Given(tzAlias) ==> hint == header
  {
    OrElse(tzAlias, header)
  }

  /** `timezone_hint or app_timezone or "UTC"`, unstripped. */
  function DefaultZone(hint: Option<string>, appTimezone: string): (z: string)
    ensures Given(hint) ==> z == hint.value
    ensures !Given(hint) && appTimezone != "" ==> z == appTimezone
    ensures !Given(hint) && appTimezone == "" ==> z == "UTC"
  {
    if Given(hint) then hint.value else if appTimezone != "" then appTimezone else "UTC"
  }

  function SourceText(s: TimezoneSource): string
  {
    match s
    case Client => "client"
    case Configured => "config"
  }

  /** The dict the service returns for a payload. */
  function PayloadDict(p: Payload): (d: Dict)
    ensures d.Keys == {"requested_date_iso", "date_iso", "message", "summary", "metrics", "timezone", "timezone_source"}
  {
    map["requested_date_iso" := Day(p.requestedDate), "date_iso" := Day(p.resolvedDate),
        "message" := Str(p.message), "summary" := SummaryField(p.summary), "metrics" := MetricsField(p.metrics),
        "timezone" := Str(p.timezone), "timezone_source" := Str(SourceText(p.timezoneSource))]
  }

  /** `dict.setdefault` */
  function SetDefault(d: Dict, key: string, value: Field): (r: Dict)
    ensures r.Keys == d.Keys + {key}
    ensures key in d ==> r == d
    ensures key !in d ==> r[key] == value && forall k :: k in d ==> r[k] == d[k]
  {
    if key in d then d else d[key := value]
  }

  const PayloadKeys := {"requested_date_iso", "date_iso", "message", "summary", "metrics", "timezone",
                        "timezone_source", "error", "oauth_prompt", "oauth"}

  const ErrorKeys := {"date_iso", "requested_date_iso", "message", "summary", "metrics", "error",
                      "timezone", "timezone_source"}

  /** Whether the error payload asks for an OAuth connection. */
  predicate Prompts(meta: OAuthMeta, error: Error)
  {
    meta.enabled && (!meta.connected || Contains(Lower(error.message), "authorise"))
  }

  /** The defaults `_build_payload` adds to the dict of a built payload:
      every field of the service is kept, there is no error and no prompt. */
  method SuccessPayload(p: Payload, hint: Option<string>, appTimezone: string) returns (payload: Dict)
    ensures payload.Keys == PayloadDict(p).Keys + {"error", "oauth_prompt"}
    ensures forall k :: k in PayloadDict(p) ==> payload[k] == PayloadDict(p)[k]
    ensures payload["error"] == NullField && payload["oauth_prompt"] == Flag(false)
  {
    payload := PayloadDict(p);
    payload := SetDefault(payload, "error", NullField);
    payload := SetDefault(payload, "timezone", Str(DefaultZone(hint, appTimezone)));
    payload := SetDefault(payload, "timezone_source", Str(if Given(hint) then "client" else "config"));
    payload := payload["oauth_prompt" := Flag(false)];
  }

  /** The payload `_build_payload` builds when the service raised `error`:
      no message, empty summary and metrics, the error text, the zone hint
      (unstripped) or its defaults, and a prompt exactly when `Prompts`. */
  method ErrorPayload(error: Error, targetDate: Option<Date>, hint: Option<string>, appTimezone: string, meta: OAuthMeta)
    returns (payload: Dict)
    ensures payload.Keys == ErrorKeys + (if Prompts(meta, error) then {"oauth_prompt"} else {})
    ensures Prompts(meta, error) ==> payload["oauth_prompt"] == Flag(true)
    ensures var day := if targetDate.Some? then Day(targetDate.value) else NullField;
      && payload["date_iso"] == day && payload["requested_date_iso"] == day
      && payload["message"] == NullField && payload["summary"] == EmptyObject && payload["metrics"] == EmptyObject
      && payload["error"] == Str(error.message)
      && payload["timezone"] == Str(DefaultZone(hint, appTimezone))
      && payload["timezone_source"] == Str(if Given(hint) then "client" else "config")
  {
    var fallbackDate := if targetDate.Some? then Day(targetDate.value) else NullField;
    payload := map["date_iso" := fallbackDate,
                   "requested_date_iso" := if targetDate.Some? then Day(targetDate.value) else fallbackDate,
                   "message" := NullField,
                   "summary" := EmptyObject,
                   "metrics" := EmptyObject,
                   "error" := Str(error.message),
                   "timezone" := Str(DefaultZone(hint, appTimezone)),
                   "timezone_source" := Str(if Given(hint) then "client" else "config")];
    if meta.enabled && !meta.connected {
      payload := payload["oauth_prompt" := Flag(true)];
    } else if meta.enabled && Contains(Lower(error.message), "authorise") {
      payload := payload["oauth_prompt" := Flag(true)];
    }
  }

  /** `_build_payload`, given what `build_daily_message(target_date, hint)`
      returned or raised as `outcome`. */
  method BuildPayload(outcome: Result<Payload, Error>, targetDate: Option<Date>, tzAlias: Option<string>,
                      header: Option<string>, appTimezone: string, oauthConnected: Option<bool>)
    returns (payload: Dict)
    ensures payload.Keys == PayloadKeys
    ensures payload["oauth"] == OAuthField(Meta(oauthConnected))
    // after a build, the service's fields are kept as they are
    ensures outcome.Ok? ==>
      && (forall k :: k in PayloadDict(outcome.value) ==> payload[k] == PayloadDict(outcome.value)[k])
      && payload["error"] == NullField && payload["oauth_prompt"] == Flag(false)
    // a raised error becomes an error payload
    ensures outcome.Err? ==>
      var hint := TimezoneHint(tzAlias, header);
      var day := if targetDate.Some? then Day(targetDate.value) else NullField;
      && payload["date_iso"] == day && payload["requested_date_iso"] == day
      && payload["message"] == NullField && payload["summary"] == EmptyObject && payload["metrics"] == EmptyObject
      && payload["error"] == Str(outcome.error.message)
      && payload["timezone"] == Str(DefaultZone(hint, appTimezone))
      && payload["timezone_source"] == Str(if Given(hint) then "client" else "config")
      && payload["oauth_prompt"] == Flag(Prompts(Meta(oauthConnected), outcome.error))
  {
    var meta := Meta(oauthConnected);
    var hint := TimezoneHint(tzAlias, header);
    if outcome.Ok? {
      payload := SuccessPayload(outcome.value, hint, appTimezone);
    } else {
      payload := ErrorPayload(outcome.error, targetDate, hint, appTimezone, meta);
      assert "oauth_prompt" in payload <==> Prompts(meta, outcome.error);
    }
    payload := Finish(payload, meta, hint, appTimezone);
  }

  /** The last steps of `_build_payload`: a missing prompt is false, the
      `oauth` member is set, and the zone members are defaulted. */
  method Finish(partial: Dict, meta: OAuthMeta, hint: Option<string>, appTimezone: string) returns (payload: Dict)
    requires "timezone" in partial && "timezone_source" in partial && "oauth" !in partial
    ensures payload.Keys == partial.Keys + {"oauth_prompt", "oauth"}
    ensures forall k :: k in partial ==> payload[k] == partial[k]
    ensures "oauth_prompt" !in partial ==> payload["oauth_prompt"] == Flag(false)
    ensures payload["oauth"] == OAuthField(meta)
  {
    payload := SetDefault(partial, "oauth_prompt", Flag(false));
    payload := payload["oauth" := OAuthField(meta)];
    payload := SetDefault(payload, "timezone", Str(DefaultZone(hint, appTimezone)));
    payload := SetDefault(payload, "timezone_source", Str(if Given(hint) then "client" else "config"));
  }

  /** Lower-casing leaves a run of lower-case letters where it was. */
  lemma LowerKeepsLowercase(s: string, i: nat, p: string)
    requires i + |p| <= |s| && s[i..i + |p|] == p
    requires forall k :: 0 <= k < |p| ==> 'a' <= p[k] <= 'z'
    ensures Lower(s)[i..i + |p|] == p
  {
    var l := Lower(s);
    forall k | 0 <= k < |p| ensures l[i + k] == p[k] {
      assert s[i + k] == p[k];
    }
  }

  /** The error a disconnected account raises asks for authorisation: its
      lower-cased text contains "authorise", so it prompts for a connection
      even where `has_tokens()` has said otherwise. */
  lemma NotConnectedPrompts()
    ensures Contains(Lower(NotConnectedMessage), "authorise")
  {
    var head, tail := "Oura account not connected. " + "Visit /auth/login to ", "authorise access.";
    var word := "authorise";
    var m := NotConnectedMessage;
    assert m == head + tail;
    assert |head| == 49;
    assert tail[..9] == word;
    assert m[49..58] == tail[..9];
    assert forall k :: 0 <= k < |word| ==> 'a' <= word[k] <= 'z';
    LowerKeepsLowercase(m, 49, word);
    ContainsAt(Lower(m), word, 49);
  }
}
