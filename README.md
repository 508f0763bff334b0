# Oura daily coach: a verified model of its core

This project models the core of a small Python web application. The
application reads a user's daily readiness, sleep and activity scores from the
Oura API, asks a text generator for a short motivational message, and shows it
on a dashboard. The model covers six parts:

- **The daily-message orchestrator** (`DailyMessage`, daily_message.dfy):
  - it resolves the time-zone key and the day;
  - it serves a cached payload while it is fresh;
  - otherwise it scans back over the fallback window for the most recent day with data;
  - it summarises that day, builds the two-block prompt, and falls back to a fixed
    HTML message when the generator's reply is blank;
  - it caches the payload under the resolved day and under the requested day.

  The service is a class whose `cache` map the methods update. The loop over
  offsets is a `while` loop, proved against the recursive specification
  `ScanFrom`.
- **The Oura client's response shaping** (`Oura`, oura.dfy): the three daily
  requests for one day, the first entry of each response, the propagation of
  HTTP errors, and the masking of the bearer token in the log.
- **The OAuth service** (`OAuth`, oauth.dfy):
  - scope parsing;
  - the redirect URI and the authorisation query;
  - the one-shot set of pending states;
  - the token payload built from a token response;
  - the expiry rule with its 30-second skew;
  - the access-token decision: not configured, not connected, expired and refreshed, or as stored.
- **The settings** (`Config`, config.dfy): field defaults, the credential check,
  and the choice of OAuth mode.
- **Two decisions of the web layer** (`Web`, web.dfy): the guard on the
  post-login redirect target and the shaping of the dashboard payload, plus the session check.
- **Python's string and number primitives** that the source relies on
  (`Common`, common.dfy): `split()`, `strip()`, `rstrip('/')`, `lower()`,
  substring `in`, `int(s)` and `str(n)`, together with the truthiness of
  JSON values.

Collaborators are values given to the model:

- each HTTP request to the Oura API is one call of the client's `api` function;
- the chat completion is the generator's `reply` function;
- the token endpoint is the OAuth service's `tokenEndpoint` function.

Ghost logs record each request, prompt and token form sent (`requests`,
`prompts`, `posts`). So "no fetch and no generation on a cache hit" is a
statement about these logs.

The clock, the zone database, the local date of an instant, `urlparse`,
ISO-8601 formatting and parsing, and the random OAuth state are parameters.

Dates are day ordinals. Instants are integer seconds. A cache key is the pair
(zone key, day) that the source's string `"<zone>|<iso date>"` encodes.

Two behaviours of the code are kept as written:

- **Malformed time-zone keys.** `_get_timezone` catches only
  `ZoneInfoNotFoundError`. A malformed key makes `ZoneInfo` raise `ValueError`,
  and that error propagates out of `build_daily_message`. The model keeps this
  as `ZoneStatus.Malformed`.
- **TTL and fallback window.** The code clamps only the window
  (`max(0, ...)`). A negative TTL is accepted and makes nothing fresh.

## Model

| member | source | states |
|---|---|---|
| Config.WithDefaults | app/config.py:11-27 | Settings loaded with only the required fields set get zone "UTC", TTL 15 minutes, 1 fallback day, model "gpt-5", base URL `http://localhost:8000`, token file `var/tokens.json`, the Oura authorise and token URLs, and no scopes. |
| Config.ValidateCredentials | app/config.py:29-38 | Loading succeeds, returning the settings unchanged, exactly when the personal token is non-empty or both client id and secret are non-empty. Otherwise it raises ValueError with the credentials message. |
| Config.UseOAuth | app/config.py:40-42 | OAuth mode is on iff client id and secret are both non-empty and no personal token is set. The lemmas below state what follows from it. |
| Config.OAuthSettingsAreValid | app/config.py:29-42 | Settings that select OAuth always pass the credential check. |
| Config.PersonalTokenDisablesOAuth | app/config.py:34-42 | A non-empty personal token turns OAuth off whatever the client credentials, and it passes the check. |
| Config.ValidSettingsChooseOneMode | app/config.py:29-42 | Valid settings are exactly those that use OAuth or have a personal token, and never both. |
| Oura.Request.Query | app/clients/oura.py:34-37 | The query has exactly the keys start_date and end_date, holding the request's two dates. |
| Oura.DayRequests | app/clients/oura.py:34-44 | One day's fetch sends three requests, in the order readiness, sleep, activity, each with start and end date equal to that day. |
| Oura.FirstEntry | app/clients/oura.py:97-100 | The first entry is None when `data` is missing or empty, and otherwise the first element of `data`. |
| Oura.Mask | app/clients/oura.py:73 | The logged token is its first 6 characters plus "..." when it is longer than 6, and "***" otherwise. |
| Oura.MaskRevealsOnlyPrefix | app/clients/oura.py:73-79 | Two tokens that agree on their first 6 characters, and are both long or both short, are logged alike; the log shows at most 9 characters. |
| Oura.DailyMetricsFor | app/clients/oura.py:31-69 | What one day's fetch returns, given the API. `FetchOutcome` states its error and success cases. |
| Oura.FetchOutcome | app/clients/oura.py:39-69 | The fetch fails exactly when one of its three requests fails, and then with one of their errors; HTTP status errors are never swallowed. Otherwise each field is the first entry of its own response. |
| Oura.OuraClient.Get | app/clients/oura.py:71-95 | One GET returns what the API gives for the request and logs that request. |
| Oura.OuraClient.FetchDailyMetrics | app/clients/oura.py:31-69 | Sends the day's three requests in order and returns the shaped metrics or the first error. |
| DailyMessage.ZoneKey | app/services/daily_message.py:167 | The zone key is never empty and has no surrounding whitespace. |
| DailyMessage.ZoneKeyChoice | app/services/daily_message.py:167 | A given alias wins, even one that strips to nothing, which then gives "UTC". Without an alias the configured zone is used, or "UTC" when it strips to nothing. |
| DailyMessage.ResolveZone | app/services/daily_message.py:166-173 | A known zone keeps its key and an unknown zone gives "UTC". It raises exactly when the key is malformed. |
| DailyMessage.UnknownAliasFallsBackToUtc | app/services/daily_message.py:166-173 | An unknown alias without surrounding whitespace, such as "Not/AZone", resolves to "UTC" without raising. |
| DailyMessage.Expired | app/services/daily_message.py:96-98 | An entry is stale once `now` reaches its creation instant plus the TTL in minutes. `ExpiryRule` states what this means. |
| DailyMessage.ExpiryRule | app/services/daily_message.py:96-98 | An entry is fresh exactly while its age is below TTL minutes, so a TTL of 0 never serves an entry created at or before now. |
| DailyMessage.Window | app/services/daily_message.py:72 | The window is the configured number of fallback days when that is non-negative, and 0 when it is negative. |
| DailyMessage.HasData | app/services/daily_message.py:82 | `any((readiness, sleep, activity))`: some record of the day is present and non-empty. The scan lemmas below stop exactly at the first offset where it holds. |
| DailyMessage.ScanFrom | app/services/daily_message.py:71-94 | The scan from one offset on, as a recursive definition. The lemmas below characterise it and the loop is proved equal to it. |
| DailyMessage.ScanFromFound | app/services/daily_message.py:74-89 | A scan that finds data returns a day within the offsets still to try. That day's fetch succeeded with a non-empty record, every nearer offset yielded nothing, and fetching stops right after it. |
| DailyMessage.ScanFromExhausted | app/services/daily_message.py:73-94 | A failed scan raises the last recorded fetch error, or the no-data ValueError when no fetch failed, after trying every offset. |
| DailyMessage.ScanFromNoYield | app/services/daily_message.py:74-94 | A scan fails only when no remaining offset has data. |
| DailyMessage.ScanOutcomes | app/services/daily_message.py:71-94 | The scan tries offsets 0, 1, … in order and returns the first day with data, in `[target - window, target]`. It fails only when no day of the window has data, with the last error or the no-data ValueError. It fetches one day per offset tried. |
| DailyMessage.ErrorThenData | app/services/daily_message.py:76-89 | An error at the target does not stop the scan: when the day before has data, that day is used. |
| DailyMessage.FallbackPreference | app/services/daily_message.py:74-89 | When the two nearest days yield nothing and the day two before the target has data, that day is resolved, and it differs from the requested day. |
| DailyMessage.EmptyWindowHasNoData | app/services/daily_message.py:90-94 | When every day of the window answers without error but with no record, the scan fails with the no-data ValueError. |
| DailyMessage.SummaryOf | app/services/daily_message.py:132-145 | The summary a day's metrics give. `SummaryKeys` states its keys and values. |
| DailyMessage.SummaryKeys | app/services/daily_message.py:132-145 | `readiness_score` is present iff readiness is present, and likewise `sleep_score` for sleep. `sleep_duration_hours` is present iff sleep is present with a duration. `activity_score` and `steps` are present together iff activity is present. Each holds its record's field and there are no other keys. |
| DailyMessage.SummariseMetrics | app/services/daily_message.py:132-145 | Filling the dict key by key yields the summary that `SummaryKeys` characterises. |
| DailyMessage.BuildPrompt | app/services/daily_message.py:100-130 | The prompt has two blocks. The first is a system directive quoting the readiness and sleep scores of the summary. The second is a user block with the resolved day, the summary and the raw metrics. |
| DailyMessage.FallbackMessage | app/services/daily_message.py:148-163 | The fallback HTML: the paragraphs, each wrapped in `<p>`, then the action list. The lemmas below state its content and shape. |
| DailyMessage.FallbackParagraphsContent | app/services/daily_message.py:148-160 | The check-in comes first. The readiness and sleep sentences appear iff each score is reported, the readiness sentence second and the sleep sentence just before the close. "Keep looking after yourself today." closes iff neither is reported, and the listening sentence closes otherwise. |
| DailyMessage.ParagraphsHaveNoMarkup | app/services/daily_message.py:152-160 | When the quoted scores carry no markup, no paragraph of the fallback message does. |
| DailyMessage.IntegerScoreHasNoMarkup | app/services/daily_message.py:154-156 | An integer score renders without markup. |
| DailyMessage.ActionListHasOneItem | app/services/daily_message.py:162 | The fixed action list holds exactly one `<li>`. |
| DailyMessage.FallbackMessageShape | app/services/daily_message.py:148-163 | The fallback message starts with the check-in paragraph and ends with the action list. When the scores carry no markup it has exactly one `<li>`. |
| DailyMessage.FallbackExample | app/services/daily_message.py:148-163 | Readiness 80 and sleep 70 give the check-in, "Readiness score: 80.", "Sleep score: 70." and the listening close, and exactly one `<li>`. |
| DailyMessage.JoinParagraphs | app/services/daily_message.py:161 | The loop yields each paragraph wrapped in `<p>…</p>`, in order. |
| DailyMessage.BuildFallbackMessage | app/services/daily_message.py:148-163 | Appending paragraphs and then their markup yields the fallback message described by the lemmas above. |
| DailyMessage.ComposePayload | app/services/daily_message.py:46-62 | The payload of a build. `PayloadFields` states its fields. |
| DailyMessage.PayloadFields | app/services/daily_message.py:46-62 | The payload records the requested day, the resolved day and the zone key. Its source is "client" iff an alias was given. Its message is the generated text, or the fallback message when that text is empty, so it is never empty. |
| DailyMessage.StoreEffect | app/services/daily_message.py:63-67 | After a store, the resolved-day key and the requested-day key both hold the new entry and no other key changes. |
| DailyMessage.TextGenerator.GenerateDailyMessage | app/clients/openai_client.py:13-19 | Returns the reply for the prompt, stripped, or its error, and logs the prompt. |
| DailyMessage.DailyMessageService.constructor | app/services/daily_message.py:24-29 | A new service holds its collaborators and an empty cache. |
| DailyMessage.DailyMessageService.FetchMetricsWithFallback | app/services/daily_message.py:71-94 | The loop returns the scan outcome that `ScanOutcomes` characterises and fetches exactly the days that scan tries, in order. |
| DailyMessage.DailyMessageService.BuildFresh | app/services/daily_message.py:41-68 | On a miss it scans. A failed scan raises, with no generation and no store. Otherwise it sends the prompt of the resolved day. A generator error raises with the cache unchanged. Otherwise it returns the composed payload, cached under both keys. |
| DailyMessage.DailyMessageService.BuildDailyMessage | app/services/daily_message.py:31-68 | A malformed zone raises before anything else. A fresh entry under (zone, target) is returned as it is, with no fetch, no generation and the cache unchanged. Otherwise it does what `BuildFresh` states for that target, and the target defaults to the local date in the zone. |
| DailyMessage.RepeatedRequestIsServedFromCache | app/services/daily_message.py:31-39 | On an empty cache, a repeated request for the same day within the TTL returns the first request's payload. Across both calls the Oura client sees exactly one scan's requests and the generator exactly one prompt, so the second call fetches and generates nothing. |
| OAuth.DropEmpty | app/oauth/service.py:34 | Keeps exactly the non-empty parts, never adds one, and returns a list without empty parts unchanged. |
| OAuth.DropEmptyAppend | app/oauth/service.py:34 | The filter keeps order: filtering a concatenation concatenates the filtered halves. |
| OAuth.ParseScopes | app/oauth/service.py:30-35 | Every scope is a non-empty token without whitespace. |
| OAuth.ScopesOfSetting | app/oauth/service.py:21-37 | Unset scopes give email, personal and daily. A set value gives its whitespace-separated tokens in order, so a blank value gives none. |
| OAuth.ScopeParameterRoundTrip | app/oauth/service.py:34-52 | Parsing the space-joined scope parameter gives back the scopes. |
| OAuth.RedirectUri | app/oauth/service.py:154-156 | The URI is the base URL without its trailing slashes, followed by "/auth/callback". |
| OAuth.RedirectUriIgnoresTrailingSlash | app/oauth/service.py:154-156 | A trailing slash on the base URL changes nothing, and no slash comes right before the callback path. |
| OAuth.AuthorisationQuery | app/oauth/service.py:45-52 | The query is response_type=code, client_id, redirect_uri and state, in that order, then `scope` when there are scopes. |
| OAuth.AuthorisationScope | app/oauth/service.py:45-52 | A scope parameter is present iff the service has scopes, and it parses back to them. |
| OAuth.ToInt | app/oauth/service.py:127 | `int(expires_in)` takes an integer as it is, a boolean as 0 or 1, and a decimal string as its value. Another string raises ValueError and None raises TypeError. |
| OAuth.ExpiresInAsText | app/oauth/service.py:124-127 | `expires_in` sent as a number or as its decimal text gives the same number of seconds. |
| OAuth.TokenPayload | app/oauth/service.py:117-136 | The payload holds exactly access_token, refresh_token, expires_at, scope and token_type. `expires_at` is now plus `expires_in` seconds, or None without `expires_in`. A non-numeric `expires_in` raises the error of `int()`, before the access token is looked up. Otherwise a missing access token raises KeyError. |
| OAuth.TokensExpired | app/oauth/service.py:138-152 | A missing or empty `expires_at` is not expired, and an unparseable one is. Otherwise tokens expire from 30 seconds before the expiry instant, a naive time being read as UTC. |
| OAuth.TokenLifetime | app/oauth/service.py:124-152 | Fresh tokens without `expires_in` never expire. With it, they count as expired from 30 seconds before the end of their lifetime. |
| OAuth.AccessTokenOf | app/oauth/service.py:96 | `tokens["access_token"]` returns the stored value, or raises KeyError iff the key is missing. |
| OAuth.TokenOutcomeHasAccessToken | app/oauth/service.py:117-136 | A successful token request yields tokens whose access token is the one the endpoint sent. |
| OAuth.OAuthService.constructor | app/oauth/service.py:23-37 | A new service has no pending states and the parsed scopes. |
| OAuth.OAuthService.BuildAuthorisationUrl | app/oauth/service.py:39-54 | Adds the state to the pending set, returns it, and builds the URL from the authorise URL and the query. |
| OAuth.OAuthService.IsStateValid | app/oauth/service.py:56-62 | Accepts iff the state is non-empty and pending. Acceptance removes it, and a rejection leaves the set unchanged. |
| OAuth.StateIsOneShot | app/oauth/service.py:39-62 | A state handed out is accepted once, and a second check of it fails. |
| OAuth.Connected | app/oauth/service.py:64-66 | `bool(tokens)`: a token record is stored and is non-empty. With OAuth configured, `GetAccessToken` raises the not-connected error when it fails, and sends nothing. |
| OAuth.OAuthService.HasTokens | app/oauth/service.py:64-66 | The service has tokens iff the store holds a non-empty token record. `Disconnect` ends it. |
| OAuth.OAuthService.RequestToken | app/oauth/service.py:117-136 | Posts the form and returns the endpoint's error or the token payload of its body. |
| OAuth.OAuthService.Refresh | app/oauth/service.py:102-115 | Without a refresh token it raises the reconnect error and sends nothing. Otherwise it posts the refresh form. |
| OAuth.OAuthService.ExchangeCode | app/oauth/service.py:68-80 | Posts the authorisation-code form and stores the tokens it obtains. |
| OAuth.OAuthService.GetAccessToken | app/oauth/service.py:82-96 | Raises when OAuth is not configured or no tokens are stored. Unexpired tokens give their access token without a save. Expired tokens are refreshed, saved, and their access token returned. An unusable expiry or a failed refresh raises and saves nothing. |
| OAuth.OAuthService.Disconnect | app/oauth/service.py:98-100 | The stored tokens are dropped, so the service no longer has tokens. |
| Web.IsAuthenticated | app/web/main.py:38-39 | The session is authenticated iff its user key holds a truthy value. |
| Web.SanitizeRedirectTarget | app/web/main.py:264-273 | The target is never empty. A missing or empty value gives "/", and so does a value with a scheme or a network location. |
| Web.SanitizedTargetShape | app/web/main.py:264-273 | When `urlparse` gives no scheme and no network location, the target is its path, or "/" for an empty path, followed by "?" and the query iff the query is non-empty. |
| Web.SanitizeAdmitsProtocolRelative | app/web/main.py:264-273 | When `urlparse("////evil.com")` has empty scheme and location and path "//evil.com", the guard returns "//evil.com", which a browser reads as another site. |
| Web.SafeRedirectTarget | app/web/main.py:264-273 | The corrected guard never returns an empty or protocol-relative target. It refuses a scheme or location, sends a target the guard as written returns protocol-relative to "/", and otherwise returns what the guard as written returns. |
| Web.SafeRedirectRefusesProtocolRelative | app/web/main.py:264-273 | The corrected guard sends "////evil.com" to "/". |
| Web.SanitizeIsIdempotent | app/web/main.py:264-273 | Sanitising a sanitised target changes nothing, provided `urlparse` reads back what was written. |
| Web.Meta | app/web/main.py:227-232 | `oauth.enabled` holds iff there is an OAuth service. `connected` is true without one and is `has_tokens()` with one. |
| Web.TimezoneHint | app/web/main.py:233 | The hint is the query alias when it is non-empty, and the `X-Timezone` header otherwise. |
| Web.DefaultZone | app/web/main.py:237 | The zone default is the hint, else the configured zone, else "UTC". |
| Web.PayloadDict | app/services/daily_message.py:50-62 | The service's dict has exactly its seven keys. |
| Web.SetDefault | app/web/main.py:236-238 | `setdefault` keeps a present key and adds a missing one. |
| Web.SuccessPayload | app/web/main.py:234-238 | After a build every field of the service is kept, with no error and no prompt. |
| Web.ErrorPayload | app/web/main.py:239-254 | A raised error gives no message, empty summary and metrics, `str(exc)`, the requested day in both date fields, and the zone defaults. `oauth_prompt` is present iff OAuth is enabled and the account is not connected or the lower-cased error mentions "authorise". |
| Web.Finish | app/web/main.py:257-261 | A missing prompt becomes false, the `oauth` member is set, and everything else is kept. |
| Web.BuildPayload | app/web/main.py:220-261 | The payload always has the same ten keys and the OAuth metadata. On success the service's fields are kept with error None and no prompt. On an error it is the error payload, with `oauth_prompt` true exactly under the prompt rule. |
| Web.Prompts | app/web/main.py:251-254 | The error payload asks for a connection iff OAuth is enabled and either the account is not connected or the lower-cased error mentions "authorise". `ErrorPayload` and `BuildPayload` set `oauth_prompt` by it. |
| Web.NotConnectedPrompts | app/web/main.py:251-254 | The "not connected" error of `get_access_token` contains "authorise" once lower-cased, so it prompts for a connection. |
| Common.Truthy | app/web/main.py:38-39 | Python's `bool()` of a JSON scalar: None, False, 0 and the empty string are false, all else is true. |
| Common.OrElse | app/services/daily_message.py:167 | `a or b` on optional strings: a non-empty `a` is the result, and `b` otherwise. |
| Common.Words | app/oauth/service.py:34 | `str.split()`: every word is non-empty and free of whitespace. `WordsOfJoin` shows it undoes a space-join of words. |
| Common.ParseInt | app/oauth/service.py:127 | `int(s)` on a string: one optional sign and ASCII digits between whitespace, else None for the ValueError. `ParseIntOfIntToString` shows it reads back `str(i)`. |
| Common.Strip | app/services/daily_message.py:167 | `strip()` removes whitespace only from the two ends, and the result neither starts nor ends with whitespace. |
| Common.WordsOfJoin | app/oauth/service.py:34-52 | `" ".join(ws).split()` gives back `ws` when every element is a token. |
| Common.TrimSlashes | app/oauth/service.py:156 | `rstrip('/')` removes exactly the trailing slashes. |
| Common.Lower | app/web/main.py:253 | `lower()` keeps the length and lower-cases each ASCII letter in place. |
| Common.ParseIntOfIntToString | app/oauth/service.py:127 | `int(str(i)) == i` for every integer. |

## Left out

- HTTP and file I/O are not modelled: the httpx calls, the OpenAI client and the token file. They are functions given to the classes, and the token store is an `Option<Json>` field of the OAuth service. `load()` already returns None for a file that is missing or blank.
- Concurrency: `asyncio.gather` runs the three Oura GETs concurrently. The model sends them in order and the first failure in that order is the error. In Python the first failure to complete wins.
- Concurrency: the `asyncio.Lock` of `get_access_token` and the race between concurrent cache misses are not modelled, because the model runs one request at a time.
- Logging is left out, so the masked token only appears as `Oura.Mask`.
- Floating point: `round(duration / 3600, 2)` is kept as the duration it is computed from (`SummaryValue.Hours`). The fallback text never shows it. What is not modelled is its float value and its `json.dumps` rendering in the prompt.
- Float values in JSON are not modelled, so a float `expires_in` is not covered.
- Common.Value: JSON values are scalars only. Arrays and objects are not modelled, so an Oura record with nested members (such as `contributors`) is represented only by its scalar fields.
- DailyMessage.SummaryOf: in the source, `round(duration / 3600, 2)` raises TypeError for a text `total_sleep_duration`, and that error escapes `build_daily_message`. The model records `Hours(Text(...))` and the build goes on. `DailyMessage.SummariseMetrics` does the same.
- OAuth.TokenPayload: `timedelta(seconds=int(expires_in))` and the addition to `now` raise OverflowError for huge values, because Python datetimes are bounded. Instants are unbounded here, so the model never raises it.
- Web.SafeRedirectTarget: current `urlsplit` deletes tab, carriage return and newline before parsing, so "/\t/evil.com" already gets the network location "evil.com" and is refused. Only a `parse` that keeps those characters, as older Python versions did, would let such a target through, and the corrected guard checks only the two leading characters.
- Web.SanitizeRedirectTarget: `urlparse` raises ValueError ("Invalid IPv6 URL") for a network location with an unbalanced bracket, such as `//[evil`. Neither the guard nor the login routes catch it, so the request fails with a server error. Here `parse` always returns a parsed URL, so that error path is not modelled.
- ISO-8601: the rendering of dates and instants and `datetime.fromisoformat` are parameters. Cache keys are (zone, day) pairs rather than strings; the string form is injective because an ISO date has a fixed width.
- The clock: several reads of `datetime.now` within one request are one `now` parameter.
- The prompt's wording and the `json.dumps` text are not modelled. Only the two-block role structure and what each block is built from are kept.
- Query encoding: `httpx.QueryParams` percent-encoding is not modelled. The URL is the authorise URL with its ordered (name, value) parameters, and an absent client id is shown as "".
- `urlparse`, the zone database and the local date of an instant are parameters, and `secrets.token_urlsafe` is the `state` argument.
- Common.Lower: only ASCII letters are lower-cased; Python's `lower()` also folds non-ASCII letters.
- OAuth.ToInt: digit strings with underscores (`"1_000"`) and non-ASCII digits are refused here, although Python's `int()` accepts them.
- OAuth.ToInt: `Common.ParseInt` skips the whitespace that `str.strip()` skips, which includes U+001C to U+001F. Python's `int()` does not skip those four characters, so for `"\x1c3600"` it raises ValueError where the model reads 3600.
- DailyMessage.ScanFrom: dates are unbounded day ordinals. In the source `target - timedelta(days=offset)` lies outside the `try` and raises OverflowError below 0001-01-01, so a scan that starts near that day and finds no data raises that error. The model goes on fetching earlier ordinals.
- DailyMessage.Expired: `created_at + timedelta(minutes=ttl)` raises OverflowError for a TTL large enough to leave the datetime range. The model compares unbounded instants and never raises it.
- Oura.FirstEntry: a response whose `data` is JSON null cannot be represented. In the source such a body makes the debug `len(...)` in `fetch_daily_metrics` raise TypeError.
- The generator reply with `content` None (an AttributeError in the client) is folded into the reply function's error case.
- Web.BuildPayload: the source mutates the dict it gets from the cache, so later hits see the `error`, `oauth_prompt` and `oauth` members left there. Those are overwritten or re-defaulted on every call and change nothing observable. The model works on a copy.
- Web.BuildPayload: the call of `build_daily_message` inside `_build_payload` is its `outcome` parameter. `TimezoneHint` gives the alias it is called with.
- `_redirect_to_login`, the FastAPI routes, templates, the session middleware and Pydantic's environment loading are outside the modelled core.

## Findings

| source | as written | input that shows it | evidently intended | confidence | as-written member | corrected member |
|---|---|---|---|---|---|---|
| app/web/main.py:264-273 | The redirect guard refuses only targets with a scheme or a network location, and returns the path. | `next=////evil.com`: `urlparse` gives scheme "", netloc "" and path "//evil.com", so the login redirects to "//evil.com", another site. | The post-login redirect stays on this site, so a protocol-relative path (two leading slashes or backslashes) is refused as well. | not executed | Web.SanitizeAdmitsProtocolRelative | Web.SafeRedirectTarget |
