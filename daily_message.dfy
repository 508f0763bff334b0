/** The daily-message orchestrator (app/services/daily_message.py): it
    resolves the time zone and the day, serves a fresh cached payload, or
    scans back over the fallback window for a day with Oura data,
    summarises it, asks the text generator for a message (falling back to a
    fixed message when the reply is blank), and caches the payload under
    the resolved day and the requested day. */
module DailyMessage {
  import opened Common
  import opened Config
  import opened Oura

  // ---------------------------------------------------------------------------
  // Data model

  /** A value of the summary: a field copied from a record, or the sleep
      duration in hours, `round(duration / 3600, 2)`, kept as its duration. */
  datatype SummaryValue = Raw(v: Value) | Hours(duration: Value)

  type Summary = map<string, SummaryValue>

  /** `timezone_source`: "client" or "config". */
  datatype TimezoneSource = Client | Configured

  /** The payload returned to callers and cached (its dict keys are
      requested_date_iso, date_iso, message, summary, metrics, timezone,
      timezone_source). */
  datatype Payload = Payload(
    requestedDate: Date,
    resolvedDate: Date,
    message: string,
    summary: Summary,
    metrics: DailyMetrics,
    timezone: string,
    timezoneSource: TimezoneSource)

  /** CachedMessage */
  datatype CachedMessage = CachedMessage(payload: Payload, createdAt: Instant)

  /** The cache key `f"{tz_key}|{day.isoformat()}"`, kept as the pair it encodes. */
  datatype CacheKey = CacheKey(zone: string, day: Date)

  /** What the zone database says of a key: `ZoneInfo(key)` succeeds, raises
      ZoneInfoNotFoundError, or raises ValueError for a malformed key. */
  datatype ZoneStatus = Known | Unknown | Malformed(reason: string)

  // ---------------------------------------------------------------------------
  // Time zone

  /** `(tz_alias or app_timezone or "UTC").strip() or "UTC"`; the middle
      `or "UTC"` is subsumed by the last one, since an empty string strips to
      an empty string. */
  function ZoneKey(alias: Option<string>, configured: string): (key: string)
    ensures key != "" && !IsSpace(key[0]) && !IsSpace(key[|key| - 1])
  {
    var stripped := Strip(if Given(alias) then alias.value else configured);
    if stripped == "" then "UTC" else stripped
  }

  /** `_get_timezone`, reduced to the key it returns: the chosen key when the
      zone exists, "UTC" when it does not; a malformed key raises. */
  function ResolveZone(alias: Option<string>, configured: string, zones: string -> ZoneStatus): (r: Result<string, Error>)
    ensures r.Err? <==> zones(ZoneKey(alias, configured)).Malformed?
    ensures r.Ok? && zones(ZoneKey(alias, configured)) == Known ==> r.value == ZoneKey(alias, configured)
    ensures r.Ok? && zones(ZoneKey(alias, configured)) == Unknown ==> r.value == "UTC"
  {
    var key := ZoneKey(alias, configured);
    match zones(key)
    case Known => Ok(key)
    case Unknown => Ok("UTC")
    case Malformed(reason) => Err(Error(ValueError, reason))
  }

  /** Which key is chosen: a given alias wins, even one that strips to
      nothing (then the key is "UTC", not the configured zone); without an
      alias the configured zone is used, and "UTC" when it is empty or blank. */
  lemma ZoneKeyChoice(alias: Option<string>, configured: string)
    ensures Given(alias) ==> ZoneKey(alias, configured) == (if Strip(alias.value) == "" then "UTC" else Strip(alias.value))
    ensures !Given(alias) ==> ZoneKey(alias, configured) == (if Strip(configured) == "" then "UTC" else Strip(configured))
  {
  }

  /** An alias the zone database does not know, such as "Not/AZone", is
      replaced by "UTC" and raises nothing. */
  lemma UnknownAliasFallsBackToUtc(alias: string, configured: string, zones: string -> ZoneStatus)
    requires alias != [] && !IsSpace(alias[0]) && !IsSpace(alias[|alias| - 1])
    requires zones(alias) == Unknown
    ensures ResolveZone(Some(alias), configured, zones) == Ok("UTC")
  {
    StripOfUnpadded(alias);
  }

  // ---------------------------------------------------------------------------
  // Expiry

  /** `_is_expired`: an entry is stale once `ttlMinutes` minutes have passed since it was created. */
  predicate Expired(ttlMinutes: int, createdAt: Instant, now: Instant)
  {
    now >= createdAt + ttlMinutes * 60
  }

  /** An entry is fresh exactly while its age is below the TTL, and a TTL of
      zero serves nothing that was created at or before the request. */
  lemma ExpiryRule(ttlMinutes: int, createdAt: Instant, now: Instant)
    ensures !Expired(ttlMinutes, createdAt, now) <==> now - createdAt < ttlMinutes * 60
    ensures ttlMinutes <= 0 && createdAt <= now ==> Expired(ttlMinutes, createdAt, now)
  {
  }

  /** A key is served from the cache: present and not expired. */
  predicate Hit(cache: map<CacheKey, CachedMessage>, key: CacheKey, ttlMinutes: int, now: Instant)
  {
    key in cache && !Expired(ttlMinutes, cache[key].createdAt, now)
  }

  // ---------------------------------------------------------------------------
  // Fetch with fallback

  /** `max(0, int(data_fallback_days))` */
  function Window(fallbackDays: int): (w: nat)
    ensures fallbackDays >= 0 ==> w == fallbackDays
    ensures fallbackDays < 0 ==> w == 0
  {
    if fallbackDays < 0 then 0 else fallbackDays
  }

  /** Python's `any((readiness, sleep, activity))`. */
  predicate HasData(m: DailyMetrics)
  {
    Present(m.readiness) || Present(m.sleep) || Present(m.activity)
  }

  /** The fetch made at `offset` days before the target. */
  function Attempt(api: Request -> Result<Response, Error>, target: Date, offset: nat): Result<DailyMetrics, Error>
  {
    DailyMetricsFor(api, target.Minus(offset))
  }

  /** The fetch at `offset` succeeds with some non-empty record. */
  predicate Yields(api: Request -> Result<Response, Error>, target: Date, offset: nat)
  {
    Attempt(api, target, offset).Ok? && HasData(Attempt(api, target, offset).value)
  }

  const NoDataMessage := "No Oura data available for the requested date or fallback window."
  const NoDataError := Error(ValueError, NoDataMessage)

  /** The outcome of `_fetch_metrics_with_fallback`: the metrics and the day
      they belong to, or the exception it raises. */
  datatype ScanOutcome = Found(metrics: DailyMetrics, day: Date) | Exhausted(error: Error)

  /** The scan from `offset` on, `last` being the last error recorded so far. */
  function ScanFrom(api: Request -> Result<Response, Error>, target: Date, window: nat, offset: nat, last: Option<Error>): ScanOutcome
    requires offset <= window + 1
    decreases window + 1 - offset
  {
    if offset > window then Exhausted(if last.Some? then last.value else NoDataError)
    else
      match Attempt(api, target, offset)
      case Err(e) => ScanFrom(api, target, window, offset + 1, Some(e))
      case Ok(m) => if HasData(m) then Found(m, target.Minus(offset)) else ScanFrom(api, target, window, offset + 1, last)
  }

  /** One step of the scan, as the method takes it. */
  lemma ScanStep(api: Request -> Result<Response, Error>, target: Date, window: nat, offset: nat, last: Option<Error>)
    requires offset <= window
    ensures var a := Attempt(api, target, offset);
      && ScanFrom(api, target, window, offset, last)
         == (if a.Err? then ScanFrom(api, target, window, offset + 1, Some(a.error))
             else if HasData(a.value) then Found(a.value, target.Minus(offset))
             else ScanFrom(api, target, window, offset + 1, last))
      && StopFrom(api, target, window, offset)
         == (if a.Ok? && HasData(a.value) then offset + 1 else StopFrom(api, target, window, offset + 1))
  {
  }

  lemma AppendAssoc<T>(a: seq<T>, b: seq<T>, c: seq<T>)
    ensures a + b + c == a + (b + c)
  {
  }

  function Scan(api: Request -> Result<Response, Error>, target: Date, window: nat): ScanOutcome
  {
    ScanFrom(api, target, window, 0, None)
  }

  /** The number of offsets the scan from `offset` has fetched when it stops. */
  function StopFrom(api: Request -> Result<Response, Error>, target: Date, window: nat, offset: nat): nat
    requires offset <= window + 1
    decreases window + 1 - offset
  {
    if offset > window then offset
    else if Yields(api, target, offset) then offset + 1
    else StopFrom(api, target, window, offset + 1)
  }

  function Stop(api: Request -> Result<Response, Error>, target: Date, window: nat): nat
  {
    StopFrom(api, target, window, 0)
  }

  /** The requests of the first `n` offsets, most recent day first. */
  function ScanRequests(target: Date, n: nat): seq<Request>
  {
    if n == 0 then [] else ScanRequests(target, n - 1) + DayRequests(target.Minus(n - 1))
  }

  /** The error of the largest offset below `n` whose fetch failed. */
  function LastError(api: Request -> Result<Response, Error>, target: Date, n: nat): Option<Error>
  {
    if n == 0 then None
    else if Attempt(api, target, n - 1).Err? then Some(Attempt(api, target, n - 1).error)
    else LastError(api, target, n - 1)
  }

  /** What a scan from `offset` finds, when no earlier offset yielded. */
  lemma {:induction false} ScanFromFound(api: Request -> Result<Response, Error>, target: Date, window: nat, offset: nat, last: Option<Error>)
    requires offset <= window + 1
    requires forall o :: 0 <= o < offset ==> !Yields(api, target, o)
    ensures var r := ScanFrom(api, target, window, offset, last);
      r.Found? ==>
        var o := target.ordinal - r.day.ordinal;
        && offset <= o <= window
        && Attempt(api, target, o) == Ok(r.metrics) && HasData(r.metrics)
        && (forall o' :: 0 <= o' < o ==> !Yields(api, target, o'))
        && StopFrom(api, target, window, offset) == o + 1
    decreases window + 1 - offset
  {
    if offset <= window {
      var a := Attempt(api, target, offset);
      if a.Ok? && HasData(a.value) {
        assert target.ordinal - target.Minus(offset).ordinal == offset;
      } else {
        assert !Yields(api, target, offset);
        ScanFromFound(api, target, window, offset + 1, if a.Err? then Some(a.error) else last);
      }
    }
  }

  /** Why a scan from `offset` fails, when `last` is the last error so far. */
  lemma {:induction false} ScanFromExhausted(api: Request -> Result<Response, Error>, target: Date, window: nat, offset: nat, last: Option<Error>)
    requires offset <= window + 1
    requires last == LastError(api, target, offset)
    ensures var r := ScanFrom(api, target, window, offset, last);
      r.Exhausted? ==>
        && r.error == (if LastError(api, target, window + 1).Some? then LastError(api, target, window + 1).value else NoDataError)
        && StopFrom(api, target, window, offset) == window + 1
    decreases window + 1 - offset
  {
    if offset <= window {
      var a := Attempt(api, target, offset);
      if !(a.Ok? && HasData(a.value)) {
        ScanStep(api, target, window, offset, last);
        assert LastError(api, target, offset + 1) == (if a.Err? then Some(a.error) else last);
        ScanFromExhausted(api, target, window, offset + 1, if a.Err? then Some(a.error) else last);
      }
    }
  }

  /** A scan from `offset` fails only when no offset from there on yields. */
  lemma {:induction false} ScanFromNoYield(api: Request -> Result<Response, Error>, target: Date, window: nat, offset: nat, last: Option<Error>)
    requires offset <= window + 1
    ensures ScanFrom(api, target, window, offset, last).Exhausted? ==> forall o :: offset <= o <= window ==> !Yields(api, target, o)
    decreases window + 1 - offset
  {
    if offset <= window {
      var a := Attempt(api, target, offset);
      if !(a.Ok? && HasData(a.value)) {
        ScanFromNoYield(api, target, window, offset + 1, if a.Err? then Some(a.error) else last);
      }
    }
  }

  /** The scan tries the offsets 0, 1, ..., in order, and:
      - returns the first day that has data, which lies in
        `[target - window, target]`, and every nearer day failed or was empty;
      - fails only when no day of the window has data, with the error of the
        last offset whose fetch raised, or the no-data ValueError when none did;
      - fetches one day per offset tried, stopping right after the day it returns. */
  lemma ScanOutcomes(api: Request -> Result<Response, Error>, target: Date, window: nat)
    ensures var r := Scan(api, target, window);
      && (r.Found? ==>
            var o := target.ordinal - r.day.ordinal;
            && target.Minus(window).ordinal <= r.day.ordinal <= target.ordinal
            && Attempt(api, target, o) == Ok(r.metrics) && HasData(r.metrics)
            && (forall o' :: 0 <= o' < o ==> !Yields(api, target, o'))
            && Stop(api, target, window) == o + 1)
      && (r.Exhausted? ==>
            && (forall o :: 0 <= o <= window ==> !Yields(api, target, o))
            && r.error == (if LastError(api, target, window + 1).Some? then LastError(api, target, window + 1).value else NoDataError)
            && Stop(api, target, window) == window + 1)
  {
    ScanFromFound(api, target, window, 0, None);
    ScanFromExhausted(api, target, window, 0, None);
    ScanFromNoYield(api, target, window, 0, None);
  }

  /** An error at one offset does not hide data found at a later one: when
      the target's fetch raises and the day before has data, that day is used. */
  lemma ErrorThenData(api: Request -> Result<Response, Error>, target: Date, window: nat)
    requires window >= 1
    requires Attempt(api, target, 0).Err? && Yields(api, target, 1)
    ensures Scan(api, target, window) == Found(Attempt(api, target, 1).value, target.Minus(1))
  {
    assert Scan(api, target, window) == ScanFrom(api, target, window, 1, Some(Attempt(api, target, 0).error));
  }

  /** Fallback preference: when the two nearest days yield nothing and the
      day two before the target has data, that day is resolved, so the
      resolved day differs from the requested one. */
  lemma FallbackPreference(api: Request -> Result<Response, Error>, target: Date, window: nat)
    requires window >= 2
    requires !Yields(api, target, 0) && !Yields(api, target, 1) && Yields(api, target, 2)
    ensures Scan(api, target, window) == Found(Attempt(api, target, 2).value, target.Minus(2))
    ensures Scan(api, target, window).day != target
  {
    ScanOutcomes(api, target, window);
    var r := Scan(api, target, window);
    if r.Found? {
      var o := target.ordinal - r.day.ordinal;
      assert o == 2 by {
        assert Yields(api, target, o);
      }
    }
  }

  lemma {:induction false} NoFailureNoLastError(api: Request -> Result<Response, Error>, target: Date, n: nat)
    requires forall o :: 0 <= o < n ==> Attempt(api, target, o).Ok?
    ensures LastError(api, target, n) == None
  {
    if n > 0 {
      NoFailureNoLastError(api, target, n - 1);
    }
  }

  /** Fallback exhaustion: when every day of the window answers without an
      error but with no record, the scan fails with the no-data ValueError
      rather than with a transport error. */
  lemma EmptyWindowHasNoData(api: Request -> Result<Response, Error>, target: Date, window: nat)
    requires forall o :: 0 <= o <= window ==> Attempt(api, target, o).Ok? && !HasData(Attempt(api, target, o).value)
    ensures Scan(api, target, window) == Exhausted(NoDataError)
  {
    ScanOutcomes(api, target, window);
    NoFailureNoLastError(api, target, window + 1);
  }

  // ---------------------------------------------------------------------------
  // Summary

  /** `summary.get(key)`, None standing for a missing key. */
  function Lookup(s: Summary, key: string): SummaryValue
  {
    if key in s then s[key] else Raw(Null)
  }

  /** The summary of a day's metrics: each group of keys appears exactly when
      its source record is present (non-empty). */
  function SummaryOf(m: DailyMetrics): Summary
  {
    var s0: Summary := map[];
    var s1 := if Present(m.readiness) then s0["readiness_score" := Raw(Get(m.readiness.value, "score"))] else s0;
    var s2 := if Present(m.sleep) then s1["sleep_score" := Raw(Get(m.sleep.value, "score"))] else s1;
    var s3 :=
      if Present(m.sleep) && Get(m.sleep.value, "total_sleep_duration") != Null
      then s2["sleep_duration_hours" := Hours(Get(m.sleep.value, "total_sleep_duration"))]
      else s2;
    if Present(m.activity)
    then s3["activity_score" := Raw(Get(m.activity.value, "score"))]["steps" := Raw(Get(m.activity.value, "steps"))]
    else s3
  }

  lemma SummaryKeys(m: DailyMetrics)
    ensures var s := SummaryOf(m);
      && ("readiness_score" in s <==> Present(m.readiness))
      && ("sleep_score" in s <==> Present(m.sleep))
      && ("sleep_duration_hours" in s <==> Present(m.sleep) && Get(m.sleep.value, "total_sleep_duration") != Null)
      && ("activity_score" in s <==> Present(m.activity))
      && ("steps" in s <==> Present(m.activity))
      && s.Keys <= {"readiness_score", "sleep_score", "sleep_duration_hours", "activity_score", "steps"}
    ensures var s := SummaryOf(m);
      && (Present(m.readiness) ==> s["readiness_score"] == Raw(Get(m.readiness.value, "score")))
      && (Present(m.sleep) ==> s["sleep_score"] == Raw(Get(m.sleep.value, "score")))
      && ("sleep_duration_hours" in s ==> s["sleep_duration_hours"] == Hours(Get(m.sleep.value, "total_sleep_duration")))
      && (Present(m.activity) ==>
            s["activity_score"] == Raw(Get(m.activity.value, "score")) && s["steps"] == Raw(Get(m.activity.value, "steps")))
  {
  }

  /** `_summarise_metrics`, filling the dict one key at a time. */
  method SummariseMetrics(m: DailyMetrics) returns (s: Summary)
    ensures s == SummaryOf(m)
  {
    s := map[];
    if Present(m.readiness) {
      s := s["readiness_score" := Raw(Get(m.readiness.value, "score"))];
    }
    if Present(m.sleep) {
      s := s["sleep_score" := Raw(Get(m.sleep.value, "score"))];
      var duration := Get(m.sleep.value, "total_sleep_duration");
      if duration != Null {
        s := s["sleep_duration_hours" := Hours(duration)];
      }
    }
    if Present(m.activity) {
      s := s["activity_score" := Raw(Get(m.activity.value, "score"))];
      s := s["steps" := Raw(Get(m.activity.value, "steps"))];
    }
  }

  // ---------------------------------------------------------------------------
  // Prompt

  datatype Role = System | User

  /** The two blocks of the prompt: the coaching directive, which quotes the
      readiness and sleep scores, and the JSON blob of the day's data. */
  datatype PromptContent =
    | Directive(readinessScore: SummaryValue, sleepScore: SummaryValue)
    | DataBlob(date: Date, summary: Summary, rawMetrics: DailyMetrics)

  datatype PromptBlock = PromptBlock(role: Role, content: PromptContent)

  /** `_build_prompt`: a system block, then a user block, both determined by
      the metrics, their summary and the resolved day. */
  function BuildPrompt(m: DailyMetrics, summary: Summary, day: Date): (blocks: seq<PromptBlock>)
    ensures |blocks| == 2 && blocks[0].role == System && blocks[1].role == User
    ensures blocks[0].content.Directive?
    ensures blocks[0].content.readinessScore == Lookup(summary, "readiness_score")
    ensures blocks[0].content.sleepScore == Lookup(summary, "sleep_score")
    ensures blocks[1].content == DataBlob(day, summary, m)
  {
    [PromptBlock(System, Directive(Lookup(summary, "readiness_score"), Lookup(summary, "sleep_score"))),
     PromptBlock(User, DataBlob(day, summary, m))]
  }

  // ---------------------------------------------------------------------------
  // Fallback message
  //
  // The sentences are written as concatenations of short literals: the
  // verifier reads the characters of a short literal, not of a long one.

  const CheckIn := "Here's a gentle check-in " + "based on your latest " + "Oura data."
  const GentleClose := "Keep looking after " + "yourself today."
  const ListeningClose := "Keep listening to " + "your body and make " + "thoughtful adjustments " + "as needed."
  const ActionItem := "Take one simple action " + "that respects how you " + "feel right now."
  const ActionList := ItemList(ActionItem)

  /** A list of one item. */
  function ItemList(item: string): string
  {
    "<ul>" + ("<li>" + (item + "</li></ul>"))
  }

  function ValueToString(v: Value): string
  {
    match v
    case Null => "None"
    case Bool(b) => if b then "True" else "False"
    case Int(i) => IntToString(i)
    case Text(s) => s
  }

  /** `str(v)`; the rendering of a float of hours is not modelled and is
      shown as the expression that computes it. */
  function Display(v: SummaryValue): string
  {
    match v
    case Raw(x) => ValueToString(x)
    case Hours(d) => "round(" + ValueToString(d) + " / 3600, 2)"
  }

  /** `summary.get(key) is not None` */
  predicate Reported(s: Summary, key: string)
  {
    Lookup(s, key) != Raw(Null)
  }

  function ReadinessSentence(v: SummaryValue): string
  {
    "Readiness score: " + Display(v) + "."
  }

  function SleepSentence(v: SummaryValue): string
  {
    "Sleep score: " + Display(v) + "."
  }

  /** The paragraphs of the fallback message. */
  function FallbackParagraphs(s: Summary): seq<string>
  {
    var scores :=
      (if Reported(s, "readiness_score") then [ReadinessSentence(Lookup(s, "readiness_score"))] else [])
      + (if Reported(s, "sleep_score") then [SleepSentence(Lookup(s, "sleep_score"))] else []);
    [CheckIn] + scores + [if scores == [] then GentleClose else ListeningClose]
  }

  function Paragraph(p: string): string
  {
    "<p>" + p + "</p>"
  }

  /** `''.join(f"<p>{p}</p>" for p in ps)` */
  function ParagraphsHtml(ps: seq<string>): string
  {
    if ps == [] then "" else ParagraphsHtml(ps[..|ps| - 1]) + Paragraph(ps[|ps| - 1])
  }

  function FallbackMessage(s: Summary): string
  {
    ParagraphsHtml(FallbackParagraphs(s)) + ActionList
  }

  /** `_build_fallback_message`, appending paragraphs and then their markup. */
  method BuildFallbackMessage(s: Summary) returns (body: string)
    ensures body == FallbackMessage(s)
  {
    var readiness := Lookup(s, "readiness_score");
    var sleep := Lookup(s, "sleep_score");
    var paragraphs := [CheckIn];
    if readiness != Raw(Null) {
      paragraphs := paragraphs + [ReadinessSentence(readiness)];
    }
    if sleep != Raw(Null) {
      paragraphs := paragraphs + [SleepSentence(sleep)];
    }
    if |paragraphs| == 1 {
      paragraphs := paragraphs + [GentleClose];
    } else {
      paragraphs := paragraphs + [ListeningClose];
    }
    assert paragraphs == FallbackParagraphs(s);
    body := JoinParagraphs(paragraphs);
    body := body + ActionList;
  }

  /** The markup of the paragraphs, one after the other. */
  method JoinParagraphs(ps: seq<string>) returns (html: string)
    ensures html == ParagraphsHtml(ps)
  {
    html := "";
    for i := 0 to |ps|
      invariant html == ParagraphsHtml(ps[..i])
    {
      assert ps[..i + 1][..i] == ps[..i];
      html := html + Paragraph(ps[i]);
    }
    assert ps[..|ps|] == ps;
  }

  /** Which paragraphs the fallback message has: the check-in first; the
      readiness sentence exactly when a readiness score is reported; the sleep
      sentence exactly when a sleep score is; "Keep looking after yourself
      today." exactly when neither is, and the other closing otherwise. */
  lemma FallbackParagraphsContent(s: Summary)
    ensures var ps := FallbackParagraphs(s);
      && |ps| == 2 + (if Reported(s, "readiness_score") then 1 else 0) + (if Reported(s, "sleep_score") then 1 else 0)
      && ps[0] == CheckIn
      && (Reported(s, "readiness_score") ==> ps[1] == ReadinessSentence(Lookup(s, "readiness_score")))
      && (Reported(s, "sleep_score") ==> ps[|ps| - 2] == SleepSentence(Lookup(s, "sleep_score")))
      && (ReadinessSentence(Lookup(s, "readiness_score")) in ps <==> Reported(s, "readiness_score"))
      && (SleepSentence(Lookup(s, "sleep_score")) in ps <==> Reported(s, "sleep_score"))
      && (GentleClose in ps <==> !Reported(s, "readiness_score") && !Reported(s, "sleep_score"))
      && ps[|ps| - 1] == (if Reported(s, "readiness_score") || Reported(s, "sleep_score") then ListeningClose else GentleClose)
  {
    var ps := FallbackParagraphs(s);
    var r := ReadinessSentence(Lookup(s, "readiness_score"));
    var sl := SleepSentence(Lookup(s, "sleep_score"));
    assert r[0] == 'R' && sl[0] == 'S' && CheckIn[0] == 'H' && GentleClose[0] == 'K' && ListeningClose[0] == 'K';
    assert GentleClose[6] == 'o' && ListeningClose[6] == 'i';
  }

  // The single list item: every '<' of the paragraphs opens a <p> or a </p>,
  // so no "<li>" starts inside them.

  predicate NoMarkup(s: string)
  {
    forall i :: 0 <= i < |s| ==> s[i] != '<'
  }

  /** No "<li>" can start at a position of `s`, whatever follows `s`. */
  predicate NoItemStart(s: string)
  {
    forall i :: 0 <= i < |s| && s[i] == '<' ==> i + 1 < |s| && s[i + 1] != 'l'
  }

  lemma NoMarkupAppend(a: string, b: string)
    requires NoMarkup(a) && NoMarkup(b)
    ensures NoMarkup(a + b)
  {
    forall i | 0 <= i < |a + b| ensures (a + b)[i] != '<' {
      if i >= |a| { assert (a + b)[i] == b[i - |a|]; }
    }
  }

  lemma NoItemStartAppend(a: string, b: string)
    requires NoItemStart(a) && NoItemStart(b)
    ensures NoItemStart(a + b)
  {
    forall i | 0 <= i < |a + b| && (a + b)[i] == '<' ensures i + 1 < |a + b| && (a + b)[i + 1] != 'l' {
      if i >= |a| { assert (a + b)[i] == b[i - |a|]; assert (a + b)[i + 1] == b[i + 1 - |a|]; }
    }
  }

  lemma ParagraphNoItemStart(p: string)
    requires NoMarkup(p)
    ensures NoItemStart(Paragraph(p))
  {
    var h := Paragraph(p);
    assert forall k :: 3 <= k < 3 + |p| ==> h[k] != '<' by {
      forall k | 3 <= k < 3 + |p| ensures h[k] != '<' { assert h[k] == p[k - 3]; }
    }
    assert h[1] == 'p' && h[3 + |p|] == '<' && h[4 + |p|] == '/';
  }

  lemma {:induction false} ParagraphsNoItemStart(ps: seq<string>)
    requires forall k :: 0 <= k < |ps| ==> NoMarkup(ps[k])
    ensures NoItemStart(ParagraphsHtml(ps))
  {
    if ps != [] {
      ParagraphsNoItemStart(ps[..|ps| - 1]);
      ParagraphNoItemStart(ps[|ps| - 1]);
      NoItemStartAppend(ParagraphsHtml(ps[..|ps| - 1]), Paragraph(ps[|ps| - 1]));
    }
  }

  /** A prefix in which no "<li>" starts adds no occurrence. */
  lemma {:induction false} OccurrencesAfter(a: string, b: string, p: string)
    requires NoItemStart(a) && p == "<li>"
    ensures Occurrences(a + b, p) == Occurrences(b, p)
    decreases |a|
  {
    if a != [] {
      var s := a + b;
      assert p[0] == '<' && p[1] == 'l' && |p| == 4;
      if |s| >= |p| {
        if a[0] != '<' {
          assert s[..|p|][0] != p[0];
        } else {
          assert s[1] == a[1];
          assert s[..|p|][1] != p[1];
        }
      }
      assert !StartsWith(s, p);
      assert Occurrences(s, p) == Occurrences(s[1..], p);
      assert s[1..] == a[1..] + b;
      assert NoItemStart(a[1..]) by {
        forall i | 0 <= i < |a[1..]| && a[1..][i] == '<' ensures i + 1 < |a[1..]| && a[1..][i + 1] != 'l' {
          assert a[i + 1] == '<';
        }
      }
      OccurrencesAfter(a[1..], b, p);
    } else {
      assert a + b == b;
    }
  }

  lemma NoOccurrences(a: string)
    requires NoItemStart(a)
    ensures Occurrences(a, "<li>") == 0
  {
    OccurrencesAfter(a, [], "<li>");
    assert a + [] == a;
  }

  lemma NoMarkupNoItemStart(t: string)
    requires NoMarkup(t)
    ensures NoItemStart(t)
  {
  }

  /** A list of one item holds one "<li>" when the item carries no markup. */
  lemma ItemListHasOneItem(item: string)
    requires NoMarkup(item)
    ensures Occurrences(ItemList(item), "<li>") == 1
  {
    var tail := item + "</li></ul>";
    NoMarkupNoItemStart(item);
    assert NoItemStart("</li></ul>");
    NoItemStartAppend(item, "</li></ul>");
    assert NoItemStart("li>");
    NoItemStartAppend("li>", tail);
    NoOccurrences("li>" + tail);
    var li := "<li>" + tail;
    assert StartsWith(li, "<li>");
    assert li[1..] == "li>" + tail;
    assert Occurrences(li, "<li>") == 1;
    assert NoItemStart("<ul>");
    OccurrencesAfter("<ul>", li, "<li>");
  }

  lemma ActionListHasOneItem()
    ensures Occurrences(ActionList, "<li>") == 1
  {
    NoMarkupAppend("Take one simple action ", "that respects how you ");
    NoMarkupAppend("Take one simple action " + "that respects how you ", "feel right now.");
    ItemListHasOneItem(ActionItem);
  }

  lemma FixedSentencesHaveNoMarkup()
    ensures NoMarkup(CheckIn) && NoMarkup(GentleClose) && NoMarkup(ListeningClose)
  {
    NoMarkupAppend("Here's a gentle check-in ", "based on your latest ");
    NoMarkupAppend("Here's a gentle check-in " + "based on your latest ", "Oura data.");
    NoMarkupAppend("Keep looking after ", "yourself today.");
    NoMarkupAppend("Keep listening to ", "your body and make ");
    NoMarkupAppend("Keep listening to " + "your body and make ", "thoughtful adjustments ");
    NoMarkupAppend("Keep listening to " + "your body and make " + "thoughtful adjustments ", "as needed.");
  }

  /** Integer scores, as the Oura API reports them, carry no markup. */
  lemma IntegerScoreHasNoMarkup(i: int)
    ensures NoMarkup(Display(Raw(Int(i))))
  {
    var digits := NatToString(if i < 0 then -i else i);
    assert NoMarkup(digits);
    if i < 0 { NoMarkupAppend("-", digits); }
  }

  /** The fallback message opens with the check-in paragraph and ends with
      the action list; when the scores it quotes carry no markup it holds
      exactly one list item. */
  lemma FallbackMessageShape(s: Summary)
    requires NoMarkup(Display(Lookup(s, "readiness_score"))) && NoMarkup(Display(Lookup(s, "sleep_score")))
    ensures StartsWith(FallbackMessage(s), Paragraph(CheckIn))
    ensures FallbackMessage(s)[|FallbackMessage(s)| - |ActionList|..] == ActionList
    ensures Occurrences(FallbackMessage(s), "<li>") == 1
  {
    var ps := FallbackParagraphs(s);
    ParagraphsHaveNoMarkup(s);
    ParagraphsNoItemStart(ps);
    OccurrencesAfter(ParagraphsHtml(ps), ActionList, "<li>");
    ActionListHasOneItem();
    FirstParagraph(ps);
    var html := ParagraphsHtml(ps);
    assert (html + ActionList)[..|Paragraph(CheckIn)|] == html[..|Paragraph(CheckIn)|];
  }

  /** Quoting scores without markup leaves every paragraph without markup. */
  lemma ParagraphsHaveNoMarkup(s: Summary)
    requires NoMarkup(Display(Lookup(s, "readiness_score"))) && NoMarkup(Display(Lookup(s, "sleep_score")))
    ensures forall k :: 0 <= k < |FallbackParagraphs(s)| ==> NoMarkup(FallbackParagraphs(s)[k])
  {
    FixedSentencesHaveNoMarkup();
    var rd := Display(Lookup(s, "readiness_score"));
    var sd := Display(Lookup(s, "sleep_score"));
    NoMarkupAppend("Readiness score: ", rd);
    NoMarkupAppend("Readiness score: " + rd, ".");
    NoMarkupAppend("Sleep score: ", sd);
    NoMarkupAppend("Sleep score: " + sd, ".");
  }

  lemma {:induction false} FirstParagraph(ps: seq<string>)
    requires ps != []
    ensures StartsWith(ParagraphsHtml(ps), Paragraph(ps[0]))
    decreases |ps|
  {
    if |ps| > 1 {
      var init := ps[..|ps| - 1];
      FirstParagraph(init);
      assert init[0] == ps[0];
      var h := ParagraphsHtml(init);
      assert (h + Paragraph(ps[|ps| - 1]))[..|Paragraph(ps[0])|] == h[..|Paragraph(ps[0])|];
    } else {
      assert ps[..0] == [];
      assert ParagraphsHtml(ps) == "" + Paragraph(ps[0]);
    }
  }

  /** Readiness 80 and sleep 70 give both score sentences and one list item. */
  lemma FallbackExample()
    ensures var s := map["readiness_score" := Raw(Int(80)), "sleep_score" := Raw(Int(70))];
      && FallbackParagraphs(s) == [CheckIn, "Readiness score: 80.", "Sleep score: 70.", ListeningClose]
      && Occurrences(FallbackMessage(s), "<li>") == 1
  {
    var s := map["readiness_score" := Raw(Int(80)), "sleep_score" := Raw(Int(70))];
    assert NatToString(80) == "80" && NatToString(70) == "70";
    assert Lookup(s, "readiness_score") == Raw(Int(80)) && Lookup(s, "sleep_score") == Raw(Int(70));
    assert ReadinessSentence(Raw(Int(80))) == "Readiness score: 80.";
    assert SleepSentence(Raw(Int(70))) == "Sleep score: 70.";
    IntegerScoreHasNoMarkup(80);
    IntegerScoreHasNoMarkup(70);
    FallbackMessageShape(s);
  }

  // ---------------------------------------------------------------------------
  // Payload and cache

  /** The payload of a build: the generated text, or the fallback message
      when the generator returned nothing. */
  function ComposePayload(target: Date, resolved: Date, text: string, summary: Summary, m: DailyMetrics,
                          zone: string, alias: Option<string>): Payload
  {
    Payload(target, resolved, if text == "" then FallbackMessage(summary) else text, summary, m, zone,
            if Given(alias) then Client else Configured)
  }

  /** The payload records the requested and the resolved day and the zone
      key; its source is "client" exactly when an alias was given; its
      message is never empty. */
  lemma PayloadFields(target: Date, resolved: Date, text: string, summary: Summary, m: DailyMetrics,
                      zone: string, alias: Option<string>)
    ensures var p := ComposePayload(target, resolved, text, summary, m, zone, alias);
      && p.requestedDate == target && p.resolvedDate == resolved && p.timezone == zone
      && (p.timezoneSource == Client <==> Given(alias))
      && p.message != ""
      && (text != "" ==> p.message == text)
      && p.summary == summary && p.metrics == m
  {
  }

  /** Storing a built payload: both keys hold the new entry, no other key changes. */
  lemma StoreEffect(cache: map<CacheKey, CachedMessage>, zone: string, target: Date, resolved: Date, entry: CachedMessage)
    ensures var c := cache[CacheKey(zone, resolved) := entry][CacheKey(zone, target) := entry];
      && c[CacheKey(zone, resolved)] == entry && c[CacheKey(zone, target)] == entry
      && c.Keys == cache.Keys + {CacheKey(zone, resolved), CacheKey(zone, target)}
      && forall k :: k in cache && k != CacheKey(zone, resolved) && k != CacheKey(zone, target) ==> c[k] == cache[k]
  {
  }

  lemma RewriteIsNoChange(cache: map<CacheKey, CachedMessage>, key: CacheKey, entry: CachedMessage)
    requires key in cache && cache[key] == entry
    ensures cache[key := entry] == cache
  {
  }

  // ---------------------------------------------------------------------------
  // Collaborators and the service

  /** What the generator client returns: the reply's content, stripped. */
  function Generated(reply: seq<PromptBlock> -> Result<string, Error>, prompt: seq<PromptBlock>): Result<string, Error>
  {
    match reply(prompt)
    case Ok(text) => Ok(Strip(text))
    case Err(e) => Err(e)
  }

  /** The text generator; `reply` is the chat completion for a prompt, and
      `prompts` records the prompts sent, for the specification only. */
  class TextGenerator {
    const reply: seq<PromptBlock> -> Result<string, Error>
    ghost var prompts: seq<seq<PromptBlock>>

    constructor(reply: seq<PromptBlock> -> Result<string, Error>)
      ensures this.reply == reply && prompts == []
    {
      this.reply := reply;
      prompts := [];
    }

    method GenerateDailyMessage(prompt: seq<PromptBlock>) returns (r: Result<string, Error>)
      modifies this`prompts
      ensures r == Generated(reply, prompt)
      ensures prompts == old(prompts) + [prompt]
    {
      r := Generated(reply, prompt);
      prompts := prompts + [prompt];
    }
  }

  class DailyMessageService {
    const config: Settings
    const oura: OuraClient
    const generator: TextGenerator
    var cache: map<CacheKey, CachedMessage>

    constructor(config: Settings, oura: OuraClient, generator: TextGenerator)
      ensures this.config == config && this.oura == oura && this.generator == generator
      ensures cache == map[]
    {
      this.config := config;
      this.oura := oura;
      this.generator := generator;
      cache := map[];
    }

    /** `_fetch_metrics_with_fallback` */
    method FetchMetricsWithFallback(target: Date) returns (r: ScanOutcome)
      modifies oura`requests
      ensures r == Scan(oura.api, target, Window(config.dataFallbackDays))
      ensures oura.requests == old(oura.requests) + ScanRequests(target, Stop(oura.api, target, Window(config.dataFallbackDays)))
    {
      var window := Window(config.dataFallbackDays);
      var lastError: Option<Error> := None;
      var offset := 0;
      while offset <= window
        invariant 0 <= offset <= window + 1
        invariant ScanFrom(oura.api, target, window, offset, lastError) == Scan(oura.api, target, window)
        invariant StopFrom(oura.api, target, window, offset) == Stop(oura.api, target, window)
        invariant oura.requests == old(oura.requests) + ScanRequests(target, offset)
        decreases window + 1 - offset
      {
        var candidate := target.Minus(offset);
        var fetched := oura.FetchDailyMetrics(candidate);
        ScanStep(oura.api, target, window, offset, lastError);
        assert fetched == Attempt(oura.api, target, offset);
        AppendAssoc(old(oura.requests), ScanRequests(target, offset), DayRequests(candidate));
        if fetched.Err? {
          lastError := Some(fetched.error);
        } else if HasData(fetched.value) {
          return Found(fetched.value, candidate);
        }
        offset := offset + 1;
      }
      r := Exhausted(if lastError.Some? then lastError.value else NoDataError);
    }

    /** The miss path of `build_daily_message`: scan, summarise, generate,
        fall back to the fixed message on a blank reply, and cache the payload
        under the resolved day and the requested day. */
    method BuildFresh(target: Date, zone: string, tzAlias: Option<string>, now: Instant)
      returns (r: Result<Payload, Error>)
      modifies this`cache, oura`requests, generator`prompts
      ensures var window := Window(config.dataFallbackDays);
        oura.requests == old(oura.requests) + ScanRequests(target, Stop(oura.api, target, window))
      ensures var scan := Scan(oura.api, target, Window(config.dataFallbackDays));
        scan.Exhausted? ==> r == Err(scan.error) && cache == old(cache) && generator.prompts == old(generator.prompts)
      ensures var scan := Scan(oura.api, target, Window(config.dataFallbackDays));
        scan.Found? ==>
          var summary := SummaryOf(scan.metrics);
          var prompt := BuildPrompt(scan.metrics, summary, scan.day);
          var text := Generated(generator.reply, prompt);
          && generator.prompts == old(generator.prompts) + [prompt]
          && (text.Err? ==> r == Err(text.error) && cache == old(cache))
          && (text.Ok? ==>
                var p := ComposePayload(target, scan.day, text.value, summary, scan.metrics, zone, tzAlias);
                && r == Ok(p)
                && cache == old(cache)[CacheKey(zone, scan.day) := CachedMessage(p, now)][CacheKey(zone, target) := CachedMessage(p, now)])
    {
      var scan := FetchMetricsWithFallback(target);
      if scan.Exhausted? {
        return Err(scan.error);
      }
      var summary := SummariseMetrics(scan.metrics);
      var prompt := BuildPrompt(scan.metrics, summary, scan.day);
      var text := generator.GenerateDailyMessage(prompt);
      if text.Err? {
        return Err(text.error);
      }
      var message := text.value;
      if message == "" {
        message := BuildFallbackMessage(summary);
      }
      var payload := Payload(target, scan.day, message, summary, scan.metrics, zone,
                             if Given(tzAlias) then Client else Configured);
      assert payload == ComposePayload(target, scan.day, text.value, summary, scan.metrics, zone, tzAlias);
      var entry := CachedMessage(payload, now);
      var resolvedKey := CacheKey(zone, scan.day);
      var requestKey := CacheKey(zone, target);
      ghost var stored := cache[resolvedKey := entry][requestKey := entry];
      cache := cache[resolvedKey := entry];
      if requestKey != resolvedKey {
        cache := cache[requestKey := entry];
      } else {
        RewriteIsNoChange(cache, requestKey, entry);
      }
      assert cache == stored;
      r := Ok(payload);
    }

    /** `build_daily_message`. `now` is the current instant, `zones` the zone
        database and `localDate(zone, now)` the day of `now` in a zone. */
    method BuildDailyMessage(targetDate: Option<Date>, tzAlias: Option<string>, now: Instant,
                             zones: string -> ZoneStatus, localDate: (string, Instant) -> Date)
      returns (r: Result<Payload, Error>)
      modifies this`cache, oura`requests, generator`prompts
      // a malformed zone key raises before anything else happens
      ensures ResolveZone(tzAlias, config.appTimezone, zones).Err? ==>
        && r == Err(ResolveZone(tzAlias, config.appTimezone, zones).error)
        && cache == old(cache) && oura.requests == old(oura.requests) && generator.prompts == old(generator.prompts)
      // a fresh entry is returned as it is, with no fetch and no generation
      ensures ResolveZone(tzAlias, config.appTimezone, zones).Ok? ==>
        var zone := ResolveZone(tzAlias, config.appTimezone, zones).value;
        var target := if targetDate.Some? then targetDate.value else localDate(zone, now);
        Hit(old(cache), CacheKey(zone, target), config.cacheTtlMinutes, now) ==>
          && r == Ok(old(cache)[CacheKey(zone, target)].payload)
          && cache == old(cache) && oura.requests == old(oura.requests) && generator.prompts == old(generator.prompts)
      // otherwise the payload is built afresh for the zone key and the target day
      ensures ResolveZone(tzAlias, config.appTimezone, zones).Ok? ==>
        var zone := ResolveZone(tzAlias, config.appTimezone, zones).value;
        var target := if targetDate.Some? then targetDate.value else localDate(zone, now);
        var window := Window(config.dataFallbackDays);
        var scan := Scan(oura.api, target, window);
        !Hit(old(cache), CacheKey(zone, target), config.cacheTtlMinutes, now) ==>
          && oura.requests == old(oura.requests) + ScanRequests(target, Stop(oura.api, target, window))
          && (scan.Exhausted? ==> r == Err(scan.error) && cache == old(cache) && generator.prompts == old(generator.prompts))
          && (scan.Found? ==>
                var summary := SummaryOf(scan.metrics);
                var prompt := BuildPrompt(scan.metrics, summary, scan.day);
                var text := Generated(generator.reply, prompt);
                && generator.prompts == old(generator.prompts) + [prompt]
                && (text.Err? ==> r == Err(text.error) && cache == old(cache))
                && (text.Ok? ==>
                      var p := ComposePayload(target, scan.day, text.value, summary, scan.metrics, zone, tzAlias);
                      && r == Ok(p)
                      && cache == old(cache)[CacheKey(zone, scan.day) := CachedMessage(p, now)][CacheKey(zone, target) := CachedMessage(p, now)]))
    {
      var zoneResult := ResolveZone(tzAlias, config.appTimezone, zones);
      if zoneResult.Err? {
        return Err(zoneResult.error);
      }
      var zone := zoneResult.value;
      var today := localDate(zone, now);
      var target := if targetDate.Some? then targetDate.value else today;
      var cacheKey := CacheKey(zone, target);
      if cacheKey in cache && !Expired(config.cacheTtlMinutes, cache[cacheKey].createdAt, now) {
        return Ok(cache[cacheKey].payload);
      }
      r := BuildFresh(target, zone, tzAlias, now);
    }
  }

  /** On a service with an empty cache, a request for a day repeated before
      the TTL has run out returns the very payload of the first request,
      served from the cache: only the first request fetches (one scan) and
      generates (one prompt). */
  method RepeatedRequestIsServedFromCache(service: DailyMessageService, day: Date, tzAlias: Option<string>,
                                          now: Instant, later: Instant,
                                          zones: string -> ZoneStatus, localDate: (string, Instant) -> Date)
      returns (first: Result<Payload, Error>, second: Result<Payload, Error>)
    requires service.cache == map[]
    requires now <= later < now + service.config.cacheTtlMinutes * 60
    modifies service, service.oura, service.generator
    ensures first.Ok? ==> second == first
    ensures first.Ok? ==>
      var window := Window(service.config.dataFallbackDays);
      var scan := Scan(service.oura.api, day, window);
      && service.oura.requests == old(service.oura.requests) + ScanRequests(day, Stop(service.oura.api, day, window))
      && scan.Found?
      && service.generator.prompts == old(service.generator.prompts) + [BuildPrompt(scan.metrics, SummaryOf(scan.metrics), scan.day)]
  {
    first := service.BuildDailyMessage(Some(day), tzAlias, now, zones, localDate);
    ghost var requests, prompts := service.oura.requests, service.generator.prompts;
    second := service.BuildDailyMessage(Some(day), tzAlias, later, zones, localDate);
    if first.Ok? {
      assert service.oura.requests == requests && service.generator.prompts == prompts;
    }
  }
}
