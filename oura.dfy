/** The Oura API client (app/clients/oura.py): the three daily endpoints
    queried for one day, the shaping of their responses into the daily
    metrics record, and the masking of the bearer token in the debug log.
    The HTTP call itself (token provider, request, `raise_for_status`) is
    the client's `api` function. */
module Oura {
  import opened Common

  /** One entry of a response's `data` list: a JSON object. */
  type Record = map<string, Value>

  /** Python's `bool(x)` for an `Optional[dict]`: present and non-empty. */
  predicate Present(r: Option<Record>)
  {
    r.Some? && |r.value| > 0
  }

  /** OuraDailyMetrics: the first entry of each of the three collections, if any. */
  datatype DailyMetrics = DailyMetrics(readiness: Option<Record>, sleep: Option<Record>, activity: Option<Record>)

  /** A decoded response body; `data` is None when the body has no `data` member. */
  datatype Response = Response(data: Option<seq<Record>>)

  datatype Endpoint = DailyReadiness | DailySleep | DailyActivity {
    function Path(): string
    {
      match this
      case DailyReadiness => "/usercollection/daily_readiness"
      case DailySleep => "/usercollection/daily_sleep"
      case DailyActivity => "/usercollection/daily_activity"
    }
  }

  /** Query parameters, with dates standing for their ISO rendering. */
  type Params = map<string, Date>

  /** A GET of an endpoint for a range of days. */
  datatype Request = Request(endpoint: Endpoint, startDate: Date, endDate: Date) {
    function Query(): (p: Params)
      ensures p.Keys == {"start_date", "end_date"}
      ensures p["start_date"] == startDate && p["end_date"] == endDate
    {
      map["start_date" := startDate, "end_date" := endDate]
    }
  }

  const BaseUrl := "https://api.ouraring.com/v2"
  const MaskLength := 6

  /** `_first_entry`: the first element of `data`, or None when it is missing or empty. */
  function FirstEntry(payload: Response): (r: Option<Record>)
    ensures payload.data.None? ==> r.None?
    ensures payload.data.Some? && payload.data.value == [] ==> r.None?
    ensures payload.data.Some? && payload.data.value != [] ==> r == Some(payload.data.value[0])
  {
    match payload.data
    case None => None
    case Some(items) => if items == [] then None else Some(items[0])
  }

  /** The token as it appears in the debug log. */
  function Mask(token: string): (m: string)
    ensures |token| > MaskLength ==> m == token[..MaskLength] + "..."
    ensures |token| <= MaskLength ==> m == "***"
  {
    if |token| > MaskLength then token[..MaskLength] + "..." else "***"
  }

  /** The log reveals at most the first six characters of a token: tokens
      that agree there, and are both long or both short, are logged alike. */
  lemma MaskRevealsOnlyPrefix(a: string, b: string)
    requires (|a| > MaskLength) == (|b| > MaskLength)
    requires |a| > MaskLength ==> a[..MaskLength] == b[..MaskLength]
    ensures Mask(a) == Mask(b)
    ensures |Mask(a)| <= MaskLength + 3
  {
  }

  /** The requests of one call of `fetch_daily_metrics`, in the order of the gather. */
  function DayRequests(day: Date): (rs: seq<Request>)
    ensures |rs| == 3
    ensures forall i :: 0 <= i < 3 ==> rs[i].startDate == rs[i].endDate == day
    ensures rs[0].endpoint == DailyReadiness && rs[1].endpoint == DailySleep && rs[2].endpoint == DailyActivity
  {
    [Request(DailyReadiness, day, day), Request(DailySleep, day, day), Request(DailyActivity, day, day)]
  }

  /** What `fetch_daily_metrics` returns or raises for a day, given the result
      of each GET. The first failing request, in the order of the gather,
      gives the error. */
  function DailyMetricsFor(api: Request -> Result<Response, Error>, day: Date): Result<DailyMetrics, Error>
  {
    var readiness := api(Request(DailyReadiness, day, day));
    var sleep := api(Request(DailySleep, day, day));
    var activity := api(Request(DailyActivity, day, day));
    if readiness.Err? then Err(readiness.error)
    else if sleep.Err? then Err(sleep.error)
    else if activity.Err? then Err(activity.error)
    else Ok(DailyMetrics(FirstEntry(readiness.value), FirstEntry(sleep.value), FirstEntry(activity.value)))
  }

  /** Errors of the HTTP layer (status errors included) are never swallowed:
      the fetch fails exactly when one of its requests does, and then with
      the error of one of them; otherwise each field is the first entry of
      its own response. */
  lemma FetchOutcome(api: Request -> Result<Response, Error>, day: Date)
    ensures var r := DailyMetricsFor(api, day); var rs := DayRequests(day);
      && (r.Err? <==> exists i :: 0 <= i < 3 && api(rs[i]).Err?)
      && (r.Err? ==> exists i :: 0 <= i < 3 && api(rs[i]) == Err(r.error))
      && (r.Ok? ==> r.value == DailyMetrics(FirstEntry(api(rs[0]).value), FirstEntry(api(rs[1]).value),
                                            FirstEntry(api(rs[2]).value)))
  {
    var rs := DayRequests(day);
    var r := DailyMetricsFor(api, day);
    if r.Err? {
      if api(rs[0]).Err? {
        assert api(rs[0]) == Err(r.error);
      } else if api(rs[1]).Err? {
        assert api(rs[1]) == Err(r.error);
      } else {
        assert api(rs[2]) == Err(r.error);
      }
    }
  }

  /** The client. `api` performs one authenticated GET (obtaining the token,
      sending the request, raising on an error status) and decodes the body;
      `requests` records the requests sent, for the specification only. */
  class OuraClient {
    const api: Request -> Result<Response, Error>
    ghost var requests: seq<Request>

    constructor(api: Request -> Result<Response, Error>)
      ensures this.api == api && requests == []
    {
      this.api := api;
      requests := [];
    }

    /** `_get` */
    method Get(request: Request) returns (r: Result<Response, Error>)
      modifies this`requests
      ensures r == api(request)
      ensures requests == old(requests) + [request]
    {
      r := api(request);
      requests := requests + [request];
    }

    /** `fetch_daily_metrics`: all three requests are sent, then the result is shaped. */
    method FetchDailyMetrics(day: Date) returns (r: Result<DailyMetrics, Error>)
      modifies this`requests
      ensures r == DailyMetricsFor(api, day)
      ensures requests == old(requests) + DayRequests(day)
    {
      var readiness := Get(Request(DailyReadiness, day, day));
      var sleep := Get(Request(DailySleep, day, day));
      var activity := Get(Request(DailyActivity, day, day));
      if readiness.Err? {
        r := Err(readiness.error);
      } else if sleep.Err? {
        r := Err(sleep.error);
      } else if activity.Err? {
        r := Err(activity.error);
      } else {
        r := Ok(DailyMetrics(FirstEntry(readiness.value), FirstEntry(sleep.value), FirstEntry(activity.value)));
      }
    }
  }
}
