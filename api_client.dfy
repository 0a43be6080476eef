/** The client's request wrapper: how an HTTP response and its `{success, data, error}`
    envelope become either the payload or an `ApiError`, and the URLs the player and
    match services request.  The network call itself is an abstract outcome. */
module ApiClient {
  import opened Wrappers
  import opened Strings
  import ConfigApi

  /** A value thrown in JavaScript: an `ApiError` (message and optional status), another
      `Error` (message, and a status some callers attach), or anything that is not an
      `Error`. */
  datatype Thrown =
    | ApiErrorValue(message: string, status: Option<int>)
    | JsError(message: string, status: Option<int>)
    | NonError

  /** The JSON envelope the backend sends. */
  datatype Envelope<T> = Envelope(success: bool, data: T, error: Option<string>)

  /** What reading the body as JSON gave. */
  datatype JsonOutcome<T> = Parsed(envelope: Envelope<T>) | JsonThrew(jsonError: Thrown)

  /** What the request gave: a response (status, status text, body), or a thrown value. */
  datatype FetchOutcome<T> =
    | Responded(status: int, statusText: string, body: JsonOutcome<T>)
    | FetchThrew(fetchError: Thrown)

  /** `response.ok`: a status in 200..299. */
  predicate IsOk(status: int) { 200 <= status <= 299 }

  /** The catch clause: an `ApiError` passes unchanged, another `Error` keeps only its
      message, anything else becomes "Unknown API error". */
  function Rewrap(e: Thrown): (r: Thrown)
    ensures r.ApiErrorValue?
    ensures e.ApiErrorValue? ==> r == e
    ensures e.JsError? ==> r == ApiErrorValue(e.message, None)
    ensures e.NonError? ==> r == ApiErrorValue("Unknown API error", None)
  {
    match e
    case ApiErrorValue(_, _) => e
    case JsError(m, _) => ApiErrorValue(m, None)
    case NonError => ApiErrorValue("Unknown API error", None)
  }

  /** The message of a non-ok response. */
  function StatusMessage(status: int, statusText: string): string {
    "API request failed: " + IntToString(status) + " " + statusText
  }

  /** `apiRequest`: the payload of a successful envelope, or the `ApiError` that the
      wrapper throws. */
  function ApiRequest<T>(outcome: FetchOutcome<T>): (r: Result<T, Thrown>)
    // every failure surfaces as an ApiError
    ensures r.Err? ==> r.error.ApiErrorValue?
    ensures r.Ok? <==> outcome.Responded? && IsOk(outcome.status) && outcome.body.Parsed?
                       && outcome.body.envelope.success
    ensures r.Ok? ==> r.value == outcome.body.envelope.data
    ensures outcome.Responded? && !IsOk(outcome.status) ==>
      r == Err(ApiErrorValue(StatusMessage(outcome.status, outcome.statusText), Some(outcome.status)))
    ensures outcome.Responded? && IsOk(outcome.status) && outcome.body.Parsed? && !outcome.body.envelope.success ==>
      r == Err(ApiErrorValue(
        var err := outcome.body.envelope.error;
        if err.Some? && err.value != [] then err.value else "API request failed", None))
    ensures outcome.FetchThrew? ==> r == Err(Rewrap(outcome.fetchError))
  {
    match outcome
    case FetchThrew(e) => Err(Rewrap(e))
    case Responded(status, statusText, body) =>
      if !IsOk(status) then
        Err(ApiErrorValue(StatusMessage(status, statusText), Some(status)))
      else
        match body
        case JsonThrew(e) => Err(Rewrap(e))
        case Parsed(env) =>
          if !env.success then
            Err(ApiErrorValue(if env.error.Some? && env.error.value != [] then env.error.value
                              else "API request failed", None))
          else Ok(env.data)
  }

  /** An error status is only ever attached by a non-ok response, or by an `ApiError` that
      the request itself threw. */
  lemma StatusOnlyFromResponse<T>(outcome: FetchOutcome<T>)
    requires ApiRequest(outcome).Err? && ApiRequest(outcome).error.status.Some?
    ensures (outcome.Responded? && !IsOk(outcome.status)
             && ApiRequest(outcome).error.status == Some(outcome.status))
         || (outcome.FetchThrew? && outcome.fetchError.ApiErrorValue?)
         || (outcome.Responded? && outcome.body.JsonThrew? && outcome.body.jsonError.ApiErrorValue?)
  {
  }

  /** `getErrorMessage`: the message of an `ApiError` or `Error`, or a fixed text. */
  function ErrorMessage(e: Thrown): (m: string)
    ensures !e.NonError? ==> m == e.message
    ensures e.NonError? ==> m == "An unexpected error occurred"
  {
    match e
    case ApiErrorValue(m, _) => m
    case JsError(m, _) => m
    case NonError => "An unexpected error occurred"
  }

  /** Re-wrapping keeps the message of every `Error` and is idempotent. */
  lemma RewrapKeepsMessage(e: Thrown)
    ensures !e.NonError? ==> ErrorMessage(Rewrap(e)) == ErrorMessage(e)
    ensures Rewrap(Rewrap(e)) == Rewrap(e)
  {
  }

  /** The query string `?region=<r>` that every service URL carries first. */
  function RegionQuery(region: string): string { "?region=" + region }

  /** `getPlayerInfo`'s URL. */
  function PlayerInfoUrl(baseUrl: string, name: string, tag: string, region: string): string {
    ConfigApi.ApiUrl(baseUrl, ConfigApi.EndpointPath(ConfigApi.Player(name, tag))) + RegionQuery(region)
  }

  /** `getAccountInfo`'s URL. */
  function AccountInfoUrl(baseUrl: string, name: string, tag: string, region: string): string {
    ConfigApi.ApiUrl(baseUrl, ConfigApi.EndpointPath(ConfigApi.Account(name, tag))) + RegionQuery(region)
  }

  /** Within one base URL, the player URL determines the name, tag and region when the
      name holds no "/" and neither name nor tag holds a "?". */
  lemma PlayerInfoUrlInjective(baseUrl: string, n: string, t: string, r: string,
                               n2: string, t2: string, r2: string)
    requires '/' !in n && '/' !in n2
    requires '?' !in n && '?' !in t && '?' !in n2 && '?' !in t2
    requires PlayerInfoUrl(baseUrl, n, t, r) == PlayerInfoUrl(baseUrl, n2, t2, r2)
    ensures n == n2 && t == t2 && r == r2
  {
    var p := ConfigApi.EndpointPath(ConfigApi.Player(n, t));
    var p2 := ConfigApi.EndpointPath(ConfigApi.Player(n2, t2));
    var u := PlayerInfoUrl(baseUrl, n, t, r);
    assert '?' !in p by {
      assert p == "/player/" + n + "/" + t;
    }
    assert '?' !in p2 by {
      assert p2 == "/player/" + n2 + "/" + t2;
    }
    assert u[|baseUrl|..] == p + ['?'] + ("region=" + r);
    assert u[|baseUrl|..] == p2 + ['?'] + ("region=" + r2);
    FirstSeparatorDetermined(p, "region=" + r, p2, "region=" + r2, '?');
    assert r == ("region=" + r)[7..];
    ConfigApi.EndpointPathInjective(ConfigApi.Player(n, t), ConfigApi.Player(n2, t2));
  }

  /** `getMatchHistory`'s URL: the history path (supplied by the caller) with region, start
      and count in that order; an omitted start is 0 and an omitted count is 10. */
  function MatchHistoryUrl(baseUrl: string, historyPath: string, region: string,
                           start: Option<int>, count: Option<int>): string
  {
    ConfigApi.ApiUrl(baseUrl, historyPath) + RegionQuery(region)
    + "&start=" + IntToString(start.GetOr(0)) + "&count=" + IntToString(count.GetOr(10))
  }

  /** Omitting start and count is the same as asking for the first ten matches. */
  lemma MatchHistoryDefaults(baseUrl: string, historyPath: string, region: string)
    ensures MatchHistoryUrl(baseUrl, historyPath, region, None, None)
         == MatchHistoryUrl(baseUrl, historyPath, region, Some(0), Some(10))
  {
  }

  /** `getMatchDetails`'s URL, from the match path supplied by the caller. */
  function MatchDetailsUrl(baseUrl: string, matchPath: string, region: string): string {
    ConfigApi.ApiUrl(baseUrl, matchPath) + RegionQuery(region)
  }
}
