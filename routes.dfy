/** The backend's HTTP routes: each runs its service, wraps a result in the success
    envelope and turns an exception into an HTTP error with a status and a detail.  The
    client's answer is a parameter; it only matters once the service's guard passes. */
module Routes {
  import opened Wrappers
  import opened RiotExceptions
  import RiotClient
  import Services
  import MatchTypes

  /** `ApiResponse`: the success flag, the payload, an error message and a status code. */
  datatype ApiResponse<T> = ApiResponse(success: bool, data: Option<T>, error: Option<string>, statusCode: Option<int>)

  /** `HTTPException(status_code, detail)`. */
  datatype HttpError = HttpError(status: int, detail: string)

  /** What a route does: send an envelope, raise an HTTP error, or (before the handler
      runs) have FastAPI reject a query parameter outside its declared bounds. */
  datatype Reply<T> = Sent(body: ApiResponse<T>) | Raised(error: HttpError) | QueryRejected(status: int)

  /** The detail of every failure that is not a Riot exception. */
  const InternalError := "Internal server error"

  /** The status FastAPI sends for query parameters outside their declared bounds. */
  const UnprocessableEntity := 422

  /** A failure reaching a route: a Riot exception, or any other exception (a service's
      `ValueError`, the client's unsupported-region `ValueError`) with its message. */
  datatype Failure = RiotFailure(exception: RiotException) | OtherFailure(message: string)

  function FromClient(e: RiotClient.ClientError): (f: Failure)
    ensures e.Riot? <==> f.RiotFailure?
    ensures e.Riot? ==> f.exception == e.exception
    ensures e.ValueError? ==> f.message == e.message
  {
    match e
    case Riot(x) => RiotFailure(x)
    case ValueError(m) => OtherFailure(m)
  }

  /** Python's `code or 500`: a missing or zero status becomes 500. */
  function StatusOr500(code: Option<int>): (status: int)
    ensures status != 0
    ensures status == 500 || (code.Some? && status == code.value)
    ensures code.Some? && code.value != 0 ==> status == code.value
  {
    if code.Some? && code.value != 0 then code.value else 500
  }

  /** The account and player routes' `except` clauses, in order: not found 404, API key
      403, rate limit 429, any other Riot exception its status code or 500, anything else
      500 with a fixed detail. */
  function AccountRouteError(f: Failure): (h: HttpError)
    ensures f.OtherFailure? ==> h == HttpError(500, InternalError)
    ensures f.RiotFailure? ==> h.detail == Message(f.exception)
    ensures f.RiotFailure? && f.exception.AccountNotFound? ==> h.status == 404
    ensures f.RiotFailure? && f.exception.ApiKey? ==> h.status == 403
    ensures f.RiotFailure? && f.exception.RateLimit? ==> h.status == 429
    ensures f.RiotFailure? && f.exception.ServiceUnavailable? ==> h.status == 503
    ensures f.RiotFailure? && f.exception.RiotApi? ==> h.status == StatusOr500(f.exception.code)
  {
    match f
    case OtherFailure(_) => HttpError(500, InternalError)
    case RiotFailure(e) =>
      match e
      case AccountNotFound(_, _) => HttpError(404, Message(e))
      case ApiKey => HttpError(403, Message(e))
      case RateLimit => HttpError(429, Message(e))
      case _ => HttpError(StatusOr500(StatusCode(e)), Message(e))
  }

  /** The other four routes' `except` clauses: any Riot exception its status code or
      500, anything else 500 with a fixed detail. */
  function GenericRouteError(f: Failure): (h: HttpError)
    ensures f.OtherFailure? ==> h == HttpError(500, InternalError)
    ensures f.RiotFailure? ==> h.detail == Message(f.exception)
    ensures f.RiotFailure? ==> h.status == StatusOr500(StatusCode(f.exception))
  {
    match f
    case OtherFailure(_) => HttpError(500, InternalError)
    case RiotFailure(e) => HttpError(StatusOr500(StatusCode(e)), Message(e))
  }

  /** The explicit clauses of the account routes change nothing: every route answers a
      failure alike, a Riot exception with the status code it carries. */
  lemma RouteErrorsAgree(f: Failure)
    ensures AccountRouteError(f) == GenericRouteError(f)
    ensures f.RiotFailure? && !f.exception.RiotApi? ==>
              AccountRouteError(f).status == StatusCode(f.exception).value
  {
  }

  /** A route never sends the status 0 and never leaks a non-Riot message. */
  lemma RouteErrorShape(f: Failure)
    ensures GenericRouteError(f).status != 0
    ensures f.OtherFailure? ==> GenericRouteError(f).detail == InternalError
  {
  }

  /** The success envelope. */
  function Success<T>(data: T): (body: ApiResponse<T>)
    ensures body.success && body.data == Some(data)
    ensures body.error.None? && body.statusCode.None?
  {
    ApiResponse(true, Some(data), None, None)
  }

  /** A route's answer once its service has run: the envelope, or the HTTP error of the
      failure. */
  function Respond<T>(result: Result<T, Failure>, accountRoute: bool): (reply: Reply<T>)
    ensures reply.Sent? <==> result.Ok?
    ensures !reply.QueryRejected?
    ensures result.Ok? ==> reply.body == Success(result.value)
    ensures result.Err? ==> reply.error == GenericRouteError(result.error)
  {
    match result
    case Ok(data) => Sent(Success(data))
    case Err(f) =>
      RouteErrorsAgree(f);
      Raised(if accountRoute then AccountRouteError(f) else GenericRouteError(f))
  }

  /** The service's guard, then the client's answer. */
  function Served<T>(guard: Result<Services.Delegation, string>, client: Result<T, Failure>): (r: Result<T, Failure>)
    ensures guard.Err? ==> r == Err(OtherFailure(guard.error))
    ensures guard.Ok? ==> r == client
  {
    if guard.Err? then Err(OtherFailure(guard.error)) else client
  }

  function ClientResult<T>(r: Result<T, RiotClient.ClientError>): (s: Result<T, Failure>)
    ensures s.Ok? <==> r.Ok?
    ensures r.Ok? ==> s.value == r.value
    ensures r.Err? ==> s.error == FromClient(r.error)
  {
    match r
    case Ok(v) => Ok(v)
    case Err(e) => Err(FromClient(e))
  }

  /** The aggregate's result: only Riot exceptions. */
  function RiotResult<T>(r: Result<T, RiotException>): (s: Result<T, Failure>)
    ensures s.Ok? <==> r.Ok?
    ensures r.Ok? ==> s.value == r.value
    ensures r.Err? ==> s.error == RiotFailure(r.error)
  {
    match r
    case Ok(v) => Ok(v)
    case Err(e) => Err(RiotFailure(e))
  }

  /** `GET /account/{summoner_name}/{tag_line}`. */
  function GetAccountInfo(summonerName: string, tagLine: string, region: string,
                          client: Result<RiotClient.RiotAccount, RiotClient.ClientError>): (reply: Reply<RiotClient.RiotAccount>)
    ensures Services.GetAccountInfo(summonerName, tagLine, region).Err? ==> reply == Raised(HttpError(500, InternalError))
    ensures Services.GetAccountInfo(summonerName, tagLine, region).Ok? ==> reply == Respond(ClientResult(client), true)
  {
    var guard := Services.GetAccountInfo(summonerName, tagLine, region);
    if guard.Err? then Respond(Err(OtherFailure(guard.error)), true)
    else Respond(ClientResult(client), true)
  }

  /** `GET /player/{summoner_name}/{tag_line}`: the client's aggregate only raises Riot
      exceptions. */
  function GetCompletePlayerInfo(summonerName: string, tagLine: string, region: string,
                                 client: Result<RiotClient.CompleteInfo, RiotException>): (reply: Reply<RiotClient.CompleteInfo>)
    ensures Services.GetCompletePlayerInfo(summonerName, tagLine, region).Err? ==> reply == Raised(HttpError(500, InternalError))
    ensures Services.GetCompletePlayerInfo(summonerName, tagLine, region).Ok? ==> reply == Respond(RiotResult(client), true)
  {
    var guard := Services.GetCompletePlayerInfo(summonerName, tagLine, region);
    if guard.Err? then Respond(Err(OtherFailure(guard.error)), true)
    else Respond(RiotResult(client), true)
  }

  /** A player that the client cannot find is answered with 404 and the account's
      message, once the name and tag pass the guard. */
  lemma PlayerNotFoundIs404(summonerName: string, tagLine: string, region: string, name: string, tag: string)
    requires Services.NameTagError(summonerName, tagLine).None?
    ensures GetCompletePlayerInfo(summonerName, tagLine, region, Err(AccountNotFound(name, tag)))
            == Raised(HttpError(404, "Account not found: " + name + "#" + tag))
  {
  }

  /** `GET /summoner/puuid/{puuid}`. */
  function GetSummonerByPuuid(puuid: string, region: string,
                              client: Result<RiotClient.SummonerInfo, RiotClient.ClientError>): (reply: Reply<RiotClient.SummonerInfo>)
    ensures |puuid| != 78 ==> reply == Raised(HttpError(500, InternalError))
    ensures |puuid| == 78 ==> reply == Respond(ClientResult(client), false)
  {
    Respond(Served(Services.GetSummonerByPuuid(puuid, region), ClientResult(client)), false)
  }

  /** Pydantic's message for a value that is not a dict. */
  const DictExpected := "value is not a valid dict"

  /** `ApiResponse(success=True, data=<list>)` as written: `data` is declared
      `Optional[dict]`, so building the envelope around a non-empty list raises a
      validation error inside the route's `try`.  An empty list is coerced to an empty
      dict and passes. */
  function ListEnvelopeAsWritten<T>(result: Result<seq<T>, Failure>): (r: Result<seq<T>, Failure>)
    ensures result.Err? ==> r == result
    ensures result.Ok? && result.value == [] ==> r == result
    ensures result.Ok? && result.value != [] ==> r == Err(OtherFailure(DictExpected))
  {
    if result.Ok? && result.value != [] then Err(OtherFailure(DictExpected)) else result
  }

  /** `GET /rankings/{summoner_id}` as written: a non-empty ranking list fails the
      envelope and is answered with 500. */
  function GetLeagueEntries(summonerId: string, region: string,
                            client: Result<seq<MatchTypes.LeagueEntry>, RiotClient.ClientError>): (reply: Reply<seq<MatchTypes.LeagueEntry>>)
    ensures Services.IsBlank(summonerId) ==> reply == Raised(HttpError(500, InternalError))
    ensures client.Ok? && client.value != [] ==> reply == Raised(HttpError(500, InternalError))
    ensures !Services.IsBlank(summonerId) && !(client.Ok? && client.value != []) ==>
              reply == Respond(ClientResult(client), false)
  {
    var guard := Services.GetLeagueEntries(summonerId, region);
    Respond(ListEnvelopeAsWritten(Served(guard, ClientResult(client))), false)
  }

  /** `GET /rankings/{summoner_id}` with an envelope whose `data` accepts a list: the
      client's rankings are sent whole. */
  function GetLeagueEntriesCorrected(summonerId: string, region: string,
                                     client: Result<seq<MatchTypes.LeagueEntry>, RiotClient.ClientError>): (reply: Reply<seq<MatchTypes.LeagueEntry>>)
    ensures Services.IsBlank(summonerId) ==> reply == Raised(HttpError(500, InternalError))
    ensures !Services.IsBlank(summonerId) ==> reply == Respond(ClientResult(client), false)
    ensures !Services.IsBlank(summonerId) && client.Ok? ==> reply == Sent(Success(client.value))
  {
    Respond(Served(Services.GetLeagueEntries(summonerId, region), ClientResult(client)), false)
  }

  /** FastAPI's check of the history query: `start >= 0` and `1 <= count <= 100`. */
  predicate HistoryQueryValid(start: int, count: int) {
    start >= 0 && 1 <= count <= 100
  }

  /** `GET /matches/by-puuid/{puuid}/ids` as written: the query bounds are checked before
      the handler runs and a rejected query is answered with 422; a non-empty history
      fails the envelope and is answered with 500. */
  function GetMatchHistory(puuid: string, region: string, start: int, count: int,
                           client: Result<seq<string>, RiotClient.ClientError>): (reply: Reply<seq<string>>)
    ensures !HistoryQueryValid(start, count) ==> reply == QueryRejected(UnprocessableEntity)
    ensures HistoryQueryValid(start, count) && |puuid| != 78 ==> reply == Raised(HttpError(500, InternalError))
    ensures HistoryQueryValid(start, count) && client.Ok? && client.value != [] ==>
              reply == Raised(HttpError(500, InternalError))
    ensures HistoryQueryValid(start, count) && |puuid| == 78 && !(client.Ok? && client.value != []) ==>
              reply == Respond(ClientResult(client), false)
  {
    if !HistoryQueryValid(start, count) then QueryRejected(UnprocessableEntity)
    else
      var guard := Services.GetMatchHistory(puuid, region, start, count);
      Respond(ListEnvelopeAsWritten(Served(guard, ClientResult(client))), false)
  }

  /** As written, the list routes only ever send an empty list. */
  lemma ListRoutesSendOnlyEmpty(summonerId: string, puuid: string, region: string, start: int, count: int,
                                entries: Result<seq<MatchTypes.LeagueEntry>, RiotClient.ClientError>,
                                ids: Result<seq<string>, RiotClient.ClientError>)
    ensures GetLeagueEntries(summonerId, region, entries).Sent? ==>
              GetLeagueEntries(summonerId, region, entries).body.data == Some([])
    ensures GetMatchHistory(puuid, region, start, count, ids).Sent? ==>
              GetMatchHistory(puuid, region, start, count, ids).body.data == Some([])
  {
  }

  /** A well-formed request whose history holds one match is answered with 500. */
  lemma NonEmptyHistoryIs500(puuid: string, region: string)
    requires |puuid| == 78
    ensures GetMatchHistory(puuid, region, 0, 20, Ok(["EUW1_7460265918"]))
            == Raised(HttpError(500, InternalError))
  {
  }

  /** `GET /matches/by-puuid/{puuid}/ids` with an envelope whose `data` accepts a list:
      the client's match ids are sent whole. */
  function GetMatchHistoryCorrected(puuid: string, region: string, start: int, count: int,
                                    client: Result<seq<string>, RiotClient.ClientError>): (reply: Reply<seq<string>>)
    ensures !HistoryQueryValid(start, count) ==> reply == QueryRejected(UnprocessableEntity)
    ensures HistoryQueryValid(start, count) && |puuid| != 78 ==> reply == Raised(HttpError(500, InternalError))
    ensures HistoryQueryValid(start, count) && |puuid| == 78 ==> reply == Respond(ClientResult(client), false)
    ensures HistoryQueryValid(start, count) && |puuid| == 78 && client.Ok? ==> reply == Sent(Success(client.value))
  {
    if !HistoryQueryValid(start, count) then QueryRejected(UnprocessableEntity)
    else Respond(Served(Services.GetMatchHistory(puuid, region, start, count), ClientResult(client)), false)
  }

  /** Behind the query check the service's own start and count tests never fire: the only
      service error the history route can meet is the PUUID one. */
  lemma HistoryServiceBoundsUnreachable(puuid: string, region: string, start: int, count: int)
    requires HistoryQueryValid(start, count)
    ensures Services.GetMatchHistory(puuid, region, start, count).Err? ==>
              Services.GetMatchHistory(puuid, region, start, count).error == "Invalid PUUID format"
  {
  }

  /** `GET /matches/{match_id}`, with the corrected match id guard. */
  function GetMatchDetails<T>(matchId: string, region: string,
                              client: Result<T, RiotClient.ClientError>): (reply: Reply<T>)
    ensures Services.MatchIdError(matchId, region).Some? ==> reply == Raised(HttpError(500, InternalError))
    ensures Services.MatchIdError(matchId, region).None? ==> reply == Respond(ClientResult(client), false)
  {
    Respond(Served(Services.GetMatchDetails(matchId, region), ClientResult(client)), false)
  }

  /** A guard's `ValueError` always reaches the caller as 500 "Internal server error",
      whatever its message. */
  lemma ValidationErrorsAre500<T>(guard: Result<Services.Delegation, string>, client: Result<T, Failure>, accountRoute: bool)
    requires guard.Err?
    ensures Respond(Served(guard, client), accountRoute) == Raised(HttpError(500, InternalError))
  {
  }

  /** Every route failure caused by a Riot exception reports the exception's own status
      code when it has a non-zero one. */
  lemma RiotStatusPassesThrough<T>(result: Result<T, Failure>, e: RiotException, accountRoute: bool)
    requires result == Err(RiotFailure(e))
    requires StatusCode(e).Some? && StatusCode(e).value != 0
    ensures Respond(result, accountRoute) == Raised(HttpError(StatusCode(e).value, Message(e)))
  {
  }
}
