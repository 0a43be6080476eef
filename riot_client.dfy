/** The backend's Riot API client: the region tables, the mapping from an HTTP response
    to an exception, the minimum spacing between requests, and the request methods.  The
    network and the clock are parameters: each request's outcome is given, and so is the
    time at which the client reads the clock. */
module RiotClient {
  import opened Wrappers
  import opened Strings
  import opened MatchTypes
  import opened RiotExceptions

  /** The supported region codes, in the order of the platform table. */
  const SupportedRegions: seq<string> :=
    ["EUW", "EUNE", "NA", "KR", "BR", "JP", "LAN", "LAS", "OCE", "RU", "TR", "ME", "SG", "TW", "VN"]

  /** The platform host of a region (server-specific data). */
  function PlatformEndpoint(region: string): Option<string> {
    match region
    case "EUW" => Some("https://euw1.api.riotgames.com")
    case "EUNE" => Some("https://eun1.api.riotgames.com")
    case "NA" => Some("https://na1.api.riotgames.com")
    case "KR" => Some("https://kr.api.riotgames.com")
    case "BR" => Some("https://br1.api.riotgames.com")
    case "JP" => Some("https://jp1.api.riotgames.com")
    case "LAN" => Some("https://la1.api.riotgames.com")
    case "LAS" => Some("https://la2.api.riotgames.com")
    case "OCE" => Some("https://oc1.api.riotgames.com")
    case "RU" => Some("https://ru.api.riotgames.com")
    case "TR" => Some("https://tr1.api.riotgames.com")
    case "ME" => Some("https://me1.api.riotgames.com")
    case "SG" => Some("https://sg2.api.riotgames.com")
    case "TW" => Some("https://tw2.api.riotgames.com")
    case "VN" => Some("https://vn2.api.riotgames.com")
    case _ => None
  }

  const Europe := "https://europe.api.riotgames.com"
  const Americas := "https://americas.api.riotgames.com"
  const Asia := "https://asia.api.riotgames.com"
  const Sea := "https://sea.api.riotgames.com"

  /** The regional host of a region (account and match data). */
  function RegionalEndpoint(region: string): Option<string> {
    match region
    case "EUW" => Some(Europe)
    case "EUNE" => Some(Europe)
    case "TR" => Some(Europe)
    case "RU" => Some(Europe)
    case "ME" => Some(Europe)
    case "NA" => Some(Americas)
    case "BR" => Some(Americas)
    case "LAN" => Some(Americas)
    case "LAS" => Some(Americas)
    case "KR" => Some(Asia)
    case "JP" => Some(Asia)
    case "OCE" => Some(Sea)
    case "SG" => Some(Sea)
    case "TW" => Some(Sea)
    case "VN" => Some(Sea)
    case _ => None
  }

  /** Both tables have the same fifteen keys, and every regional host is one of the four
      routing clusters. */
  lemma TablesAgree(region: string)
    ensures PlatformEndpoint(region).Some? <==> region in SupportedRegions
    ensures RegionalEndpoint(region).Some? <==> region in SupportedRegions
    ensures RegionalEndpoint(region).Some? ==> RegionalEndpoint(region).value in {Europe, Americas, Asia, Sea}
  {
  }

  /** The key lists as Python prints them in the error message. */
  const PlatformKeys := "['EUW', 'EUNE', 'NA', 'KR', 'BR', 'JP', 'LAN', 'LAS', 'OCE', 'RU', 'TR', 'ME', 'SG', 'TW', 'VN']"
  const RegionalKeys := "['EUW', 'EUNE', 'TR', 'RU', 'ME', 'NA', 'BR', 'LAN', 'LAS', 'KR', 'JP', 'OCE', 'SG', 'TW', 'VN']"

  /** What a client call can raise: a Riot exception, or a `ValueError` for an unknown
      region. */
  datatype ClientError = Riot(exception: RiotException) | ValueError(message: string)

  /** `get_platform_base_url`. */
  function PlatformBaseUrl(region: string): (r: Result<string, ClientError>)
    ensures r.Ok? <==> region in SupportedRegions
    ensures r.Ok? ==> Some(r.value) == PlatformEndpoint(region)
    ensures r.Err? ==> r.error == ValueError("Unsupported region: " + region + ". Supported regions: " + PlatformKeys)
  {
    TablesAgree(region);
    match PlatformEndpoint(region)
    case Some(url) => Ok(url)
    case None => Err(ValueError("Unsupported region: " + region + ". Supported regions: " + PlatformKeys))
  }

  /** `get_regional_base_url`. */
  function RegionalBaseUrl(region: string): (r: Result<string, ClientError>)
    ensures r.Ok? <==> region in SupportedRegions
    ensures r.Ok? ==> Some(r.value) == RegionalEndpoint(region)
    ensures r.Err? ==> r.error == ValueError("Unsupported region: " + region + ". Supported regions: " + RegionalKeys)
  {
    TablesAgree(region);
    match RegionalEndpoint(region)
    case Some(url) => Ok(url)
    case None => Err(ValueError("Unsupported region: " + region + ". Supported regions: " + RegionalKeys))
  }

  /** `_handle_response_errors`: nothing for status 200, otherwise the exception for the
      status; any other status (a 2xx other than 200 included) is a generic error that
      carries the status and the body. */
  function ResponseError(status: int, text: string, summonerName: string, tagLine: string): (e: Option<RiotException>)
    ensures e.None? <==> status == 200
    ensures status == 404 ==> e == Some(AccountNotFound(summonerName, tagLine))
    ensures status == 403 ==> e == Some(ApiKey)
    ensures status == 429 ==> e == Some(RateLimit)
    ensures status == 503 ==> e == Some(ServiceUnavailable)
    ensures status !in {200, 403, 404, 429, 503} ==>
              e == Some(RiotApi("Unexpected API error: " + IntToString(status) + " - " + text, Some(status)))
  {
    if status == 200 then None
    else if status == 404 then Some(AccountNotFound(summonerName, tagLine))
    else if status == 403 then Some(ApiKey)
    else if status == 429 then Some(RateLimit)
    else if status == 503 then Some(ServiceUnavailable)
    else Some(RiotApi("Unexpected API error: " + IntToString(status) + " - " + text, Some(status)))
  }

  /** Every exception raised for a response carries that response's status code. */
  lemma ResponseErrorKeepsStatus(status: int, text: string, summonerName: string, tagLine: string)
    requires ResponseError(status, text, summonerName, tagLine).Some?
    ensures StatusCode(ResponseError(status, text, summonerName, tagLine).value) == Some(status)
  {
  }

  /** What the HTTP request did: a response (with its status, text and decoded body), a
      timeout, or another request failure. */
  datatype Outcome<T> = Response(status: int, text: string, body: T) | Timeout | RequestFailed(detail: string)

  /** The `try` around a request: the body for status 200, the response's exception
      otherwise, 408 for a timeout and no status for another request failure. */
  function Perform<T>(outcome: Outcome<T>, summonerName: string, tagLine: string): (r: Result<T, ClientError>)
    ensures r.Ok? <==> outcome.Response? && outcome.status == 200
    ensures r.Ok? ==> r.value == outcome.body
    ensures r.Err? ==> r.error.Riot?
    ensures outcome.Response? && r.Err? ==> StatusCode(r.error.exception) == Some(outcome.status)
    ensures outcome.Timeout? ==> r == Err(Riot(RiotApi("API request timeout", Some(408))))
    ensures outcome.RequestFailed? ==> r == Err(Riot(RiotApi("Connection error: " + outcome.detail, None)))
  {
    match outcome
    case Response(status, text, body) =>
      (match ResponseError(status, text, summonerName, tagLine)
       case None => Ok(body)
       case Some(e) => Err(Riot(e)))
    case Timeout => Err(Riot(RiotApi("API request timeout", Some(408))))
    case RequestFailed(detail) => Err(Riot(RiotApi("Connection error: " + detail, None)))
  }

  /** One request: the URL is built from the base URL (a region lookup that may fail
      before anything is sent) and the path, and the outcome is decoded. */
  datatype Call<T> = Call(url: Option<string>, result: Result<T, ClientError>)

  function Request<T>(base: Result<string, ClientError>, path: string, outcome: Outcome<T>,
                      summonerName: string, tagLine: string): (c: Call<T>)
    ensures c.url.Some? <==> base.Ok?
    ensures base.Ok? ==> c.url.value == base.value + path && c.result == Perform(outcome, summonerName, tagLine)
    ensures base.Err? ==> c.result == Err(base.error)
  {
    match base
    case Ok(b) => Call(Some(b + path), Perform(outcome, summonerName, tagLine))
    case Err(e) => Call(None, Err(e))
  }

  /** The minimum spacing between two requests, in milliseconds. */
  const MinRequestIntervalMs := 100

  /** `_rate_limit_wait`'s sleep: none for the first request or after a long enough
      pause, otherwise what is left of the interval. */
  function SleepTime(lastRequestTime: Option<int>, now: int): (sleep: int)
    ensures sleep >= 0
    ensures lastRequestTime.None? ==> sleep == 0
    ensures lastRequestTime.Some? ==> now + sleep >= lastRequestTime.value + MinRequestIntervalMs
    ensures sleep > 0 ==> lastRequestTime.Some? && now + sleep == lastRequestTime.value + MinRequestIntervalMs
    ensures lastRequestTime.Some? && now >= lastRequestTime.value ==> sleep <= MinRequestIntervalMs
  {
    match lastRequestTime
    case None => 0
    case Some(last) =>
      var elapsed := now - last;
      if elapsed < MinRequestIntervalMs then MinRequestIntervalMs - elapsed else 0
  }

  /** The account, summoner and league records the client returns. */
  datatype RiotAccount = RiotAccount(puuid: string, gameName: string, tagLine: string)
  datatype SummonerInfo = SummonerInfo(puuid: string, profileIconId: int, summonerLevel: int)
  datatype CompleteInfo = CompleteInfo(account: RiotAccount, summoner: SummonerInfo, rankings: seq<LeagueEntry>)

  /** `min(count, 100)`. */
  function CappedCount(count: int): (c: int)
    ensures c <= 100 && (c == count || c == 100)
    ensures count <= 100 ==> c == count
  {
    if count < 100 then count else 100
  }

  /** The Riot paths of the five requests. */
  function AccountPath(summonerName: string, tagLine: string): string {
    "/riot/account/v1/accounts/by-riot-id/" + summonerName + "/" + tagLine
  }

  function SummonerPath(puuid: string): string {
    "/lol/summoner/v4/summoners/by-puuid/" + puuid
  }

  function LeaguePath(puuid: string): string {
    "/lol/league/v4/entries/by-puuid/" + puuid
  }

  function MatchHistoryPath(puuid: string, start: int, count: int): string {
    "/lol/match/v5/matches/by-puuid/" + puuid + "/ids?start=" + IntToString(start)
    + "&count=" + IntToString(CappedCount(count))
  }

  function MatchPath(matchId: string): string {
    "/lol/match/v5/matches/" + matchId
  }

  /** `get_complete_player_info`'s error wrapping: Riot exceptions pass through, anything
      else becomes a Riot exception without status. */
  function WrapUnexpected(e: ClientError): (w: RiotException)
    ensures e.Riot? ==> w == e.exception
    ensures e.ValueError? ==> w == RiotApi("Unexpected error: " + e.message, None)
  {
    match e
    case Riot(x) => x
    case ValueError(m) => RiotApi("Unexpected error: " + m, None)
  }

  /** The aggregate: the account, then the summoner of the account's PUUID, then the
      rankings of the summoner's PUUID, stopping at the first failure. */
  function CompleteInfoResult(summonerName: string, tagLine: string, region: string,
                              accountOutcome: Outcome<RiotAccount>,
                              summonerOutcome: Outcome<SummonerInfo>,
                              leagueOutcome: Outcome<seq<LeagueEntry>>): (r: Result<CompleteInfo, RiotException>)
    ensures r.Ok? <==> (region in SupportedRegions
                        && accountOutcome.Response? && accountOutcome.status == 200
                        && summonerOutcome.Response? && summonerOutcome.status == 200
                        && leagueOutcome.Response? && leagueOutcome.status == 200)
    ensures r.Ok? ==> r.value == CompleteInfo(accountOutcome.body, summonerOutcome.body, leagueOutcome.body)
    ensures region !in SupportedRegions ==>
              r == Err(RiotApi("Unexpected error: " + "Unsupported region: " + region + ". Supported regions: " + RegionalKeys, None))
    ensures region in SupportedRegions && !(accountOutcome.Response? && accountOutcome.status == 200) ==>
              r == Err(Perform(accountOutcome, summonerName, tagLine).error.exception)
    ensures region in SupportedRegions && accountOutcome.Response? && accountOutcome.status == 200
            && !(summonerOutcome.Response? && summonerOutcome.status == 200) ==>
              r == Err(Perform(summonerOutcome, "", "").error.exception)
    ensures region in SupportedRegions && accountOutcome.Response? && accountOutcome.status == 200
            && summonerOutcome.Response? && summonerOutcome.status == 200
            && !(leagueOutcome.Response? && leagueOutcome.status == 200) ==>
              r == Err(Perform(leagueOutcome, "", "").error.exception)
  {
    var account := Request(RegionalBaseUrl(region), AccountPath(summonerName, tagLine), accountOutcome, summonerName, tagLine).result;
    if account.Err? then
      var m := "Unsupported region: " + region + ". Supported regions: " + RegionalKeys;
      assert region !in SupportedRegions ==> account.error == ValueError(m);
      assert "Unexpected error: " + m == "Unexpected error: " + "Unsupported region: " + region + ". Supported regions: " + RegionalKeys;
      Err(WrapUnexpected(account.error))
    else
      var summoner := Request(PlatformBaseUrl(region), SummonerPath(account.value.puuid), summonerOutcome, "", "").result;
      if summoner.Err? then Err(WrapUnexpected(summoner.error))
      else
        var league := Request(PlatformBaseUrl(region), LeaguePath(summoner.value.puuid), leagueOutcome, "", "").result;
        if league.Err? then Err(WrapUnexpected(league.error))
        else Ok(CompleteInfo(account.value, summoner.value, league.value))
  }

  /** A 404 on the account lookup reports the searched account. */
  lemma CompleteInfoAccountNotFound(summonerName: string, tagLine: string, region: string, text: string,
                                    account: RiotAccount,
                                    summonerOutcome: Outcome<SummonerInfo>,
                                    leagueOutcome: Outcome<seq<LeagueEntry>>)
    requires region in SupportedRegions
    ensures CompleteInfoResult(summonerName, tagLine, region, Response(404, text, account), summonerOutcome, leagueOutcome)
            == Err(AccountNotFound(summonerName, tagLine))
  {
  }

  /** A rate limit, a rejected key or an unavailable service on the summoner or league
      lookup reaches the caller as that exception, not as an "Unexpected error". */
  lemma CompleteInfoLaterStepStatus(summonerName: string, tagLine: string, region: string,
                                    account: RiotAccount, summoner: SummonerInfo, status: int, text: string,
                                    leagueOutcome: Outcome<seq<LeagueEntry>>)
    requires region in SupportedRegions && status in {403, 429, 503}
    ensures var expected := if status == 403 then ApiKey else if status == 429 then RateLimit else ServiceUnavailable;
            && CompleteInfoResult(summonerName, tagLine, region, Response(200, "", account),
                                  Response(status, text, summoner), leagueOutcome) == Err(expected)
            && CompleteInfoResult(summonerName, tagLine, region, Response(200, "", account),
                                  Response(200, "", summoner), Response(status, text, [])) == Err(expected)
  {
  }

  /** The client: its only state is the time of the last request. */
  class RiotApiClient {
    var lastRequestTime: Option<int>

    constructor ()
      ensures lastRequestTime == None
    {
      lastRequestTime := None;
    }

    /** `_rate_limit_wait`, with the clock read at `now`; the clock is taken to advance by
        exactly the sleep. */
    method RateLimitWait(now: int) returns (sleep: int)
      modifies this
      ensures sleep == SleepTime(old(lastRequestTime), now)
      ensures lastRequestTime == Some(now + sleep)
      ensures old(lastRequestTime).Some? ==> lastRequestTime.value - old(lastRequestTime).value >= MinRequestIntervalMs
    {
      sleep := 0;
      if lastRequestTime.Some? {
        var elapsed := now - lastRequestTime.value;
        if elapsed < MinRequestIntervalMs {
          sleep := MinRequestIntervalMs - elapsed;
        }
      }
      lastRequestTime := Some(now + sleep);
    }

    method GetAccountByRiotId(summonerName: string, tagLine: string, region: string, now: int,
                              outcome: Outcome<RiotAccount>) returns (c: Call<RiotAccount>)
      modifies this
      ensures lastRequestTime == Some(now + SleepTime(old(lastRequestTime), now))
      ensures c == Request(RegionalBaseUrl(region), AccountPath(summonerName, tagLine), outcome, summonerName, tagLine)
    {
      var _ := RateLimitWait(now);
      c := Request(RegionalBaseUrl(region), AccountPath(summonerName, tagLine), outcome, summonerName, tagLine);
    }

    method GetSummonerByPuuid(puuid: string, region: string, now: int,
                              outcome: Outcome<SummonerInfo>) returns (c: Call<SummonerInfo>)
      modifies this
      ensures lastRequestTime == Some(now + SleepTime(old(lastRequestTime), now))
      ensures c == Request(PlatformBaseUrl(region), SummonerPath(puuid), outcome, "", "")
    {
      var _ := RateLimitWait(now);
      c := Request(PlatformBaseUrl(region), SummonerPath(puuid), outcome, "", "");
    }

    method GetLeagueEntries(puuid: string, region: string, now: int,
                            outcome: Outcome<seq<LeagueEntry>>) returns (c: Call<seq<LeagueEntry>>)
      modifies this
      ensures lastRequestTime == Some(now + SleepTime(old(lastRequestTime), now))
      ensures c == Request(PlatformBaseUrl(region), LeaguePath(puuid), outcome, "", "")
    {
      var _ := RateLimitWait(now);
      c := Request(PlatformBaseUrl(region), LeaguePath(puuid), outcome, "", "");
    }

    method GetMatchHistory(puuid: string, region: string, start: int, count: int, now: int,
                           outcome: Outcome<seq<string>>) returns (c: Call<seq<string>>)
      modifies this
      ensures lastRequestTime == Some(now + SleepTime(old(lastRequestTime), now))
      ensures c == Request(RegionalBaseUrl(region), MatchHistoryPath(puuid, start, count), outcome, "", "")
    {
      var _ := RateLimitWait(now);
      c := Request(RegionalBaseUrl(region), MatchHistoryPath(puuid, start, count), outcome, "", "");
    }

    method GetMatchDetails(matchId: string, region: string, now: int,
                           outcome: Outcome<Match>) returns (c: Call<Match>)
      modifies this
      ensures lastRequestTime == Some(now + SleepTime(old(lastRequestTime), now))
      ensures c == Request(RegionalBaseUrl(region), MatchPath(matchId), outcome, "", "")
    {
      var _ := RateLimitWait(now);
      c := Request(RegionalBaseUrl(region), MatchPath(matchId), outcome, "", "");
    }

    /** `get_complete_player_info`: the three requests in turn (each after its own wait),
        stopping at the first failure. */
    method GetCompletePlayerInfo(summonerName: string, tagLine: string, region: string,
                                 now1: int, now2: int, now3: int,
                                 accountOutcome: Outcome<RiotAccount>,
                                 summonerOutcome: Outcome<SummonerInfo>,
                                 leagueOutcome: Outcome<seq<LeagueEntry>>)
      returns (r: Result<CompleteInfo, RiotException>)
      modifies this
      ensures r == CompleteInfoResult(summonerName, tagLine, region, accountOutcome, summonerOutcome, leagueOutcome)
      // the clock after the last wait made: one wait when the account request fails, two
      // when the summoner request fails, three otherwise
      ensures var t1 := now1 + SleepTime(old(lastRequestTime), now1);
              var t2 := now2 + SleepTime(Some(t1), now2);
              var t3 := now3 + SleepTime(Some(t2), now3);
              var account := Request(RegionalBaseUrl(region), AccountPath(summonerName, tagLine),
                                     accountOutcome, summonerName, tagLine).result;
              lastRequestTime == Some(
                if account.Err? then t1
                else if Request(PlatformBaseUrl(region), SummonerPath(account.value.puuid),
                                summonerOutcome, "", "").result.Err? then t2
                else t3)
    {
      var account := GetAccountByRiotId(summonerName, tagLine, region, now1, accountOutcome);
      if account.result.Err? {
        return Err(WrapUnexpected(account.result.error));
      }
      var summoner := GetSummonerByPuuid(account.result.value.puuid, region, now2, summonerOutcome);
      if summoner.result.Err? {
        return Err(WrapUnexpected(summoner.result.error));
      }
      var league := GetLeagueEntries(summoner.result.value.puuid, region, now3, leagueOutcome);
      if league.result.Err? {
        return Err(WrapUnexpected(league.result.error));
      }
      r := Ok(CompleteInfo(account.result.value, summoner.result.value, league.result.value));
    }
  }
}
