/** The backend's service layer: the input guards of the player and match services and
    the arguments they hand on to the Riot client.  A failed guard is a `ValueError` with
    the message given here. */
module Services {
  import opened Wrappers
  import opened Strings
  import Validation
  import RiotClient

  /** `s.strip()` is empty exactly when every character is Python white space. */
  predicate IsBlank(s: string) {
    forall i | 0 <= i < |s| :: s[i] in PyWhitespace
  }

  function Strip(s: string): (r: string)
    ensures r == [] <==> IsBlank(s)
    ensures |r| <= |s|
    ensures r != [] ==> r[0] !in PyWhitespace && r[|r| - 1] !in PyWhitespace
  {
    Trim(s, PyWhitespace)
  }

  /** The client call a service makes once its guard passes. */
  datatype Delegation =
    | AccountInfoCall(summonerName: string, tagLine: string, region: string)
    | CompleteInfoCall(summonerName: string, tagLine: string, region: string)
    | SummonerCall(puuid: string, region: string)
    | LeagueCall(summonerId: string, region: string)
    | HistoryCall(puuid: string, region: string, start: int, count: int)
    | MatchCall(matchId: string, region: string)

  /** The name and tag guard, checked in this order: blank name, blank tag, name longer
      than 16, tag longer than 5 (the lengths are those of the raw input). */
  function NameTagError(summonerName: string, tagLine: string): (err: Option<string>)
    ensures err.None? <==> !IsBlank(summonerName) && !IsBlank(tagLine) && |summonerName| <= 16 && |tagLine| <= 5
    ensures IsBlank(summonerName) ==> err == Some("Summoner name cannot be empty")
    ensures !IsBlank(summonerName) && IsBlank(tagLine) ==> err == Some("Tag line cannot be empty")
    ensures !IsBlank(summonerName) && !IsBlank(tagLine) && |summonerName| > 16 ==>
              err == Some("Summoner name too long (max 16 characters)")
    ensures !IsBlank(summonerName) && !IsBlank(tagLine) && |summonerName| <= 16 && |tagLine| > 5 ==>
              err == Some("Tag line too long (max 5 characters)")
  {
    if Strip(summonerName) == [] then Some("Summoner name cannot be empty")
    else if Strip(tagLine) == [] then Some("Tag line cannot be empty")
    else if |summonerName| > 16 then Some("Summoner name too long (max 16 characters)")
    else if |tagLine| > 5 then Some("Tag line too long (max 5 characters)")
    else None
  }

  /** `PlayerService.get_account_info`: after the guard, the stripped name and tag and the
      upper-cased region go to the client. */
  function GetAccountInfo(summonerName: string, tagLine: string, region: string): (r: Result<Delegation, string>)
    ensures r.Err? <==> NameTagError(summonerName, tagLine).Some?
    ensures r.Err? ==> r.error == NameTagError(summonerName, tagLine).value
    ensures r.Ok? ==> r.value == AccountInfoCall(Strip(summonerName), Strip(tagLine), ToUpper(region))
    ensures r.Ok? ==> 1 <= |r.value.summonerName| <= 16 && 1 <= |r.value.tagLine| <= 5
  {
    match NameTagError(summonerName, tagLine)
    case Some(e) => Err(e)
    case None => Ok(AccountInfoCall(Strip(summonerName), Strip(tagLine), ToUpper(region)))
  }

  /** `PlayerService.get_complete_player_info`: the same guard, the aggregate call. */
  function GetCompletePlayerInfo(summonerName: string, tagLine: string, region: string): (r: Result<Delegation, string>)
    ensures r.Err? <==> NameTagError(summonerName, tagLine).Some?
    ensures r.Err? ==> r.error == NameTagError(summonerName, tagLine).value
    ensures r.Ok? ==> r.value == CompleteInfoCall(Strip(summonerName), Strip(tagLine), ToUpper(region))
    ensures r.Ok? ==> 1 <= |r.value.summonerName| <= 16 && 1 <= |r.value.tagLine| <= 5
  {
    match NameTagError(summonerName, tagLine)
    case Some(e) => Err(e)
    case None => Ok(CompleteInfoCall(Strip(summonerName), Strip(tagLine), ToUpper(region)))
  }

  /** No ASCII letter or digit is Python white space. */
  lemma AlnumNotBlank(c: char)
    requires IsAsciiAlnum(c)
    ensures c !in PyWhitespace
  {
  }

  /** A name and tag valid for the client pass the guard exactly when the name is not all
      blanks (the client allows white space in names). */
  lemma ClientRulesAndGuard(summonerName: string, tagLine: string)
    requires Validation.IsValidName(summonerName) && Validation.IsValidTag(tagLine)
    ensures NameTagError(summonerName, tagLine).None? <==> !IsBlank(summonerName)
  {
    AlnumNotBlank(tagLine[0]);
  }

  /** `get_summoner_by_puuid`: a PUUID must have exactly 78 characters. */
  function GetSummonerByPuuid(puuid: string, region: string): (r: Result<Delegation, string>)
    ensures r.Ok? <==> |puuid| == 78
    ensures r.Err? ==> r.error == "Invalid PUUID format"
    ensures r.Ok? ==> r.value == SummonerCall(puuid, ToUpper(region))
  {
    if puuid == [] || |puuid| != 78 then Err("Invalid PUUID format") else Ok(SummonerCall(puuid, ToUpper(region)))
  }

  /** `get_league_entries`: a non-blank id, stripped. */
  function GetLeagueEntries(summonerId: string, region: string): (r: Result<Delegation, string>)
    ensures r.Ok? <==> !IsBlank(summonerId)
    ensures r.Err? ==> r.error == "Summoner ID cannot be empty"
    ensures r.Ok? ==> r.value == LeagueCall(Strip(summonerId), ToUpper(region)) && r.value.summonerId != []
  {
    if Strip(summonerId) == [] then Err("Summoner ID cannot be empty")
    else Ok(LeagueCall(Strip(summonerId), ToUpper(region)))
  }

  /** `MatchService.get_match_history`: PUUID, then start, then count. */
  function GetMatchHistory(puuid: string, region: string, start: int, count: int): (r: Result<Delegation, string>)
    ensures r.Ok? <==> |puuid| == 78 && start >= 0 && 1 <= count <= 100
    ensures |puuid| != 78 ==> r == Err("Invalid PUUID format")
    ensures |puuid| == 78 && start < 0 ==> r == Err("Start index must be non-negative")
    ensures |puuid| == 78 && start >= 0 && !(1 <= count <= 100) ==> r == Err("Count must be between 1 and 100")
    ensures r.Ok? ==> r.value == HistoryCall(puuid, ToUpper(region), start, count)
  {
    if puuid == [] || |puuid| != 78 then Err("Invalid PUUID format")
    else if start < 0 then Err("Start index must be non-negative")
    else if count < 1 || count > 100 then Err("Count must be between 1 and 100")
    else Ok(HistoryCall(puuid, ToUpper(region), start, count))
  }

  /** Behind the guard the client's cap at 100 never changes the count. */
  lemma HistoryCountNeverCapped(puuid: string, region: string, start: int, count: int)
    requires GetMatchHistory(puuid, region, start, count).Ok?
    ensures RiotClient.CappedCount(GetMatchHistory(puuid, region, start, count).value.count) == count
  {
  }

  /** The match id guard as written: a non-blank id that starts with the upper-cased region
      code. */
  function MatchIdErrorAsWritten(matchId: string, region: string): (err: Option<string>)
    ensures err.None? <==> !IsBlank(matchId) && StartsWith(matchId, ToUpper(region))
  {
    if Strip(matchId) == [] then Some("Match ID cannot be empty")
    else if !StartsWith(matchId, ToUpper(region)) then Some("Match ID must start with " + ToUpper(region))
    else None
  }

  /** Riot match ids start with the platform id of their server and "_" (the platform id is
      the host name of the server's platform endpoint, upper-cased). */
  function PlatformId(region: string): (id: Option<string>)
    ensures id.Some? ==> id.value != [] && '_' !in id.value && 'A' <= id.value[0] <= 'Z'
  {
    match region
    case "EUW" => Some("EUW1")
    case "EUNE" => Some("EUN1")
    case "NA" => Some("NA1")
    case "KR" => Some("KR")
    case "BR" => Some("BR1")
    case "JP" => Some("JP1")
    case "LAN" => Some("LA1")
    case "LAS" => Some("LA2")
    case "OCE" => Some("OC1")
    case "RU" => Some("RU")
    case "TR" => Some("TR1")
    case "ME" => Some("ME1")
    case "SG" => Some("SG2")
    case "TW" => Some("TW2")
    case "VN" => Some("VN2")
    case _ => None
  }

  /** The guard rejects the match ids of four regions: an EUNE id begins "EUN1_", which
      does not start with "EUNE". */
  lemma EuneMatchIdRejected(matchId: string, region: string)
    requires matchId == "EUN1_7460265918" && region == "EUNE"
    ensures PlatformId(ToUpper(region)) == Some("EUN1") && StartsWith(matchId, "EUN1" + "_")
    ensures MatchIdErrorAsWritten(matchId, region) == Some("Match ID must start with EUNE")
  {
    UpperUnchanged(region);
    assert ToUpper(region) == region;
    assert matchId[..4][3] != region[3];
    assert !StartsWith(matchId, ToUpper(region));
    AlnumNotBlank(matchId[0]);
    assert !IsBlank(matchId);
    assert matchId[..5] == "EUN1" + "_";
    assert "Match ID must start with " + ToUpper(region) == "Match ID must start with EUNE";
  }

  /** Upper-casing leaves a string without lower-case ASCII letters as it is. */
  lemma UpperUnchanged(s: string)
    requires forall i | 0 <= i < |s| :: !('a' <= s[i] <= 'z')
    ensures ToUpper(s) == s
  {
  }

  /** The guard as evidently intended: the id must start with the region's platform id
      and "_"; a region without a platform id keeps the region-code test (the client then
      rejects the region). */
  function MatchIdError(matchId: string, region: string): (err: Option<string>)
    ensures PlatformId(ToUpper(region)).Some? ==>
              (err.None? <==> !IsBlank(matchId) && StartsWith(matchId, PlatformId(ToUpper(region)).value + "_"))
    ensures PlatformId(ToUpper(region)).None? ==> err == MatchIdErrorAsWritten(matchId, region)
  {
    match PlatformId(ToUpper(region))
    case None => MatchIdErrorAsWritten(matchId, region)
    case Some(p) =>
      if Strip(matchId) == [] then Some("Match ID cannot be empty")
      else if !StartsWith(matchId, p + "_") then Some("Match ID must start with " + p + "_")
      else None
  }

  /** Every supported region accepts the ids of its own server. */
  lemma OwnMatchIdsAccepted(region: string, gameId: string)
    requires ToUpper(region) in RiotClient.SupportedRegions
    ensures PlatformId(ToUpper(region)).Some?
    ensures MatchIdError(PlatformId(ToUpper(region)).value + "_" + gameId, region).None?
  {
    var p := PlatformId(ToUpper(region)).value;
    var id := p + "_" + gameId;
    assert id[..|p + "_"|] == p + "_";
    assert id[0] == p[0];
    assert p[0] !in PyWhitespace;
  }

  /** ... and only those: an id whose platform id is another region's is rejected. */
  lemma OtherMatchIdsRejected(region: string, other: string, gameId: string)
    requires PlatformId(ToUpper(region)).Some? && PlatformId(other).Some?
    requires PlatformId(other) != PlatformId(ToUpper(region))
    ensures MatchIdError(PlatformId(other).value + "_" + gameId, region).Some?
  {
    var p := PlatformId(ToUpper(region)).value;
    var q := PlatformId(other).value;
    var id := q + "_" + gameId;
    if StartsWith(id, p + "_") {
      assert id[..|q + "_"|] == q + "_";
      SeparatedPrefixesEqual(id, p, q, '_');
    }
  }

  /** Two prefixes that each end in a separator occurring in neither are equal. */
  lemma SeparatedPrefixesEqual(s: string, p: string, q: string, c: char)
    requires c !in p && c !in q
    requires StartsWith(s, p + [c]) && StartsWith(s, q + [c])
    ensures p == q
  {
    assert s == p + [c] + s[|p| + 1..] by {
      assert s == s[..|p| + 1] + s[|p| + 1..];
    }
    assert s == q + [c] + s[|q| + 1..] by {
      assert s == s[..|q| + 1] + s[|q| + 1..];
    }
    FirstSeparatorDetermined(p, s[|p| + 1..], q, s[|q| + 1..], c);
  }

  /** `get_match_details`, with the corrected guard; the raw id is tested and the stripped
      id is passed on. */
  function GetMatchDetails(matchId: string, region: string): (r: Result<Delegation, string>)
    ensures r.Err? <==> MatchIdError(matchId, region).Some?
    ensures r.Err? ==> r.error == MatchIdError(matchId, region).value
    ensures r.Ok? ==> r.value == MatchCall(Strip(matchId), ToUpper(region)) && r.value.matchId != []
  {
    match MatchIdError(matchId, region)
    case Some(e) => Err(e)
    case None => Ok(MatchCall(Strip(matchId), ToUpper(region)))
  }
}
