/** The summoner page: the path the search pages navigate to, the parser of its
    `:region` and `:nameTag` route parameters, and the page's load and retry steps. */
module SummonerPage {
  import opened Wrappers
  import opened Strings
  import opened MatchTypes
  import opened ApiClient

  /** The summoner page path that the home page and the quick search navigate to. */
  function SummonerPath(region: string, name: string, tag: string): string {
    "/summoners/" + region + "/" + name + "-" + tag + "/overview"
  }

  /** The parsed route parameters; the region is upper-cased. */
  datatype SummonerParams = SummonerParams(name: string, tag: string, region: string)

  /** `parsedParams`: nothing when either parameter is missing or empty or the name-tag has
      no dash; otherwise the text before and after the last dash, and the upper-cased
      region. */
  function ParsedParams(nameTag: Option<string>, region: Option<string>): (p: Option<SummonerParams>)
    ensures nameTag.None? || nameTag.value == [] || region.None? || region.value == [] ==> p.None?
    ensures nameTag.Some? && nameTag.value != [] && region.Some? && region.value != [] ==>
      (p.None? <==> '-' !in nameTag.value)
    ensures p.Some? ==> p.value.name + "-" + p.value.tag == nameTag.value
                        && '-' !in p.value.tag
                        && p.value.region == ToUpper(region.value)
  {
    if nameTag.None? || nameTag.value == [] || region.None? || region.value == [] then None
    else
      var s := nameTag.value;
      var k := LastIndexOf(s, '-');
      if k == -1 then None
      else
        assert s == s[..k] + "-" + s[k + 1..];
        Some(SummonerParams(s[..k], s[k + 1..], ToUpper(region.value)))
  }

  /** Round trip with the path builder: the `name-tag` segment of a summoner path parses
      back to the name and tag, for any tag without a dash (the name may hold dashes). */
  lemma ParsedParamsRoundTrip(name: string, tag: string, region: string)
    requires '-' !in tag && region != []
    ensures ParsedParams(Some(name + "-" + tag), Some(region))
         == Some(SummonerParams(name, tag, ToUpper(region)))
  {
    var s := name + "-" + tag;
    assert s == name + ['-'] + tag;
    LastIndexOfJoin(name, tag, '-');
    assert s[..|name|] == name;
    assert s[|name| + 1..] == tag;
  }

  /** A tag that holds a dash does not survive the round trip: the split moves to its
      last dash. */
  lemma DashInTagSplitsLater(name: string, t1: string, t2: string, region: string)
    requires '-' !in t2 && region != []
    ensures ParsedParams(Some(name + "-" + (t1 + "-" + t2)), Some(region))
         == Some(SummonerParams(name + "-" + t1, t2, ToUpper(region)))
  {
    assert name + "-" + (t1 + "-" + t2) == (name + "-" + t1) + "-" + t2;
    ParsedParamsRoundTrip(name + "-" + t1, t2, region);
  }

  const InvalidUrlMessage := "Invalid summoner URL format"

  /** The page's own state: the loaded player, the loading flag and the error text. */
  class PageState {
    var playerData: Option<PlayerData>
    var loading: bool
    var error: Option<string>

    /** The page starts loading, with no data and no error. */
    constructor ()
      ensures playerData == None && loading && error == None
    {
      playerData := None;
      loading := true;
      error := None;
    }

    /** The load effect: without parameters it reports the invalid URL; otherwise it
        clears the error, fetches, and stores the data or the error message.  Loading
        ends either way. */
    method Load(params: Option<SummonerParams>, outcome: FetchOutcome<PlayerData>)
      modifies this
      ensures !loading
      ensures params.None? ==> error == Some(InvalidUrlMessage) && playerData == old(playerData)
      ensures params.Some? && ApiRequest(outcome).Ok? ==>
        playerData == Some(ApiRequest(outcome).value) && error == None
      ensures params.Some? && ApiRequest(outcome).Err? ==>
        playerData == old(playerData) && error == Some(ErrorMessage(ApiRequest(outcome).error))
    {
      if params.None? {
        error := Some(InvalidUrlMessage);
        loading := false;
        return;
      }
      loading := true;
      error := None;
      match ApiRequest(outcome) {
        case Ok(data) => playerData := Some(data);
        case Err(e) => error := Some(ErrorMessage(e));
      }
      loading := false;
    }

    /** `handleRetry`: a no-op without parameters; otherwise the state is reset (no data,
        no error, loading) and the fetch runs again. */
    method Retry(params: Option<SummonerParams>, outcome: FetchOutcome<PlayerData>)
      modifies this
      ensures params.None? ==> playerData == old(playerData) && loading == old(loading)
                               && error == old(error)
      ensures params.Some? ==> !loading
      ensures params.Some? && ApiRequest(outcome).Ok? ==>
        playerData == Some(ApiRequest(outcome).value) && error == None
      ensures params.Some? && ApiRequest(outcome).Err? ==>
        playerData == None && error == Some(ErrorMessage(ApiRequest(outcome).error))
    {
      if params.Some? {
        error := None;
        loading := true;
        playerData := None;
        match ApiRequest(outcome) {
          case Ok(data) => playerData := Some(data);
          case Err(e) => error := Some(ErrorMessage(e));
        }
        loading := false;
      }
    }
  }
}
