/** The backend's base URL and the endpoint paths the client builds. */
module ConfigApi {
  import opened Wrappers
  import opened Strings

  const DefaultBaseUrl := "http://127.0.0.1:8000"

  /** The configured `VITE_API_URL`, unless it is missing or empty. */
  function BaseUrl(viteApiUrl: Option<string>): (base: string)
    ensures viteApiUrl.Some? && viteApiUrl.value != [] ==> base == viteApiUrl.value
    ensures viteApiUrl.None? || viteApiUrl.value == [] ==> base == DefaultBaseUrl
  {
    if viteApiUrl.Some? && viteApiUrl.value != [] then viteApiUrl.value else DefaultBaseUrl
  }

  /** The four endpoints the configuration defines. */
  datatype Endpoint =
    | Account(summonerName: string, tagLine: string)
    | Player(summonerName: string, tagLine: string)
    | SummonerByPuuid(puuid: string)
    | Rankings(summonerId: string)

  function EndpointPath(e: Endpoint): string {
    match e
    case Account(n, t) => "/account/" + n + "/" + t
    case Player(n, t) => "/player/" + n + "/" + t
    case SummonerByPuuid(p) => "/summoner/puuid/" + p
    case Rankings(s) => "/rankings/" + s
  }

  predicate NoSlash(s: string) { '/' !in s }

  /** The arguments that are followed by another path segment hold no "/". */
  predicate SlashFree(e: Endpoint) {
    match e
    case Account(n, _) => NoSlash(n)
    case Player(n, _) => NoSlash(n)
    case SummonerByPuuid(_) => true
    case Rankings(_) => true
  }

  /** Different endpoints have different paths, as long as no argument followed by
      another segment holds a "/". */
  lemma EndpointPathInjective(a: Endpoint, b: Endpoint)
    requires SlashFree(a) && SlashFree(b)
    requires EndpointPath(a) == EndpointPath(b)
    ensures a == b
  {
    var p := EndpointPath(a);
    assert p[1] == EndpointPath(b)[1];
    match a {
      case Account(n, t) =>
        assert p[9..] == n + "/" + t;
        FirstSeparatorDetermined(n, t, b.summonerName, b.tagLine, '/');
      case Player(n, t) =>
        assert p[8..] == n + "/" + t;
        FirstSeparatorDetermined(n, t, b.summonerName, b.tagLine, '/');
      case SummonerByPuuid(q) =>
        assert p[16..] == q;
      case Rankings(r) =>
        assert p[10..] == r;
    }
  }

  /** An argument with a "/" makes two accounts share a path. */
  lemma SlashBreaksAccountPath()
    ensures EndpointPath(Account("a/b", "c")) == EndpointPath(Account("a", "b/c"))
  {
  }

  /** `getApiUrl`: the base URL followed by the path. */
  function ApiUrl(baseUrl: string, endpoint: string): (url: string)
    ensures |url| == |baseUrl| + |endpoint|
    ensures url[..|baseUrl|] == baseUrl && url[|baseUrl|..] == endpoint
  {
    baseUrl + endpoint
  }
}
