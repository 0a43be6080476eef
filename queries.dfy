/** The data-fetching hooks' own logic: cache keys, when a query may run, how long its
    data stays fresh, the pagination cursor, the player query's error transform and the
    cache write after a successful search.  The caching library itself is not modelled. */
module Queries {
  import opened Wrappers
  import opened MatchTypes
  import opened ApiClient

  /** The cache keys the hooks build. */
  datatype QueryKey =
    | PlayerKey(name: string, tag: string, region: string)
    | MatchHistoryKey(puuid: string, region: string, count: Option<int>, start: Option<int>)
    | MatchKey(matchId: string, region: string)
    | InfiniteMatchHistoryKey(puuid: string, region: string, pageSize: int)

  /** `usePlayerQuery`'s `enabled`: the caller's flag (true when omitted) and a non-empty
      name, tag and region. */
  predicate PlayerQueryEnabled(enabled: Option<bool>, name: string, tag: string, region: string) {
    enabled.GetOr(true) && name != [] && tag != [] && region != []
  }

  /** The history queries need a puuid and a region. */
  predicate MatchHistoryQueryEnabled(enabled: Option<bool>, puuid: string, region: string) {
    enabled.GetOr(true) && puuid != [] && region != []
  }

  /** The match query needs a match id and a region. */
  predicate MatchQueryEnabled(enabled: Option<bool>, matchId: string, region: string) {
    enabled.GetOr(true) && matchId != [] && region != []
  }

  /** How long fetched data counts as fresh, in milliseconds; match details never go stale. */
  datatype StaleTime = Finite(ms: nat) | Never {
    predicate ShorterThan(other: StaleTime) {
      match (this, other)
      case (Finite(a), Finite(b)) => a < b
      case (Finite(_), Never) => true
      case (Never, _) => false
    }
  }

  const PlayerStaleTime: StaleTime := Finite(2 * 60 * 1000)
  const MatchHistoryStaleTime: StaleTime := Finite(5 * 60 * 1000)
  const MatchStaleTime: StaleTime := Never

  /** Data fetched `age` milliseconds ago is still fresh under a stale time. */
  predicate FreshAt(staleTime: StaleTime, age: nat) {
    match staleTime
    case Finite(ms) => age < ms
    case Never => true
  }

  /** Player data goes stale first, then match history; match details never do: data of
      any age that is fresh as player data is fresh as history, fresh history is a fresh
      match, and some ages separate each pair. */
  lemma StaleTimesOrdered(age: nat)
    ensures FreshAt(PlayerStaleTime, age) ==> FreshAt(MatchHistoryStaleTime, age)
    ensures FreshAt(MatchHistoryStaleTime, age) ==> FreshAt(MatchStaleTime, age)
    ensures 2 * 60 * 1000 <= age < 5 * 60 * 1000 ==>
              !FreshAt(PlayerStaleTime, age) && FreshAt(MatchHistoryStaleTime, age)
    ensures !FreshAt(MatchHistoryStaleTime, age) <==> age >= 5 * 60 * 1000
  {
  }

  /** The default number of matches the history hooks ask for. */
  const HistoryHookCount := 20

  /** `useMatchHistoryQuery`: its key and its request URL, both with the hook's defaults
      (count 20, start 0) filled in before the service is called. */
  function MatchHistoryQueryKey(puuid: string, region: string, count: Option<int>, start: Option<int>): (k: QueryKey)
    ensures k.MatchHistoryKey? && k.puuid == puuid && k.region == region
    ensures k.count == Some(count.GetOr(HistoryHookCount)) && k.start == Some(start.GetOr(0))
  {
    MatchHistoryKey(puuid, region, Some(count.GetOr(HistoryHookCount)), Some(start.GetOr(0)))
  }

  function MatchHistoryQueryUrl(baseUrl: string, historyPath: string, region: string,
                                count: Option<int>, start: Option<int>): string
  {
    MatchHistoryUrl(baseUrl, historyPath, region, Some(start.GetOr(0)), Some(count.GetOr(HistoryHookCount)))
  }

  /** The hook's default of 20 matches overrides the service's default of 10. */
  lemma HookDefaultCountWins(baseUrl: string, historyPath: string, region: string)
    ensures MatchHistoryQueryUrl(baseUrl, historyPath, region, None, None)
         == MatchHistoryUrl(baseUrl, historyPath, region, Some(0), Some(20))
  {
  }

  /** The cursor of the page after one fetched at `pageParam`: the next offset when the page
      came back full, none when it came back short (no more pages). */
  function NextCursor(pageParam: int, pageSize: int, pageLength: nat): (c: Option<int>)
    ensures c.Some? <==> pageLength == pageSize
    ensures c.Some? ==> c.value == pageParam + pageSize
  {
    if pageLength == pageSize then Some(pageParam + pageSize) else None
  }

  /** Following the cursor from `start` across pages of the given lengths: the cursor after
      the last page, or none once a page came back short. */
  function CursorAfter(start: int, pageSize: int, pageLengths: seq<nat>): Option<int>
    decreases |pageLengths|
  {
    if pageLengths == [] then Some(start)
    else
      match NextCursor(start, pageSize, pageLengths[0])
      case None => None
      case Some(c) => CursorAfter(c, pageSize, pageLengths[1..])
  }

  /** After k full pages from offset 0 the next page starts at k * pageSize. */
  lemma {:induction false} FullPagesOffset(start: int, pageSize: nat, pageLengths: seq<nat>)
    requires forall i | 0 <= i < |pageLengths| :: pageLengths[i] == pageSize
    ensures CursorAfter(start, pageSize, pageLengths) == Some(start + |pageLengths| * pageSize)
    decreases |pageLengths|
  {
    if pageLengths != [] {
      FullPagesOffset(start + pageSize, pageSize, pageLengths[1..]);
      assert start + pageSize + (|pageLengths| - 1) * pageSize == start + |pageLengths| * pageSize;
    }
  }

  /** A short page ends the pagination for good. */
  lemma {:induction false} ShortPageStops(start: int, pageSize: int, pageLengths: seq<nat>, i: nat)
    requires i < |pageLengths| && pageLengths[i] != pageSize
    ensures CursorAfter(start, pageSize, pageLengths) == None
    decreases i
  {
    if i > 0 && pageLengths[0] == pageSize {
      ShortPageStops(start + pageSize, pageSize, pageLengths[1..], i - 1);
    }
  }

  /** The player query's catch: a plain `Error` with the message of the caught value, and
      the caught status only when it is an `ApiError` with a non-zero status. */
  function PlayerQueryError(e: Thrown): (r: Thrown)
    ensures r.JsError?
    ensures ErrorMessage(r) == ErrorMessage(e)
    ensures r.status.Some? <==> e.ApiErrorValue? && e.status.Some? && e.status.value != 0
    ensures r.status.Some? ==> r.status == e.status
  {
    JsError(ErrorMessage(e),
            if e.ApiErrorValue? && e.status.Some? && e.status.value != 0 then e.status else None)
  }

  /** `usePlayerQuery`'s query function over the request outcome. */
  function PlayerQuery(outcome: FetchOutcome<PlayerData>): (r: Result<PlayerData, Thrown>)
    ensures r.Ok? <==> ApiRequest(outcome).Ok?
    ensures r.Ok? ==> r.value == ApiRequest(outcome).value
    ensures r.Err? ==> r.error == PlayerQueryError(ApiRequest(outcome).error)
  {
    match ApiRequest(outcome)
    case Ok(d) => Ok(d)
    case Err(e) => Err(PlayerQueryError(e))
  }

  /** A non-ok response reaches the player query's caller with its message and, when
      non-zero, its status. */
  lemma PlayerQueryKeepsHttpStatus(status: int, statusText: string, body: JsonOutcome<PlayerData>)
    requires !IsOk(status)
    ensures var r := PlayerQuery(Responded(status, statusText, body));
            r.Err? && ErrorMessage(r.error) == StatusMessage(status, statusText)
            && (r.error.status.Some? <==> status != 0)
            && (status != 0 ==> r.error.status == Some(status))
  {
  }

  /** `usePlayerSearch`'s success handler: the fetched data is stored under the player key
      of the search's own variables, and no other entry changes. */
  function CacheAfterPlayerSearch(cache: map<QueryKey, PlayerData>, name: string, tag: string,
                                  region: string, data: PlayerData): (c: map<QueryKey, PlayerData>)
    ensures PlayerKey(name, tag, region) in c && c[PlayerKey(name, tag, region)] == data
    ensures c.Keys == cache.Keys + {PlayerKey(name, tag, region)}
    ensures forall k | k in cache && k != PlayerKey(name, tag, region) :: c[k] == cache[k]
  {
    cache[PlayerKey(name, tag, region) := data]
  }

  /** A later search for another player never overwrites an earlier search's entry: the
      player key tells searches apart by name, tag and region. */
  lemma CacheKeepsOtherSearches(cache: map<QueryKey, PlayerData>,
                                n1: string, t1: string, r1: string, d1: PlayerData,
                                n2: string, t2: string, r2: string, d2: PlayerData)
    requires (n1, t1, r1) != (n2, t2, r2)
    ensures var c := CacheAfterPlayerSearch(CacheAfterPlayerSearch(cache, n1, t1, r1, d1), n2, t2, r2, d2);
            PlayerKey(n1, t1, r1) in c && c[PlayerKey(n1, t1, r1)] == d1
  {
  }
}
