/** The parts of the Riot match and player records that the client reads.  Optional
    fields of the records (`placement`, `playerSubteamId`) are `Option`s. */
module MatchTypes {
  import opened Wrappers

  datatype Participant = Participant(
    puuid: string,
    riotIdGameName: string,
    summonerName: string,
    championName: string,
    teamId: int,
    win: bool,
    kills: int,
    deaths: int,
    assists: int,
    totalMinionsKilled: int,
    neutralMinionsKilled: int,
    item0: int, item1: int, item2: int, item3: int, item4: int, item5: int, item6: int,
    summoner1Id: int,
    summoner2Id: int,
    placement: Option<int>,        // Arena placement, 1..8 when present
    playerSubteamId: Option<int>)  // Arena sub-team

  /** A team record; `championKills` is the team's champion-kill objective count. */
  datatype Team = Team(teamId: int, win: bool, championKills: int)

  datatype MatchInfo = MatchInfo(
    queueId: int,
    gameMode: string,
    gameVersion: string,
    gameDuration: int,
    participants: seq<Participant>,
    teams: seq<Team>)

  datatype Match = Match(matchId: string, info: MatchInfo)

  /** One ranked queue entry of a player. */
  datatype LeagueEntry = LeagueEntry(queueType: string, tier: string, rank: string, wins: int, losses: int)

  datatype PlayerData = PlayerData(
    puuid: string,
    gameName: string,
    tagLine: string,
    profileIconId: int,
    rankings: seq<LeagueEntry>)

  /** JavaScript's `placement || 8`: a missing or zero placement counts as last place. */
  function PlacementOrLast(p: Participant): (k: int)
    ensures k != 0
    ensures p.placement.Some? && p.placement.value != 0 ==> k == p.placement.value
    ensures p.placement.None? || p.placement.value == 0 ==> k == 8
  {
    match p.placement
    case Some(v) => if v != 0 then v else 8
    case None => 8
  }

  /** JavaScript's `riotIdGameName || summonerName`: the Riot id name unless it is empty. */
  function DisplayName(p: Participant): (name: string)
    ensures p.riotIdGameName != [] ==> name == p.riotIdGameName
    ensures p.riotIdGameName == [] ==> name == p.summonerName
  {
    if p.riotIdGameName != [] then p.riotIdGameName else p.summonerName
  }

  /** JavaScript's `find`: the first element that matches, or nothing when none does. */
  function Find<T(==)>(xs: seq<T>, matches: T -> bool): (r: Option<T>)
    ensures r.None? <==> forall i | 0 <= i < |xs| :: !matches(xs[i])
    ensures r.Some? ==> exists i | 0 <= i < |xs| :: xs[i] == r.value && matches(xs[i])
                          && forall j | 0 <= j < i :: !matches(xs[j])
  {
    if xs == [] then None
    else if matches(xs[0]) then Some(xs[0])
    else
      var r := Find(xs[1..], matches);
      if r.Some? then
        var i :| 0 <= i < |xs[1..]| && xs[1..][i] == r.value && matches(xs[1..][i])
                 && forall j | 0 <= j < i :: !matches(xs[1..][j]);
        assert xs[i + 1] == r.value;
        r
      else r
  }

  /** `teams.find(t => t.teamId === teamId)`: the first team record with that id. */
  function FindTeam(teams: seq<Team>, teamId: int): Option<Team> {
    Find(teams, (t: Team) => t.teamId == teamId)
  }
}
