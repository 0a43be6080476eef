/** A match card's top-level decision: which branch is shown, and the current player's
    kill participation. */
module MatchCard {
  import opened Wrappers
  import opened MatchTypes
  import GameVersion
  import ChampionImage

  /** `participants.find(p => p.puuid === currentPlayerPuuid)`. */
  function FindParticipant(ps: seq<Participant>, puuid: string): Option<Participant> {
    Find(ps, (p: Participant) => p.puuid == puuid)
  }

  /** The champion kills of the player's team: those of the first team record with the
      player's team id (`|| 0` leaves any count as it is), or 0 with no such record. */
  function TeamKills(teams: seq<Team>, teamId: int): (kills: int)
    ensures FindTeam(teams, teamId).None? ==> kills == 0
    ensures FindTeam(teams, teamId).Some? ==> kills == FindTeam(teams, teamId).value.championKills
  {
    match FindTeam(teams, teamId)
    case Some(t) => t.championKills
    case None => 0
  }

  /** Kill participation in percent; exactly 0 when the team has no kills. */
  function KillParticipation(kills: int, assists: int, teamKills: int): (kp: real)
    ensures teamKills > 0 ==> kp * teamKills as real == (kills + assists) as real * 100.0
    ensures teamKills <= 0 ==> kp == 0.0
  {
    if teamKills > 0 then (kills + assists) as real / teamKills as real * 100.0 else 0.0
  }

  /** A player who took part in at most all of the team's kills has a participation
      between 0 and 100 percent. */
  lemma KillParticipationBounded(kills: int, assists: int, teamKills: int)
    requires 0 <= kills + assists <= teamKills
    ensures 0.0 <= KillParticipation(kills, assists, teamKills) <= 100.0
  {
    if teamKills > 0 {
      var kp := KillParticipation(kills, assists, teamKills);
      var t := teamKills as real;
      assert kp * t == (kills + assists) as real * 100.0;
      assert (kills + assists) as real * 100.0 <= t * 100.0;
    }
  }

  /** The card counts both Arena queues as Arena. */
  predicate IsArenaMode(queueId: int) {
    queueId == 1700 || queueId == 1710
  }

  /** What the card shows. */
  datatype CardView =
    | Loading
    | ErrorView(message: string)
    | PlayerNotFound
    | Card(player: Participant, teamKills: int, killParticipation: real, isArena: bool,
           gameVersion: string, championImage: string)

  /** The branches in order: loading, then a failed or empty load, then a player missing
      from the match, then the card itself. */
  function View(loading: bool, error: Option<string>, matchData: Option<Match>,
                currentPlayerPuuid: string): (v: CardView)
    ensures loading <==> v.Loading?
    ensures v.ErrorView? <==> !loading && (error.Some? || matchData.None?)
    ensures v.ErrorView? ==> v.message == error.GetOr("Match data not found")
    ensures v.PlayerNotFound? <==> !loading && error.None? && matchData.Some?
                                    && FindParticipant(matchData.value.info.participants, currentPlayerPuuid).None?
    ensures v.Card? ==>
              && matchData.Some?
              && v.player.puuid == currentPlayerPuuid
              && v.player == FindParticipant(matchData.value.info.participants, currentPlayerPuuid).value
              && (exists i | 0 <= i < |matchData.value.info.participants| ::
                    matchData.value.info.participants[i] == v.player
                    && forall j | 0 <= j < i :: matchData.value.info.participants[j].puuid != currentPlayerPuuid)
              && v.teamKills == TeamKills(matchData.value.info.teams, v.player.teamId)
              && v.killParticipation == KillParticipation(v.player.kills, v.player.assists, v.teamKills)
              && (v.isArena <==> IsArenaMode(matchData.value.info.queueId))
              && v.gameVersion == GameVersion.GameVersionFromMatch(matchData, GameVersion.LatestGameVersion())
              && v.championImage == ChampionImage.ChampionImageUrl(v.gameVersion, v.player.championName)
  {
    var gameVersion := GameVersion.GameVersionFromMatch(matchData, GameVersion.LatestGameVersion());
    if loading then Loading
    else if error.Some? || matchData.None? then ErrorView(error.GetOr("Match data not found"))
    else
      var info := matchData.value.info;
      match FindParticipant(info.participants, currentPlayerPuuid)
      case None => PlayerNotFound
      case Some(p) =>
        var teamKills := TeamKills(info.teams, p.teamId);
        Card(p, teamKills, KillParticipation(p.kills, p.assists, teamKills), IsArenaMode(info.queueId),
             gameVersion, ChampionImage.ChampionImageUrl(gameVersion, p.championName))
  }
}
