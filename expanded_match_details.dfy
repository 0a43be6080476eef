/** The expanded match view: every participant in a row, grouped by Arena placement for
    Arena games and by team for the other modes. */
module ExpandedMatchDetails {
  import opened Wrappers
  import opened MatchTypes
  import opened PlacementGrouping
  import ItemImage
  import ItemsDisplay
  import ChampionAvatar

  /** The Arena queue; the 1710 variant is laid out as a 5v5 game here. */
  const ArenaQueue := 1700

  /** The two team ids of a 5v5 game. */
  const BlueTeam := 100
  const RedTeam := 200

  /** A row's highlight: the searched player first, then the Arena top-four or bottom-four
      colours, else the neutral one. */
  datatype RowStyle = CurrentPlayer | ArenaTop4 | ArenaBottom4 | Neutral

  /** What one row shows. */
  datatype Row = Row(
    style: RowStyle,
    name: string,
    championImage: string,
    kills: int, deaths: int, assists: int,
    creepScore: int,
    itemImages: seq<Option<string>>)

  /** `renderParticipant`. */
  function RenderParticipant(p: Participant, currentPlayerPuuid: string, isArenaMode: bool): (row: Row)
    ensures row.style == CurrentPlayer <==> p.puuid == currentPlayerPuuid
    ensures row.style == ArenaTop4 <==> p.puuid != currentPlayerPuuid && isArenaMode && PlacementOrLast(p) <= 4
    ensures row.style == ArenaBottom4 <==> p.puuid != currentPlayerPuuid && isArenaMode && PlacementOrLast(p) > 4
    ensures row.style == Neutral <==> p.puuid != currentPlayerPuuid && !isArenaMode
    ensures row.name == DisplayName(p)
    ensures row.championImage == ChampionAvatar.AvatarChampionUrl(p.championName)
    ensures (row.kills, row.deaths, row.assists) == (p.kills, p.deaths, p.assists)
    ensures row.creepScore == p.totalMinionsKilled + p.neutralMinionsKilled
    ensures |row.itemImages| == 7
    ensures forall i | 0 <= i < 7 :: row.itemImages[i].Some? <==> ItemImage.ParticipantItems(p)[i] > 0
    ensures forall i | 0 <= i < 7 :: row.itemImages[i] == ItemsDisplay.SlotImage(ItemImage.ParticipantItems(p)[i])
  {
    var placement := PlacementOrLast(p);
    var style :=
      if p.puuid == currentPlayerPuuid then CurrentPlayer
      else if isArenaMode then (if placement <= 4 then ArenaTop4 else ArenaBottom4)
      else Neutral;
    var items := ItemImage.ParticipantItems(p);
    Row(style, DisplayName(p), ChampionAvatar.AvatarChampionUrl(p.championName),
        p.kills, p.deaths, p.assists,
        p.totalMinionsKilled + p.neutralMinionsKilled,
        seq(7, i requires 0 <= i < 7 => ItemsDisplay.SlotImage(items[i])))
  }

  /** `participants.filter(p => p.teamId === teamId)`. */
  function TeamMembers(ps: seq<Participant>, teamId: int): (team: seq<Participant>)
    ensures |team| <= |ps|
    ensures forall q :: q in team <==> q in ps && q.teamId == teamId
  {
    if ps == [] then []
    else (if ps[0].teamId == teamId then [ps[0]] else []) + TeamMembers(ps[1..], teamId)
  }

  /** The filter keeps the match order: filtering a concatenation concatenates the
      filtered parts. */
  lemma {:induction false} TeamMembersConcat(a: seq<Participant>, b: seq<Participant>, teamId: int)
    ensures TeamMembers(a + b, teamId) == TeamMembers(a, teamId) + TeamMembers(b, teamId)
    decreases |a|
  {
    if a != [] {
      assert (a + b)[1..] == a[1..] + b;
      TeamMembersConcat(a[1..], b, teamId);
    } else {
      assert a + b == b;
    }
  }

  /** The two teams share no participant, and a participant with another team id is in
      neither. */
  lemma TeamsDisjoint(ps: seq<Participant>, q: Participant)
    ensures !(q in TeamMembers(ps, BlueTeam) && q in TeamMembers(ps, RedTeam))
    ensures q.teamId != BlueTeam && q.teamId != RedTeam ==>
              q !in TeamMembers(ps, BlueTeam) && q !in TeamMembers(ps, RedTeam)
  {
  }

  /** `teams.find(t => t.teamId === teamId)?.win || false`. */
  function TeamWon(teams: seq<Team>, teamId: int): (won: bool)
    ensures won <==> exists i | 0 <= i < |teams| :: teams[i].teamId == teamId && teams[i].win
                       && forall j | 0 <= j < i :: teams[j].teamId != teamId
  {
    var t := FindTeam(teams, teamId);
    if t.Some? then
      var w := t.value.win;
      assert w ==> exists i | 0 <= i < |teams| :: teams[i].teamId == teamId && teams[i].win
                     && forall j | 0 <= j < i :: teams[j].teamId != teamId;
      FirstTeamUnique(teams, teamId, t.value);
      w
    else false
  }

  /** Only the first record with an id can be the one `find` returns. */
  lemma FirstTeamUnique(teams: seq<Team>, teamId: int, t: Team)
    requires exists i | 0 <= i < |teams| :: teams[i] == t && teams[i].teamId == teamId
                && forall j | 0 <= j < i :: teams[j].teamId != teamId
    ensures forall i | 0 <= i < |teams| && teams[i].teamId == teamId
              && (forall j | 0 <= j < i :: teams[j].teamId != teamId) :: teams[i] == t
  {
    var a :| 0 <= a < |teams| && teams[a] == t && teams[a].teamId == teamId
             && forall j | 0 <= j < a :: teams[j].teamId != teamId;
  }

  /** The two layouts `renderTeams` chooses between. */
  datatype TeamsView =
    | ArenaLayout(groups: seq<Group>)
    | TeamLayout(team1: seq<Participant>, team1Won: bool, team2: seq<Participant>, team2Won: bool)

  /** `renderTeams`: Arena games by placement, ascending; other games as the blue and red
      teams with their results. */
  method RenderTeams(info: MatchInfo) returns (view: TeamsView)
    ensures view.ArenaLayout? <==> info.queueId == ArenaQueue
    ensures view.ArenaLayout? ==> Ascending(view.groups) && GroupsOf(view.groups, info.participants)
    ensures view.TeamLayout? ==>
              view.team1 == TeamMembers(info.participants, BlueTeam)
              && view.team2 == TeamMembers(info.participants, RedTeam)
              && view.team1Won == TeamWon(info.teams, BlueTeam)
              && view.team2Won == TeamWon(info.teams, RedTeam)
  {
    if info.queueId == ArenaQueue {
      var groups := GroupByPlacement(info.participants);
      view := ArenaLayout(groups);
    } else {
      view := TeamLayout(TeamMembers(info.participants, BlueTeam), TeamWon(info.teams, BlueTeam),
                         TeamMembers(info.participants, RedTeam), TeamWon(info.teams, RedTeam));
    }
  }
}
