/** Names and badge images of the Arena sub-teams. */
module ArenaTeams {
  import opened Wrappers
  import opened Strings

  /** The sub-team names, by `playerSubteamId`. */
  function TeamNameMapping(subteamId: int): Option<string> {
    match subteamId
    case 1 => Some("Poros")
    case 2 => Some("Minions")
    case 3 => Some("Scuttles")
    case 4 => Some("Krugs")
    case 5 => Some("Raptors")
    case 6 => Some("Sentinels")
    case 7 => Some("Wolves")
    case 8 => Some("Gromps")
    case _ => None
  }

  /** The badge image file of each sub-team name. */
  function TeamImageMapping(teamName: string): Option<string> {
    match teamName
    case "Poros" => Some("poro")
    case "Minions" => Some("minion")
    case "Scuttles" => Some("scuttle")
    case "Krugs" => Some("krug")
    case "Raptors" => Some("raptor")
    case "Sentinels" => Some("sentinel")
    case "Wolves" => Some("wolf")
    case "Gromps" => Some("gromp")
    case _ => None
  }

  /** Exactly the ids 1 to 8 have a name, and no two of them share one. */
  lemma TeamNamesListed(a: int, b: int)
    ensures TeamNameMapping(a).Some? <==> 1 <= a <= 8
    ensures TeamNameMapping(a).Some? && TeamNameMapping(b).Some? && a != b
        ==> TeamNameMapping(a).value != TeamNameMapping(b).value
  {
  }

  /** No sub-team name begins with "T", so none of them begins with "Team ". */
  lemma TeamNamesInitials(subteamId: int)
    requires TeamNameMapping(subteamId).Some?
    ensures TeamNameMapping(subteamId).value != [] && TeamNameMapping(subteamId).value[0] != 'T'
  {
  }

  const UnknownTeam := "Unknown Team"

  /** The sub-team's name; "Unknown Team" when the id is missing; "Team <id>" for an id
      without a name. */
  function ArenaTeamName(subteamId: Option<int>): (name: string)
    ensures subteamId.None? ==> name == UnknownTeam
    ensures subteamId.Some? && TeamNameMapping(subteamId.value).Some? ==>
      name == TeamNameMapping(subteamId.value).value
    ensures subteamId.Some? && TeamNameMapping(subteamId.value).None? ==>
      name == "Team " + IntToString(subteamId.value)
  {
    match subteamId
    case None => UnknownTeam
    case Some(id) => TeamNameMapping(id).GetOr("Team " + IntToString(id))
  }

  /** The display name as the source writes it: "Team " in front of every name except
      "Unknown Team", including names that already start with "Team ". */
  function FormattedArenaTeamNameAsWritten(subteamId: Option<int>): (display: string)
    ensures subteamId.None? ==> display == UnknownTeam
    ensures subteamId.Some? && TeamNameMapping(subteamId.value).Some? ==>
      display == "Team " + TeamNameMapping(subteamId.value).value
    ensures subteamId.Some? && TeamNameMapping(subteamId.value).None? ==>
      display == "Team Team " + IntToString(subteamId.value)
  {
    var teamName := ArenaTeamName(subteamId);
    assert subteamId.Some? ==> teamName[0] != UnknownTeam[0] by {
      if subteamId.Some? && TeamNameMapping(subteamId.value).Some? {
        TeamNamesInitials(subteamId.value);
      }
    }
    if teamName == UnknownTeam then teamName else "Team " + teamName
  }

  /** An id without a name is shown with the prefix twice: 9 gives "Team Team 9". */
  lemma DoubledTeamPrefix()
    ensures FormattedArenaTeamNameAsWritten(Some(9)) == "Team Team " + IntToString(9)
  {
  }

  /** The display name with a single "Team " prefix: "Team <name>" for a named sub-team,
      "Team <id>" for an id without a name, and "Unknown Team" when the id is missing. */
  function FormattedArenaTeamName(subteamId: Option<int>): (display: string)
    ensures subteamId.None? ==> display == UnknownTeam
    ensures subteamId.Some? ==> StartsWith(display, "Team ") && !StartsWith(display, "Team Team ")
    ensures subteamId.Some? && TeamNameMapping(subteamId.value).Some? ==>
      display == "Team " + TeamNameMapping(subteamId.value).value
    ensures subteamId.Some? && TeamNameMapping(subteamId.value).None? ==>
      display == "Team " + IntToString(subteamId.value)
  {
    var teamName := ArenaTeamName(subteamId);
    if subteamId.Some? && TeamNameMapping(subteamId.value).None? then
      assert teamName[5] == IntToString(subteamId.value)[0];
      teamName
    else if teamName == UnknownTeam then teamName
    else
      TeamNamesInitials(subteamId.value);
      assert ("Team " + teamName)[5] == teamName[0];
      "Team " + teamName
  }

  /** The corrected display name differs from the source's only for ids without a name. */
  lemma FormattedAgreesOnNamedTeams(subteamId: Option<int>)
    requires subteamId.None? || TeamNameMapping(subteamId.value).Some?
    ensures FormattedArenaTeamName(subteamId) == FormattedArenaTeamNameAsWritten(subteamId)
  {
  }

  const SubteamImageBase := "https://raw.communitydragon.org/latest/plugins/rcp-fe-lol-postgame/global/default/subteams/"

  /** The badge image of a named sub-team, or "" when there is none. */
  function ArenaTeamImageUrl(subteamId: Option<int>): (url: string)
    ensures url != [] <==> subteamId.Some? && 1 <= subteamId.value <= 8
    ensures url != [] ==>
      url == SubteamImageBase + TeamImageMapping(TeamNameMapping(subteamId.value).value).value + ".svg"
  {
    match subteamId
    case None => ""
    case Some(id) =>
      match TeamNameMapping(id)
      case None => ""
      case Some(teamName) =>
        match TeamImageMapping(teamName)
        case None => ""
        case Some(imageName) => SubteamImageBase + imageName + ".svg"
  }
}
