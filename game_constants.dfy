/** Queue and game-mode tables and the classification of a match by its queue. */
module GameConstants {
  import opened Wrappers
  import opened Strings

  /** The display name and map of a queue. */
  datatype QueueInfo = QueueInfo(name: string, mapName: string)

  /** The queue table: `None` for a queue id the table does not list. */
  function QueueMapping(queueId: int): Option<QueueInfo> {
    match queueId
      case 0 => Some(QueueInfo("Custom", "Custom games"))
      case 2 => Some(QueueInfo("Blind Pick", "Summoner's Rift"))
      case 4 => Some(QueueInfo("Ranked Solo", "Summoner's Rift"))
      case 6 => Some(QueueInfo("Ranked Premade", "Summoner's Rift"))
      case 7 => Some(QueueInfo("Co-op vs AI", "Summoner's Rift"))
      case 8 => Some(QueueInfo("Normal 3v3", "Twisted Treeline"))
      case 9 => Some(QueueInfo("Ranked 3v3", "Twisted Treeline"))
      case 14 => Some(QueueInfo("Draft Pick", "Summoner's Rift"))
      case 16 => Some(QueueInfo("Dominion Blind", "Crystal Scar"))
      case 17 => Some(QueueInfo("Dominion Draft", "Crystal Scar"))
      case 25 => Some(QueueInfo("Dominion Co-op vs AI", "Crystal Scar"))
      case 31 => Some(QueueInfo("Co-op vs AI Intro", "Summoner's Rift"))
      case 32 => Some(QueueInfo("Co-op vs AI Beginner", "Summoner's Rift"))
      case 33 => Some(QueueInfo("Co-op vs AI Intermediate", "Summoner's Rift"))
      case 41 => Some(QueueInfo("Ranked 3v3 Team", "Twisted Treeline"))
      case 42 => Some(QueueInfo("Ranked 5v5 Team", "Summoner's Rift"))
      case 52 => Some(QueueInfo("Co-op vs AI 3v3", "Twisted Treeline"))
      case 61 => Some(QueueInfo("Team Builder", "Summoner's Rift"))
      case 65 => Some(QueueInfo("ARAM", "Howling Abyss"))
      case 67 => Some(QueueInfo("ARAM Co-op vs AI", "Howling Abyss"))
      case 70 => Some(QueueInfo("One for All", "Summoner's Rift"))
      case 72 => Some(QueueInfo("Snowdown 1v1", "Howling Abyss"))
      case 73 => Some(QueueInfo("Snowdown 2v2", "Howling Abyss"))
      case 75 => Some(QueueInfo("Hexakill SR", "Summoner's Rift"))
      case 76 => Some(QueueInfo("URF", "Summoner's Rift"))
      case 78 => Some(QueueInfo("One For All Mirror", "Howling Abyss"))
      case 83 => Some(QueueInfo("Co-op vs AI URF", "Summoner's Rift"))
      case 91 => Some(QueueInfo("Doom Bots Rank 1", "Summoner's Rift"))
      case 92 => Some(QueueInfo("Doom Bots Rank 2", "Summoner's Rift"))
      case 93 => Some(QueueInfo("Doom Bots Rank 5", "Summoner's Rift"))
      case 96 => Some(QueueInfo("Ascension", "Crystal Scar"))
      case 98 => Some(QueueInfo("Hexakill TT", "Twisted Treeline"))
      case 100 => Some(QueueInfo("ARAM", "Butcher's Bridge"))
      case 300 => Some(QueueInfo("Legend of the Poro King", "Howling Abyss"))
      case 310 => Some(QueueInfo("Nemesis", "Summoner's Rift"))
      case 313 => Some(QueueInfo("Black Market Brawlers", "Summoner's Rift"))
      case 315 => Some(QueueInfo("Nexus Siege", "Summoner's Rift"))
      case 317 => Some(QueueInfo("Definitely Not Dominion", "Crystal Scar"))
      case 318 => Some(QueueInfo("ARURF", "Summoner's Rift"))
      case 325 => Some(QueueInfo("All Random", "Summoner's Rift"))
      case 400 => Some(QueueInfo("Draft Pick", "Summoner's Rift"))
      case 410 => Some(QueueInfo("Ranked Dynamic", "Summoner's Rift"))
      case 420 => Some(QueueInfo("Ranked Solo/Duo", "Summoner's Rift"))
      case 430 => Some(QueueInfo("Blind Pick", "Summoner's Rift"))
      case 440 => Some(QueueInfo("Ranked Flex", "Summoner's Rift"))
      case 450 => Some(QueueInfo("ARAM", "Howling Abyss"))
      case 460 => Some(QueueInfo("Blind Pick 3v3", "Twisted Treeline"))
      case 470 => Some(QueueInfo("Ranked Flex 3v3", "Twisted Treeline"))
      case 490 => Some(QueueInfo("Quickplay", "Summoner's Rift"))
      case 600 => Some(QueueInfo("Blood Hunt Assassin", "Summoner's Rift"))
      case 610 => Some(QueueInfo("Dark Star: Singularity", "Cosmic Ruins"))
      case 700 => Some(QueueInfo("Clash", "Summoner's Rift"))
      case 720 => Some(QueueInfo("ARAM Clash", "Howling Abyss"))
      case 800 => Some(QueueInfo("Co-op vs AI Intermediate 3v3", "Twisted Treeline"))
      case 810 => Some(QueueInfo("Co-op vs AI Intro 3v3", "Twisted Treeline"))
      case 820 => Some(QueueInfo("Co-op vs AI Beginner 3v3", "Twisted Treeline"))
      case 830 => Some(QueueInfo("Co-op vs AI Intro", "Summoner's Rift"))
      case 840 => Some(QueueInfo("Co-op vs AI Beginner", "Summoner's Rift"))
      case 850 => Some(QueueInfo("Co-op vs AI Intermediate", "Summoner's Rift"))
      case 870 => Some(QueueInfo("Co-op vs AI Intro", "Summoner's Rift"))
      case 880 => Some(QueueInfo("Co-op vs AI Beginner", "Summoner's Rift"))
      case 890 => Some(QueueInfo("Co-op vs AI Intermediate", "Summoner's Rift"))
      case 900 => Some(QueueInfo("ARURF", "Summoner's Rift"))
      case 910 => Some(QueueInfo("Ascension", "Crystal Scar"))
      case 920 => Some(QueueInfo("Legend of the Poro King", "Howling Abyss"))
      case 940 => Some(QueueInfo("Nexus Siege", "Summoner's Rift"))
      case 950 => Some(QueueInfo("Doom Bots Voting", "Summoner's Rift"))
      case 960 => Some(QueueInfo("Doom Bots Standard", "Summoner's Rift"))
      case 980 => Some(QueueInfo("Star Guardian Invasion: Normal", "Valoran City Park"))
      case 990 => Some(QueueInfo("Star Guardian Invasion: Onslaught", "Valoran City Park"))
      case 1000 => Some(QueueInfo("PROJECT: Hunters", "Overcharge"))
      case 1010 => Some(QueueInfo("Snow ARURF", "Summoner's Rift"))
      case 1020 => Some(QueueInfo("One for All", "Summoner's Rift"))
      case 1030 => Some(QueueInfo("Odyssey Extraction: Intro", "Crash Site"))
      case 1040 => Some(QueueInfo("Odyssey Extraction: Cadet", "Crash Site"))
      case 1050 => Some(QueueInfo("Odyssey Extraction: Crewmember", "Crash Site"))
      case 1060 => Some(QueueInfo("Odyssey Extraction: Captain", "Crash Site"))
      case 1070 => Some(QueueInfo("Odyssey Extraction: Onslaught", "Crash Site"))
      case 1090 => Some(QueueInfo("Teamfight Tactics", "Convergence"))
      case 1100 => Some(QueueInfo("Ranked Teamfight Tactics", "Convergence"))
      case 1110 => Some(QueueInfo("Teamfight Tactics Tutorial", "Convergence"))
      case 1111 => Some(QueueInfo("Teamfight Tactics Test", "Convergence"))
      case 1200 => Some(QueueInfo("Nexus Blitz", "Nexus Blitz"))
      case 1210 => Some(QueueInfo("Teamfight Tactics Choncc's Treasure", "Convergence"))
      case 1300 => Some(QueueInfo("Nexus Blitz", "Nexus Blitz"))
      case 1400 => Some(QueueInfo("Ultimate Spellbook", "Summoner's Rift"))
      case 1700 => Some(QueueInfo("Arena", "Rings of Wrath"))
      case 1710 => Some(QueueInfo("Arena", "Rings of Wrath"))
      case 1810 => Some(QueueInfo("Swarm (1 player)", "Swarm"))
      case 1820 => Some(QueueInfo("Swarm (2 players)", "Swarm Mode Games"))
      case 1830 => Some(QueueInfo("Swarm (3 players)", "Swarm Mode Games"))
      case 1840 => Some(QueueInfo("Swarm (4 players)", "Swarm Mode Games"))
      case 1900 => Some(QueueInfo("Pick URF", "Summoner's Rift"))
      case 2000 => Some(QueueInfo("Tutorial 1", "Summoner's Rift"))
      case 2010 => Some(QueueInfo("Tutorial 2", "Summoner's Rift"))
      case 2020 => Some(QueueInfo("Tutorial 3", "Summoner's Rift"))
      case _ => None
  }

  const UnknownQueue := QueueInfo("Unknown Queue", "Unknown Map")

  /** The queue's table entry, or "Unknown Queue" on "Unknown Map" for an id the table lacks. */
  function GetQueueInfo(queueId: int): (info: QueueInfo)
    ensures QueueMapping(queueId).Some? ==> info == QueueMapping(queueId).value
    ensures QueueMapping(queueId).None? ==> info == UnknownQueue
  {
    QueueMapping(queueId).GetOr(UnknownQueue)
  }

  /** Every queue the table lists has a non-empty name and map, so the JavaScript `||`
      fallback only ever applies to ids missing from the table. */
  lemma QueueNamesNonEmpty(queueId: int)
    requires QueueMapping(queueId).Some?
    ensures QueueMapping(queueId).value.name != []
  {
  }

  /** The game-mode table: `None` for a mode it does not list. */
  function GameModeMapping(gameMode: string): Option<string> {
    match gameMode
      case "CLASSIC" => Some("Classic")
      case "ODIN" => Some("Dominion")
      case "ARAM" => Some("ARAM")
      case "TUTORIAL" => Some("Tutorial")
      case "URF" => Some("URF")
      case "DOOMBOTSTEEMO" => Some("Doom Bots")
      case "ONEFORALL" => Some("One for All")
      case "ASCENSION" => Some("Ascension")
      case "FIRSTBLOOD" => Some("Snowdown Showdown")
      case "KINGPORO" => Some("Legend of the Poro King")
      case "SIEGE" => Some("Nexus Siege")
      case "ASSASSINATE" => Some("Blood Hunt Assassin")
      case "ARSR" => Some("All Random Summoner's Rift")
      case "DARKSTAR" => Some("Dark Star: Singularity")
      case "STARGUARDIAN" => Some("Star Guardian Invasion")
      case "PROJECT" => Some("PROJECT: Hunters")
      case "GAMEMODEX" => Some("Nexus Blitz")
      case "ODYSSEY" => Some("Odyssey: Extraction")
      case "NEXUSBLITZ" => Some("Nexus Blitz")
      case "ULTBOOK" => Some("Ultimate Spellbook")
      case _ => None
  }

  /** The human-readable name of a game mode; a mode the table lacks is shown as it is. */
  function GameModeDisplayName(gameMode: string): (display: string)
    ensures GameModeMapping(gameMode).Some? ==> display == GameModeMapping(gameMode).value
    ensures GameModeMapping(gameMode).None? ==> display == gameMode
  {
    match GameModeMapping(gameMode)
      case Some(d) => if d != [] then d else gameMode
      case None => gameMode
  }

  /** The display name is never empty unless the mode itself is. */
  lemma GameModeDisplayNameNonEmpty(gameMode: string)
    requires gameMode != []
    ensures GameModeDisplayName(gameMode) != []
  {
  }

  // ---------------------------------------------------------------------------
  // Classification by the lower-cased queue name

  predicate NameIsRanked(name: string) {
    Contains(ToLower(name), "ranked")
  }

  predicate NameIsNormal(name: string) {
    var n := ToLower(name);
    !NameIsRanked(name)
    && (Contains(n, "blind") || Contains(n, "draft") || Contains(n, "normal") || Contains(n, "quickplay"))
  }

  datatype MatchTypeInfo = MatchTypeInfo(
    displayName: string,
    mapName: string,
    isRanked: bool,
    isNormal: bool,
    isSpecialMode: bool)

  /** Ranked when the queue name mentions "ranked"; otherwise normal when it mentions blind,
      draft, normal or quickplay; otherwise a special mode. Exactly one of the three holds. */
  function MatchTypeOf(info: QueueInfo): (t: MatchTypeInfo)
    ensures t.displayName == info.name && t.mapName == info.mapName
    ensures t.isRanked <==> NameIsRanked(info.name)
    ensures t.isNormal <==> NameIsNormal(info.name)
    ensures t.isSpecialMode <==> !t.isRanked && !t.isNormal
    ensures !(t.isRanked && t.isNormal)
  {
    var isRanked := NameIsRanked(info.name);
    var isNormal := NameIsNormal(info.name);
    MatchTypeInfo(info.name, info.mapName, isRanked, isNormal, !isRanked && !isNormal)
  }

  /** `getMatchTypeInfo`: exactly one of the three flags holds for every queue id. */
  function GetMatchTypeInfo(queueId: int): (t: MatchTypeInfo)
    ensures t.displayName == GetQueueInfo(queueId).name && t.mapName == GetQueueInfo(queueId).mapName
    ensures t.isRanked || t.isNormal || t.isSpecialMode
    ensures !(t.isRanked && t.isNormal) && !(t.isRanked && t.isSpecialMode) && !(t.isNormal && t.isSpecialMode)
  {
    MatchTypeOf(GetQueueInfo(queueId))
  }

  /** The icon chosen for a queue (the source returns an emoji for each). */
  datatype QueueIcon = RankedSolo | RankedFlex | RankedOther | Aram | Urf | Arena | Clash
                     | Tutorial | Bot | Custom | Default
  {
    predicate IsRankedIcon() { this == RankedSolo || this == RankedFlex || this == RankedOther }
  }

  /** The keywords tested after "ranked", in the source's order, and the icon each picks
      ("co-op" and "bot" share one). */
  const IconKeywords: seq<string> := ["aram", "urf", "arena", "clash", "tutorial", "co-op", "bot", "custom"]

  function KeywordIcon(k: int): QueueIcon
    requires 0 <= k < |IconKeywords|
  {
    [Aram, Urf, Arena, Clash, Tutorial, Bot, Bot, Custom][k]
  }

  /** The first keyword of the lower-cased queue name, in the source's order, picks the icon:
      "ranked" first (then "solo", "flex", or the trophy), then the first of IconKeywords that
      occurs, else the default icon. */
  function IconForName(queueName: string): (icon: QueueIcon)
    ensures icon.IsRankedIcon() <==> NameIsRanked(queueName)
    ensures NameIsRanked(queueName) ==> (icon == RankedSolo <==> Contains(ToLower(queueName), "solo"))
    ensures NameIsRanked(queueName) ==>
              (icon == RankedFlex <==> !Contains(ToLower(queueName), "solo") && Contains(ToLower(queueName), "flex"))
    ensures !NameIsRanked(queueName) ==>
              forall k | 0 <= k < |IconKeywords| && Contains(ToLower(queueName), IconKeywords[k])
                         && (forall j | 0 <= j < k :: !Contains(ToLower(queueName), IconKeywords[j]))
                :: icon == KeywordIcon(k)
    ensures icon == Default <==>
              !NameIsRanked(queueName) && forall k | 0 <= k < |IconKeywords| :: !Contains(ToLower(queueName), IconKeywords[k])
  {
    var name := ToLower(queueName);
    assert IconKeywords[0] == "aram" && IconKeywords[1] == "urf" && IconKeywords[2] == "arena"
           && IconKeywords[3] == "clash" && IconKeywords[4] == "tutorial" && IconKeywords[5] == "co-op"
           && IconKeywords[6] == "bot" && IconKeywords[7] == "custom";
    if Contains(name, "ranked") then
      if Contains(name, "solo") then RankedSolo
      else if Contains(name, "flex") then RankedFlex
      else RankedOther
    else if Contains(name, "aram") then Aram
    else if Contains(name, "urf") then Urf
    else if Contains(name, "arena") then Arena
    else if Contains(name, "clash") then Clash
    else if Contains(name, "tutorial") then Tutorial
    else if Contains(name, "co-op") || Contains(name, "bot") then Bot
    else if Contains(name, "custom") then Custom
    else Default
  }

  /** `getQueueIcon`: the icon and the match type agree on which queues are ranked. */
  function GetQueueIcon(queueId: int): (icon: QueueIcon)
    ensures icon.IsRankedIcon() <==> GetMatchTypeInfo(queueId).isRanked
  {
    IconForName(GetQueueInfo(queueId).name)
  }

  // ---------------------------------------------------------------------------
  // How particular queue names are classified

  lemma UnknownQueueName()
    ensures MatchTypeOf(UnknownQueue).isSpecialMode && IconForName(UnknownQueue.name) == Default
  {
    UnknownQueueNotRanked();
    UnknownQueueNotNormal();
    UnknownQueueNameLacks("unknown queue");
  }

  lemma UnknownQueueNotRanked()
    ensures ToLower("Unknown Queue") == "unknown queue"
    ensures !NameIsRanked("Unknown Queue")
  {
    OccurrenceChars("unknown queue", "ranked", 0);   // no 'r'
  }

  lemma UnknownQueueNotNormal()
    ensures !NameIsNormal("Unknown Queue")
  {
    UnknownQueueNotRanked();
    var n := "unknown queue";
    OccurrenceChars(n, "blind", 0);       // no 'b'
    OccurrenceChars(n, "draft", 0);       // no 'd'
    OccurrenceChars(n, "normal", 3);      // no 'm'
    OccurrenceChars(n, "quickplay", 2);   // no 'i'
  }

  lemma UnknownQueueNameLacks(n: string)
    requires n == "unknown queue"
    ensures !Contains(n, "aram") && !Contains(n, "urf") && !Contains(n, "arena") && !Contains(n, "clash")
    ensures !Contains(n, "tutorial") && !Contains(n, "co-op") && !Contains(n, "bot") && !Contains(n, "custom")
  {
    OccurrenceChars(n, "aram", 0);        // no 'a'
    OccurrenceChars(n, "urf", 1);
    OccurrenceChars(n, "arena", 0);
    OccurrenceChars(n, "clash", 0);
    OccurrenceChars(n, "tutorial", 0);
    OccurrenceChars(n, "co-op", 0);
    OccurrenceChars(n, "bot", 0);
    OccurrenceChars(n, "custom", 0);
  }

  lemma RankedSoloDuoName()
    ensures NameIsRanked("Ranked Solo/Duo") && IconForName("Ranked Solo/Duo") == RankedSolo
  {
    assert ToLower("Ranked Solo/Duo") == "ranked solo/duo";
    assert OccursAt("ranked solo/duo", "ranked", 0);
    assert OccursAt("ranked solo/duo", "solo", 7);
  }

  lemma RankedFlexName()
    ensures NameIsRanked("Ranked Flex") && IconForName("Ranked Flex") == RankedFlex
  {
    assert ToLower("Ranked Flex") == "ranked flex";
    assert OccursAt("ranked flex", "ranked", 0);
    assert OccursAt("ranked flex", "flex", 7);
    OccurrenceChars("ranked flex", "solo", 0);
  }

  lemma DraftAndBlindPickNames()
    ensures NameIsNormal("Draft Pick") && NameIsNormal("Blind Pick")
  {
    assert ToLower("Draft Pick") == "draft pick";
    OccurrenceChars("draft pick", "ranked", 2);   // no 'n'
    assert OccursAt("draft pick", "draft", 0);
    assert ToLower("Blind Pick") == "blind pick";
    OccurrenceChars("blind pick", "ranked", 0);   // no 'r'
    assert OccursAt("blind pick", "blind", 0);
  }

  /** "ARAM Co-op vs AI" mentions both "aram" and "co-op"; "aram" is tested first. */
  lemma AramCoopName()
    ensures IconForName("ARAM Co-op vs AI") == Aram
  {
    assert ToLower("ARAM Co-op vs AI") == "aram co-op vs ai";
    OccurrenceChars("aram co-op vs ai", "ranked", 3);   // no 'k'
    assert OccursAt("aram co-op vs ai", "aram", 0);
  }

  lemma ArenaName()
    ensures !NameIsRanked("Arena") && !NameIsNormal("Arena") && IconForName("Arena") == Arena
  {
    var a := ToLower("Arena");
    assert a == "arena";
    OccurrenceChars(a, "ranked", 3);     // no 'k'
    OccurrenceChars(a, "blind", 0);
    OccurrenceChars(a, "draft", 0);
    OccurrenceChars(a, "normal", 1);     // no 'o'
    OccurrenceChars(a, "quickplay", 0);
    OccurrenceChars(a, "aram", 3);       // no 'm'
    OccurrenceChars(a, "urf", 0);
    assert OccursAt(a, "arena", 0);
  }

  // ---------------------------------------------------------------------------
  // What the tables give for particular queues

  /** A queue id the table does not list is a special mode with the default icon. */
  lemma UnknownQueueIsSpecial(queueId: int)
    requires QueueMapping(queueId).None?
    ensures GetMatchTypeInfo(queueId).isSpecialMode
    ensures GetMatchTypeInfo(queueId).displayName == "Unknown Queue"
    ensures GetQueueIcon(queueId) == Default
  {
    assert GetQueueInfo(queueId) == UnknownQueue;
    UnknownQueueName();
  }

  /** Ranked Solo/Duo (420) is ranked and gets the solo icon; Ranked Flex (440) the flex icon. */
  lemma RankedQueues()
    ensures GetMatchTypeInfo(420).isRanked && GetQueueIcon(420) == RankedSolo
    ensures GetMatchTypeInfo(440).isRanked && GetQueueIcon(440) == RankedFlex
  {
    assert GetQueueInfo(420).name == "Ranked Solo/Duo";
    assert GetQueueInfo(440).name == "Ranked Flex";
    RankedSoloDuoName();
    RankedFlexName();
  }

  /** Draft Pick (400) and Blind Pick (430) are normal games. */
  lemma NormalQueues()
    ensures GetMatchTypeInfo(400).isNormal && GetMatchTypeInfo(430).isNormal
  {
    assert GetQueueInfo(400).name == "Draft Pick";
    assert GetQueueInfo(430).name == "Blind Pick";
    DraftAndBlindPickNames();
  }

  /** ARAM Co-op vs AI (67) gets the ARAM icon; Arena (1700) is a special mode with the
      arena icon. */
  lemma SpecialQueues()
    ensures GetQueueIcon(67) == Aram
    ensures GetMatchTypeInfo(1700).isSpecialMode && GetQueueIcon(1700) == Arena
  {
    assert GetQueueInfo(67).name == "ARAM Co-op vs AI";
    assert GetQueueInfo(1700).name == "Arena";
    AramCoopName();
    ArenaName();
  }
}
