/** The player summary: ranked queue names and icons, tier colours and the win and loss
    totals over the ranked entries. */
module PlayerInfo {
  import opened MatchTypes

  /** The ranked queue names; any other queue type is shown as it is. */
  function QueueName(queueType: string): (name: string)
    ensures queueType == "RANKED_SOLO_5x5" ==> name == "Ranked Solo/Duo"
    ensures queueType == "RANKED_FLEX_SR" ==> name == "Ranked Flex"
    ensures queueType == "RANKED_FLEX_TT" ==> name == "Ranked Flex 3v3"
    ensures queueType !in {"RANKED_SOLO_5x5", "RANKED_FLEX_SR", "RANKED_FLEX_TT"} ==> name == queueType
  {
    if queueType == "RANKED_SOLO_5x5" then "Ranked Solo/Duo"
    else if queueType == "RANKED_FLEX_SR" then "Ranked Flex"
    else if queueType == "RANKED_FLEX_TT" then "Ranked Flex 3v3"
    else queueType
  }

  /** The queue icons; `Generic` for any unlisted queue type. */
  datatype QueueIcon = SoloIcon | FlexIcon | TrophyIcon | Generic

  function QueueIconOf(queueType: string): (icon: QueueIcon)
    ensures icon == Generic <==> queueType !in {"RANKED_SOLO_5x5", "RANKED_FLEX_SR", "RANKED_FLEX_TT"}
    ensures icon == SoloIcon <==> queueType == "RANKED_SOLO_5x5"
    ensures icon == FlexIcon <==> queueType == "RANKED_FLEX_SR"
    ensures icon == TrophyIcon <==> queueType == "RANKED_FLEX_TT"
  {
    if queueType == "RANKED_SOLO_5x5" then SoloIcon
    else if queueType == "RANKED_FLEX_SR" then FlexIcon
    else if queueType == "RANKED_FLEX_TT" then TrophyIcon
    else Generic
  }

  /** Every listed queue has a name of its own, distinct from the raw queue type. */
  lemma ListedQueuesRenamed(queueType: string)
    ensures QueueIconOf(queueType) != Generic <==> QueueName(queueType) != queueType
  {
  }

  /** The tiers with a colour of their own. */
  const Tiers: set<string> := {"IRON", "BRONZE", "SILVER", "GOLD", "PLATINUM", "EMERALD", "DIAMOND",
                               "MASTER", "GRANDMASTER", "CHALLENGER"}

  /** `getTierColor`: the ten tiers' colours, white for anything else. */
  function TierColor(tier: string): (color: string)
    ensures tier !in Tiers ==> color == "text-white"
    ensures tier in Tiers ==> color != "text-white"
    ensures color != []
  {
    match tier
    case "IRON" => "text-gray-400"
    case "BRONZE" => "text-lol-bronze"
    case "SILVER" => "text-lol-silver"
    case "GOLD" => "text-lol-gold"
    case "PLATINUM" => "text-lol-platinum"
    case "EMERALD" => "text-emerald-400"
    case "DIAMOND" => "text-lol-diamond"
    case "MASTER" => "text-lol-master"
    case "GRANDMASTER" => "text-lol-grandmaster"
    case "CHALLENGER" => "text-lol-challenger"
    case _ => "text-white"
  }

  /** No two tiers share a colour. */
  lemma TierColorsDistinct(a: string, b: string)
    requires a in Tiers && b in Tiers && a != b
    ensures TierColor(a) != TierColor(b)
  {
  }

  /** `rankings.reduce((acc, r) => acc + r.wins, 0)`. */
  function TotalWins(rankings: seq<LeagueEntry>): int {
    if rankings == [] then 0 else TotalWins(rankings[..|rankings| - 1]) + rankings[|rankings| - 1].wins
  }

  /** `rankings.reduce((acc, r) => acc + r.losses, 0)`. */
  function TotalLosses(rankings: seq<LeagueEntry>): int {
    if rankings == [] then 0 else TotalLosses(rankings[..|rankings| - 1]) + rankings[|rankings| - 1].losses
  }

  /** The totals add up over any split of the entries. */
  lemma {:induction false} TotalsSplit(a: seq<LeagueEntry>, b: seq<LeagueEntry>)
    ensures TotalWins(a + b) == TotalWins(a) + TotalWins(b)
    ensures TotalLosses(a + b) == TotalLosses(a) + TotalLosses(b)
    decreases |b|
  {
    if b == [] {
      assert a + b == a;
    } else {
      var init := b[..|b| - 1];
      assert (a + b)[..|a + b| - 1] == a + init;
      TotalsSplit(a, init);
    }
  }

  /** Each entry's counts are bounded by the totals when no count is negative. */
  lemma {:induction false} EntryWithinTotals(rankings: seq<LeagueEntry>, i: int)
    requires 0 <= i < |rankings|
    requires forall j | 0 <= j < |rankings| :: rankings[j].wins >= 0 && rankings[j].losses >= 0
    ensures 0 <= rankings[i].wins <= TotalWins(rankings)
    ensures 0 <= rankings[i].losses <= TotalLosses(rankings)
  {
    var pre := rankings[..i];
    var post := rankings[i + 1..];
    assert rankings == pre + [rankings[i]] + post;
    TotalsSplit(pre + [rankings[i]], post);
    TotalsSplit(pre, [rankings[i]]);
    NonNegativeTotals(pre);
    NonNegativeTotals(post);
  }

  lemma {:induction false} NonNegativeTotals(rankings: seq<LeagueEntry>)
    requires forall j | 0 <= j < |rankings| :: rankings[j].wins >= 0 && rankings[j].losses >= 0
    ensures TotalWins(rankings) >= 0 && TotalLosses(rankings) >= 0
    decreases |rankings|
  {
    if rankings != [] {
      NonNegativeTotals(rankings[..|rankings| - 1]);
    }
  }

  /** The summary's figures and its ranked section. */
  datatype Summary = Summary(rankedQueues: nat, totalWins: int, totalLosses: int, noRankedGames: bool)

  function SummaryOf(data: PlayerData): (s: Summary)
    ensures s.rankedQueues == |data.rankings|
    ensures s.noRankedGames <==> data.rankings == []
    ensures s.noRankedGames ==> s.totalWins == 0 && s.totalLosses == 0
    ensures s.totalWins == TotalWins(data.rankings) && s.totalLosses == TotalLosses(data.rankings)
  {
    Summary(|data.rankings|, TotalWins(data.rankings), TotalLosses(data.rankings), |data.rankings| == 0)
  }
}
