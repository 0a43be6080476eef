/** The champion portrait with its two summoner-spell badges. */
module ChampionAvatar {
  import opened Wrappers
  import opened MatchTypes
  import DataDragon
  import ChampionImage

  /** The spell table. */
  function SpellMapping(summonerSpellId: int): Option<string> {
    match summonerSpellId
    case 1 => Some("SummonerBoost")
    case 3 => Some("SummonerExhaust")
    case 4 => Some("SummonerFlash")
    case 6 => Some("SummonerHaste")
    case 7 => Some("SummonerHeal")
    case 11 => Some("SummonerSmite")
    case 12 => Some("SummonerTeleport")
    case 13 => Some("SummonerMana")
    case 14 => Some("SummonerDot")
    case 21 => Some("SummonerBarrier")
    case 30 => Some("SummonerPoroRecall")
    case 31 => Some("SummonerPoroThrow")
    case 32 => Some("SummonerSnowball")
    case 39 => Some("SummonerSnowURFSnowball_Mark")
    case 54 => Some("Summoner_UltBookPlaceholder")
    case 55 => Some("Summoner_UltBookSmitePlaceholder")
    case _ => None
  }

  /** The spell's image key; any id missing from the table shows Flash. */
  function SpellName(summonerSpellId: int): (name: string)
    ensures SpellMapping(summonerSpellId).Some? ==> name == SpellMapping(summonerSpellId).value
    ensures SpellMapping(summonerSpellId).None? ==> name == "SummonerFlash"
  {
    SpellMapping(summonerSpellId).GetOr("SummonerFlash")
  }

  /** Flash is shown for spell 4 and for every id the table lacks, and only for those. */
  lemma FlashIsDefault(summonerSpellId: int)
    ensures SpellName(summonerSpellId) == "SummonerFlash"
        <==> summonerSpellId == 4 || SpellMapping(summonerSpellId).None?
  {
  }

  function SpellImageUrl(summonerSpellId: int): string {
    DataDragon.Cdn + DataDragon.PinnedVersion + "/img/spell/" + SpellName(summonerSpellId) + ".png"
  }

  /** Two spell ids share a badge exactly when they share a spell key; in particular every
      unlisted id shows the Flash badge. */
  lemma SpellUrlDeterminedByName(a: int, b: int)
    ensures SpellImageUrl(a) == SpellImageUrl(b) <==> SpellName(a) == SpellName(b)
    ensures SpellMapping(a).None? ==> SpellImageUrl(a) == SpellImageUrl(4)
  {
    var prefix := DataDragon.Cdn + DataDragon.PinnedVersion + "/img/spell/";
    var ua, ub := SpellImageUrl(a), SpellImageUrl(b);
    if ua == ub {
      assert ua[|prefix|..|ua| - 4] == SpellName(a);
      assert ub[|prefix|..|ub| - 4] == SpellName(b);
    }
  }

  /** The portrait URL uses the champion name as it is, with no key normalisation. */
  function AvatarChampionUrl(championName: string): string {
    DataDragon.Cdn + DataDragon.PinnedVersion + "/img/champion/" + championName + ".png"
  }

  /** The avatar's portrait agrees with the normalising URL builder exactly for names that
      are their own image key; "Wukong" is one that does not. */
  lemma AvatarSkipsNormalisation(championName: string)
    ensures AvatarChampionUrl(championName) == ChampionImage.ChampionImageUrl(DataDragon.PinnedVersion, championName)
        <==> ChampionImage.FormatChampionName(championName) == championName
  {
    var prefix := DataDragon.Cdn + DataDragon.PinnedVersion + "/img/champion/";
    var a := AvatarChampionUrl(championName);
    var b := ChampionImage.ChampionImageUrl(DataDragon.PinnedVersion, championName);
    if a == b {
      assert a[|prefix|..|a| - 4] == championName;
      assert b[|prefix|..|b| - 4] == ChampionImage.FormatChampionName(championName);
    }
  }

  /** The three images of the avatar: portrait, first spell, second spell. */
  datatype AvatarImages = AvatarImages(champion: string, spell1: string, spell2: string)

  function Avatar(p: Participant): (imgs: AvatarImages)
    ensures imgs.spell1 == SpellImageUrl(p.summoner1Id) && imgs.spell2 == SpellImageUrl(p.summoner2Id)
    ensures imgs.champion == AvatarChampionUrl(p.championName)
  {
    AvatarImages(AvatarChampionUrl(p.championName), SpellImageUrl(p.summoner1Id), SpellImageUrl(p.summoner2Id))
  }
}
