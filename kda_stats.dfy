/** The KDA line of a match card: the ratio label and its colour tier. */
module KdaStats {
  import opened MatchTypes

  /** `calculateKDA`: "Perfect" for a deathless game with a kill or assist, "0.00" for a
      deathless game without, otherwise the ratio (printed with two decimals). */
  datatype KdaLabel = PerfectKda | ZeroKda | RatioKda(ratio: real)

  function CalculateKda(kills: int, deaths: int, assists: int): (shown: KdaLabel)
    ensures shown.PerfectKda? <==> deaths == 0 && kills + assists > 0
    ensures shown.ZeroKda? <==> deaths == 0 && kills + assists <= 0
    ensures shown.RatioKda? <==> deaths != 0
    ensures shown.RatioKda? ==> shown.ratio * deaths as real == (kills + assists) as real
  {
    if deaths == 0 then (if kills + assists > 0 then PerfectKda else ZeroKda)
    else RatioKda((kills + assists) as real / deaths as real)
  }

  /** The ratio the colour is chosen from: 10 for a perfect game, 0 for 0/0/0. */
  function KdaValue(kills: int, deaths: int, assists: int): (kda: real)
    ensures deaths == 0 && kills + assists > 0 ==> kda == 10.0
    ensures deaths == 0 && kills + assists <= 0 ==> kda == 0.0
    ensures deaths != 0 ==> kda * deaths as real == (kills + assists) as real
  {
    if deaths == 0 then (if kills + assists > 0 then 10.0 else 0.0)
    else (kills + assists) as real / deaths as real
  }

  datatype KdaColor = Gold | Green | Blue | Red

  /** `getKDAColor`: at least 3 gold, at least 2 green, at least 1 blue, else red. */
  function KdaColorOf(kills: int, deaths: int, assists: int): (c: KdaColor)
    ensures c == Gold <==> KdaValue(kills, deaths, assists) >= 3.0
    ensures c == Green <==> 2.0 <= KdaValue(kills, deaths, assists) < 3.0
    ensures c == Blue <==> 1.0 <= KdaValue(kills, deaths, assists) < 2.0
    ensures c == Red <==> KdaValue(kills, deaths, assists) < 1.0
  {
    var kda := KdaValue(kills, deaths, assists);
    if kda >= 3.0 then Gold
    else if kda >= 2.0 then Green
    else if kda >= 1.0 then Blue
    else Red
  }

  /** A perfect game is always gold, and the label and the colour agree on it. */
  lemma PerfectIsGold(kills: int, deaths: int, assists: int)
    requires CalculateKda(kills, deaths, assists).PerfectKda?
    ensures KdaColorOf(kills, deaths, assists) == Gold
  {
  }

  /** With deaths, the tier is decided by whole numbers: kills + assists against three,
      two and one times the deaths. */
  lemma {:induction false} ColorByIntegers(kills: int, deaths: int, assists: int)
    requires deaths > 0
    ensures KdaColorOf(kills, deaths, assists) == Gold <==> kills + assists >= 3 * deaths
    ensures KdaColorOf(kills, deaths, assists) == Green <==> 2 * deaths <= kills + assists < 3 * deaths
    ensures KdaColorOf(kills, deaths, assists) == Blue <==> deaths <= kills + assists < 2 * deaths
    ensures KdaColorOf(kills, deaths, assists) == Red <==> kills + assists < deaths
  {
    var kda := KdaValue(kills, deaths, assists);
    AtLeastByIntegers(kda, kills + assists, deaths, 3);
    AtLeastByIntegers(kda, kills + assists, deaths, 2);
    AtLeastByIntegers(kda, kills + assists, deaths, 1);
  }

  /** For d > 0 and r·d = n: r ≥ m exactly when n ≥ m·d. */
  lemma AtLeastByIntegers(r: real, n: int, d: int, m: int)
    requires d > 0 && r * d as real == n as real
    ensures r >= m as real <==> n >= m * d
  {
    var dr := d as real;
    if r >= m as real {
      assert r * dr >= (m as real) * dr;
    } else {
      assert r * dr < (m as real) * dr;
    }
  }
}
