/** Champion names as Data Dragon image keys, and the champion image URL. */
module ChampionImage {
  import opened Wrappers
  import opened Strings
  import DataDragon

  /** The champions whose image key is not simply their name with punctuation removed.
      The lookup is exact and case-sensitive. */
  function SpecialCase(name: string): Option<string> {
    match name
    case "Nunu & Willump" => Some("Nunu")
    case "Wukong" => Some("MonkeyKing")
    case "LeBlanc" => Some("Leblanc")
    case "Vel'Koz" => Some("Velkoz")
    case "Cho'Gath" => Some("Chogath")
    case "Kai'Sa" => Some("Kaisa")
    case "Kha'Zix" => Some("Khazix")
    case "Kog'Maw" => Some("KogMaw")
    case "Rek'Sai" => Some("RekSai")
    case "FiddleSticks" => Some("Fiddlesticks")
    case _ => None
  }

  /** Every key in the table is made of ASCII letters and digits. */
  lemma SpecialCasesAlnum(name: string)
    requires SpecialCase(name).Some?
    ensures SpecialCase(name).value != [] && AllAsciiAlnum(SpecialCase(name).value)
  {
    var key := SpecialCase(name).value;
    if key == "Nunu" {
    } else if key == "MonkeyKing" {
    } else if key == "Leblanc" {
    } else if key == "Velkoz" {
    } else if key == "Chogath" {
    } else if key == "Kaisa" {
    } else if key == "Khazix" {
    } else if key == "KogMaw" {
    } else if key == "RekSai" {
    } else {
      assert key == "Fiddlesticks";
    }
  }

  /** `a` can be obtained from `b` by deleting characters. */
  predicate IsSubsequence(a: string, b: string)
    decreases |b|
  {
    if a == [] then true
    else if b == [] then false
    else if a[0] == b[0] then IsSubsequence(a[1..], b[1..])
    else IsSubsequence(a, b[1..])
  }

  /** The number of ASCII letters and digits in `s`. */
  function CountAlnum(s: string): nat {
    if s == [] then 0 else (if IsAsciiAlnum(s[0]) then 1 else 0) + CountAlnum(s[1..])
  }

  /** `s.replace(/[^a-zA-Z0-9]/g, "")`: the letters and digits of `s`, all of them and in
      their order. */
  function StripNonAlnum(s: string): (r: string)
    ensures AllAsciiAlnum(r)
    ensures IsSubsequence(r, s)
    ensures |r| == CountAlnum(s)
  {
    if s == [] then []
    else if IsAsciiAlnum(s[0]) then [s[0]] + StripNonAlnum(s[1..])
    else StripNonAlnum(s[1..])
  }

  /** A string that is already alphanumeric is left as it is. */
  lemma {:induction false} StripAlnumUnchanged(s: string)
    requires AllAsciiAlnum(s)
    ensures StripNonAlnum(s) == s
  {
    if s != [] {
      StripAlnumUnchanged(s[1..]);
    }
  }

  /** The image key of a champion: its table entry, or its name without anything but
      ASCII letters and digits. */
  function FormatChampionName(name: string): (key: string)
    ensures SpecialCase(name).Some? ==> key == SpecialCase(name).value
    ensures SpecialCase(name).None? ==> key == StripNonAlnum(name)
    ensures AllAsciiAlnum(key)
  {
    match SpecialCase(name)
    case Some(k) =>
      // every table key is non-empty, so the `||` fallback never applies to it
      SpecialCasesAlnum(name);
      k
    case None => StripNonAlnum(name)
  }

  /** A name outside the table that is already alphanumeric is its own key. */
  lemma PlainNameUnchanged(name: string)
    requires SpecialCase(name).None? && AllAsciiAlnum(name)
    ensures FormatChampionName(name) == name
  {
    StripAlnumUnchanged(name);
  }

  /** "Wukong" and "Nunu & Willump" take their table keys. */
  lemma TableExamples()
    ensures FormatChampionName("Wukong") == "MonkeyKing"
    ensures FormatChampionName("Nunu & Willump") == "Nunu"
  {
    assert SpecialCase("Wukong") == Some("MonkeyKing");
    assert SpecialCase("Nunu & Willump") == Some("Nunu");
  }

  /** The lookup is case-sensitive: "FiddleSticks" is rewritten by the table ... */
  lemma FiddleSticksRewritten()
    ensures FormatChampionName("FiddleSticks") == "Fiddlesticks"
  {
    assert SpecialCase("FiddleSticks") == Some("Fiddlesticks");
  }

  /** ... while "Fiddlesticks" misses the table and is already its own key. */
  lemma FiddlesticksUnchanged(f: string)
    requires f == "Fiddlesticks"
    ensures SpecialCase(f).None? && FormatChampionName(f) == f
  {
    assert SpecialCase("Fiddlesticks").None?;
    assert AllAsciiAlnum("Fiddlesticks");
    PlainNameUnchanged(f);
  }

  /** The champion image URL for a game version: the file name between the version's
      champion directory and ".png" is the champion's key, so it holds only ASCII letters
      and digits whatever the name. */
  function ChampionImageUrl(gameVersion: string, championName: string): (url: string)
    ensures var prefix := DataDragon.Cdn + gameVersion + "/img/champion/";
            |url| >= |prefix| + 4 && url[..|prefix|] == prefix && url[|url| - 4..] == ".png"
            && AllAsciiAlnum(url[|prefix|..|url| - 4])
  {
    DataDragon.Cdn + gameVersion + "/img/champion/" + FormatChampionName(championName) + ".png"
  }

  /** For one game version, two champions share an image URL exactly when they share a key:
      the URL is the key placed between a fixed prefix and ".png". */
  lemma ChampionUrlDeterminedByKey(gameVersion: string, a: string, b: string)
    ensures ChampionImageUrl(gameVersion, a) == ChampionImageUrl(gameVersion, b)
        <==> FormatChampionName(a) == FormatChampionName(b)
  {
    var prefix := DataDragon.Cdn + gameVersion + "/img/champion/";
    var ua := ChampionImageUrl(gameVersion, a);
    var ub := ChampionImageUrl(gameVersion, b);
    if ua == ub {
      assert ua[|prefix|..|ua| - 4] == FormatChampionName(a);
      assert ub[|prefix|..|ub| - 4] == FormatChampionName(b);
    }
  }
}
