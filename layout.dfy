/** The header's quick search: a "name#tag" query becomes a summoner page path. */
module Layout {
  import opened Wrappers
  import opened Strings
  import SummonerPage

  /** The region the quick search starts with, and the tag used when the query has none. */
  const InitialRegion := "EUW"
  const DefaultTag := "EUW"

  /** `handleQuickSearch`: no navigation for a blank query; otherwise the trimmed query is
      split at "#", the first segment is the name and the second, unless missing or empty,
      the tag. */
  function QuickSearch(query: string, region: string): (path: Option<string>)
    ensures path.None? <==> forall i | 0 <= i < |query| :: query[i] in JsWhitespace
    ensures path.Some? ==>
      var parts := Split(Trim(query, JsWhitespace), '#');
      path.value == SummonerPage.SummonerPath(region, parts[0],
                                              if |parts| >= 2 && parts[1] != [] then parts[1] else DefaultTag)
  {
    var trimmed := Trim(query, JsWhitespace);
    if trimmed == [] then None
    else
      var parts := Split(trimmed, '#');
      var tag := if |parts| >= 2 && parts[1] != [] then parts[1] else DefaultTag;
      Some(SummonerPage.SummonerPath(region, parts[0], tag))
  }

  /** A query "name#tag" without surrounding blanks leads to the page of that name and tag. */
  lemma QuickSearchNameTag(name: string, tag: string, region: string)
    requires name != [] && name[0] !in JsWhitespace && '#' !in name
    requires tag != [] && tag[|tag| - 1] !in JsWhitespace && '#' !in tag
    ensures QuickSearch(name + "#" + tag, region) == Some(SummonerPage.SummonerPath(region, name, tag))
  {
    var q := name + "#" + tag;
    TrimUnchanged(q, JsWhitespace);
    assert Join([name, tag], '#') == q;
    SplitJoin([name, tag], '#');
  }

  /** Segments after the second are ignored. */
  lemma QuickSearchIgnoresExtraSegments(name: string, tag: string, rest: string, region: string)
    requires name != [] && name[0] !in JsWhitespace && '#' !in name
    requires tag != [] && '#' !in tag && '#' !in rest
    requires rest != [] && rest[|rest| - 1] !in JsWhitespace
    ensures QuickSearch(name + "#" + tag + "#" + rest, region)
         == Some(SummonerPage.SummonerPath(region, name, tag))
  {
    var q := name + "#" + tag + "#" + rest;
    TrimUnchanged(q, JsWhitespace);
    assert Join([name, tag, rest], '#') == q by {
      assert [name, tag, rest][1..] == [tag, rest];
      assert Join([tag, rest], '#') == tag + "#" + rest;
    }
    SplitJoin([name, tag, rest], '#');
  }

  /** A query without a tag gets the default one. */
  lemma QuickSearchDefaultTag(name: string, region: string)
    requires name != [] && name[0] !in JsWhitespace && name[|name| - 1] !in JsWhitespace
    requires '#' !in name
    ensures QuickSearch(name, region) == Some(SummonerPage.SummonerPath(region, name, DefaultTag))
  {
    TrimUnchanged(name, JsWhitespace);
    SplitWithoutSeparator(name, '#');
  }
}
