/** The input rules of the client: regions, summoner names and tags, and the "Name-Tag"
    segment of a summoner page URL. */
module Validation {
  import opened Wrappers
  import opened Strings

  /** The region codes the client offers, in the order it lists them. */
  const Regions: seq<string> := ["EUW", "NA", "KR", "EUNE", "BR", "JP", "LAN", "LAS", "OCE", "RU", "TR"]

  predicate IsRegion(region: string) {
    region in Regions
  }

  /** A name character: an ASCII letter or digit, or white space as `\s` understands it. */
  predicate IsNameChar(c: char) {
    IsAsciiAlnum(c) || c in JsWhitespace
  }

  /** A summoner name has 1 to 16 name characters. */
  predicate IsValidName(name: string) {
    1 <= |name| <= 16 && forall i | 0 <= i < |name| :: IsNameChar(name[i])
  }

  /** A tag has 2 to 5 ASCII letters and digits. */
  predicate IsValidTag(tag: string) {
    2 <= |tag| <= 5 && AllAsciiAlnum(tag)
  }

  /** `^.+-[a-zA-Z0-9]+$`: the URL segment is some characters other than line terminators,
      a dash, and a non-empty alphanumeric tail, split at some dash `i`. */
  predicate IsValidUrlNameTag(nameTag: string) {
    exists i | 0 <= i < |nameTag| :: UrlNameTagSplitAt(nameTag, i)
  }

  predicate UrlNameTagSplitAt(nameTag: string, i: int)
    requires 0 <= i < |nameTag|
  {
    nameTag[i] == '-' && i >= 1
    && (forall j | 0 <= j < i :: nameTag[j] !in JsLineTerminators)
    && i + 1 < |nameTag| && AllAsciiAlnum(nameTag[i + 1..])
  }

  /** The pattern can only match at the last dash, because the tail holds no dash. */
  lemma UrlNameTagAtLastDash(nameTag: string)
    ensures IsValidUrlNameTag(nameTag) <==>
      var k := LastIndexOf(nameTag, '-');
      k >= 0 && UrlNameTagSplitAt(nameTag, k)
  {
    var k := LastIndexOf(nameTag, '-');
    if IsValidUrlNameTag(nameTag) {
      var i :| 0 <= i < |nameTag| && UrlNameTagSplitAt(nameTag, i);
      assert '-' !in nameTag[i + 1..];
    }
  }

  datatype NameTagError = MissingDash | InvalidName | InvalidTag

  datatype NameTag = NameTag(name: string, tag: string)

  /** Splits "Name-Tag" at the last dash and checks both halves against the name and tag
      rules (the name first). */
  function ParseNameTag(nameTag: string): (r: Result<NameTag, NameTagError>)
    ensures r == Err(MissingDash) <==> '-' !in nameTag
    ensures r.Ok? ==> r.value.name + "-" + r.value.tag == nameTag
    ensures r.Ok? ==> IsValidName(r.value.name) && IsValidTag(r.value.tag) && '-' !in r.value.tag
  {
    var k := LastIndexOf(nameTag, '-');
    if k == -1 then Err(MissingDash)
    else
      var name := nameTag[..k];
      var tag := nameTag[k + 1..];
      assert nameTag == name + "-" + tag;
      if !IsValidName(name) then Err(InvalidName)
      else if !IsValidTag(tag) then Err(InvalidTag)
      else Ok(NameTag(name, tag))
  }

  /** Round trip: a valid name and tag joined by a dash parse back to themselves. */
  lemma ParseNameTagRoundTrip(name: string, tag: string)
    requires IsValidName(name) && IsValidTag(tag)
    ensures ParseNameTag(name + "-" + tag) == Ok(NameTag(name, tag))
  {
    assert '-' !in tag by {
      assert forall i | 0 <= i < |tag| :: IsAsciiAlnum(tag[i]);
    }
    LastIndexOfJoin(name, tag, '-');
    var s := name + "-" + tag;
    assert s == name + ['-'] + tag;
    assert s[..|name|] == name;
    assert s[|name| + 1..] == tag;
  }

  /** A successfully parsed name-tag without line breaks is also a well-formed URL segment.
      (The name rule admits line breaks as white space; the URL pattern does not.) */
  lemma ParsedIsValidUrlNameTag(nameTag: string)
    requires ParseNameTag(nameTag).Ok?
    requires forall j | 0 <= j < |nameTag| :: nameTag[j] !in JsLineTerminators
    ensures IsValidUrlNameTag(nameTag)
  {
    var r := ParseNameTag(nameTag).value;
    var k := |r.name|;
    assert nameTag[k] == '-';
    assert nameTag[k + 1..] == r.tag;
    assert nameTag[..k] == r.name;
    assert UrlNameTagSplitAt(nameTag, k);
  }
}
