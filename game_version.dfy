/** Rewriting a match's game version ("14.23.590.9183") into the `major.minor.1` form the
    Data Dragon asset server uses ("14.23.1"). */
module GameVersion {
  import opened Wrappers
  import opened Strings
  import opened MatchTypes

  /** The fixed "latest" version, used when a match carries no usable version. */
  function LatestGameVersion(): (v: string)
    ensures v == "15" + "." + "13" + ".1"
  {
    "15.13.1"
  }

  /** The fallback version is itself a valid version. */
  lemma LatestIsValid()
    ensures IsValidGameVersion(LatestGameVersion())
  {
    FormattedIsValid("15", "13");
  }

  /** `^\d+\.\d+\.\d+$`: three non-empty runs of decimal digits joined by dots. */
  predicate IsValidGameVersion(version: string) {
    var parts := Split(version, '.');
    |parts| == 3 && forall k | 0 <= k < 3 :: parts[k] != [] && AllAsciiDigits(parts[k])
  }

  /** A missing or empty version gives the fallback; otherwise the first two dot-separated
      parts followed by ".1", or the fallback when the version has no dot. */
  function FormattedGameVersion(gameVersion: Option<string>, fallback: string): (r: string)
    ensures gameVersion.None? || gameVersion.value == [] ==> r == fallback
    ensures gameVersion.Some? && gameVersion.value != [] && '.' !in gameVersion.value ==> r == fallback
  {
    match gameVersion
    case None => fallback
    case Some(v) =>
      if v == [] then fallback
      else
        var parts := Split(v, '.');
        if |parts| >= 2 then parts[0] + "." + parts[1] + ".1" else fallback
  }

  /** The version of an optional match, formatted as above. */
  function GameVersionFromMatch(matchData: Option<Match>, fallback: string): (r: string)
    ensures matchData.None? ==> r == fallback
    ensures matchData.Some? ==> r == FormattedGameVersion(Some(matchData.value.info.gameVersion), fallback)
  {
    FormattedGameVersion(if matchData.Some? then Some(matchData.value.info.gameVersion) else None, fallback)
  }

  /** A version "major.minor" or "major.minor.rest..." keeps major and minor and gets ".1". */
  lemma FormatsMajorMinor(major: string, minor: string, rest: string, fallback: string)
    requires '.' !in major && '.' !in minor
    requires rest == [] || rest[0] == '.'
    ensures FormattedGameVersion(Some(major + "." + minor + rest), fallback) == major + "." + minor + ".1"
  {
    var v := major + "." + minor + rest;
    var tail := minor + rest;
    assert v == major + ['.'] + tail;
    assert IndexOf(v, '.') == |major| by {
      assert v[|major|] == '.';
      assert v[..|major|] == major;
    }
    assert v[|major| + 1..] == tail;
    assert Split(v, '.')[0] == major;
    assert Split(v, '.')[1..] == Split(tail, '.');
    if rest == [] {
      assert tail == minor;
      SplitJoin([minor], '.');
    } else {
      assert tail[|minor|] == '.';
      assert tail[..|minor|] == minor;
      assert IndexOf(tail, '.') == |minor|;
    }
  }

  /** The example from the source's documentation: "14.23.590.9183" becomes "14.23.1". */
  lemma ExampleVersion(fallback: string)
    ensures FormattedGameVersion(Some("14" + "." + "23" + ".590.9183"), fallback) == "14" + "." + "23" + ".1"
  {
    FormatsMajorMinor("14", "23", ".590.9183", fallback);
  }

  /** With digit-only major and minor parts the rewritten version is valid. */
  lemma FormattedIsValid(major: string, minor: string)
    requires major != [] && AllAsciiDigits(major) && minor != [] && AllAsciiDigits(minor)
    ensures IsValidGameVersion(major + "." + minor + ".1")
  {
    forall k | 0 <= k < |major| ensures major[k] != '.' { }
    forall k | 0 <= k < |minor| ensures minor[k] != '.' { }
    var parts := [major, minor, "1"];
    assert Join(parts[1..], '.') == minor + ".1" by {
      assert parts[1..][1..] == ["1"];
    }
    assert Join(parts, '.') == major + "." + minor + ".1";
    SplitJoin(parts, '.');
    assert parts[2] == "1" && "1"[0] == '1';
  }

  /** Formatting is idempotent with the default fallback: a formatted version formats to itself. */
  lemma FormatIdempotent(gameVersion: Option<string>)
    ensures var once := FormattedGameVersion(gameVersion, LatestGameVersion());
            FormattedGameVersion(Some(once), LatestGameVersion()) == once
  {
    var once := FormattedGameVersion(gameVersion, LatestGameVersion());
    if once == LatestGameVersion() {
      FormatsMajorMinor("15", "13", ".1", LatestGameVersion());
    } else {
      var parts := Split(gameVersion.value, '.');
      assert once == parts[0] + "." + parts[1] + ".1";
      FormatsMajorMinor(parts[0], parts[1], ".1", LatestGameVersion());
    }
  }
}
