/** The home page's search form: its validation rule, how a submitted "Name#Tag" is split,
    when the submit button is enabled, and when the form is reset. */
module SearchForm {
  import opened Strings
  import Validation

  /** The form's two fields. */
  datatype FormValues = FormValues(summonerNameTag: string, region: string)

  /** An empty input and the first listed region. */
  const DefaultValues := FormValues("", "EUW")

  /** The region choices are exactly the client's region codes. */
  lemma DefaultRegionListed()
    ensures Validation.IsRegion(DefaultValues.region)
  {
  }

  /** `^.+#.+$` with JavaScript's `.`: no line terminator anywhere, and a "#" with at least
      one character on each side. */
  predicate HasNameTagShape(s: string) {
    (forall j | 0 <= j < |s| :: s[j] !in JsLineTerminators)
    && exists i | 1 <= i < |s| - 1 :: s[i] == '#'
  }

  /** The form schema: a non-empty name-tag of that shape and a non-empty region. */
  predicate IsValidForm(v: FormValues) {
    |v.summonerNameTag| >= 1 && HasNameTagShape(v.summonerNameTag) && |v.region| >= 1
  }

  /** What the form hands to the search callback. */
  datatype Search = Search(name: string, tag: string, region: string)

  /** `onSubmit` (only reached with valid values): the trimmed first and second
      "#"-segments, and the region. */
  function Submit(v: FormValues): (s: Search)
    requires IsValidForm(v)
    ensures |Split(v.summonerNameTag, '#')| >= 2
    ensures s.region == v.region
    ensures s.name == Trim(Split(v.summonerNameTag, '#')[0], JsWhitespace)
    ensures s.tag == Trim(Split(v.summonerNameTag, '#')[1], JsWhitespace)
    ensures '#' !in s.name && '#' !in s.tag
    ensures |s.name| <= |Split(v.summonerNameTag, '#')[0]|
    ensures |s.tag| <= |Split(v.summonerNameTag, '#')[1]|
  {
    var parts := Split(v.summonerNameTag, '#');
    SplitHasTwoParts(v.summonerNameTag);
    var name := Trim(parts[0], JsWhitespace);
    var tag := Trim(parts[1], JsWhitespace);
    TrimKeepsAbsent(parts[0], '#');
    TrimKeepsAbsent(parts[1], '#');
    Search(name, tag, v.region)
  }

  /** A valid name-tag has at least two "#"-segments. */
  lemma SplitHasTwoParts(s: string)
    requires HasNameTagShape(s)
    ensures |Split(s, '#')| >= 2
  {
    var i :| 1 <= i < |s| - 1 && s[i] == '#';
  }

  /** Trimming removes characters and adds none. */
  lemma TrimKeepsAbsent(s: string, c: char)
    requires c !in s
    ensures c !in Trim(s, JsWhitespace)
  {
    var r := Trim(s, JsWhitespace);
    forall k | 0 <= k < |r| ensures r[k] != c {
      OccurrenceChars(s, r, k);
    }
  }

  /** Submitting "name#tag" searches for that name and tag when neither has surrounding
      blanks or a "#". */
  lemma SubmitNameTag(name: string, tag: string, region: string)
    requires name != [] && name[0] !in JsWhitespace && name[|name| - 1] !in JsWhitespace
    requires tag != [] && tag[0] !in JsWhitespace && tag[|tag| - 1] !in JsWhitespace
    requires '#' !in name && '#' !in tag && region != []
    requires forall j | 0 <= j < |name| :: name[j] !in JsLineTerminators
    requires forall j | 0 <= j < |tag| :: tag[j] !in JsLineTerminators
    ensures IsValidForm(FormValues(name + "#" + tag, region))
    ensures Submit(FormValues(name + "#" + tag, region)) == Search(name, tag, region)
  {
    var s := name + "#" + tag;
    assert s[|name|] == '#';
    forall j | 0 <= j < |s| ensures s[j] !in JsLineTerminators {
      if j < |name| { assert s[j] == name[j]; }
      else if j > |name| { assert s[j] == tag[j - |name| - 1]; }
    }
    assert Join([name, tag], '#') == s;
    SplitJoin([name, tag], '#');
    TrimUnchanged(name, JsWhitespace);
    TrimUnchanged(tag, JsWhitespace);
  }

  /** `hasValidFormat`: a "#" somewhere and more than two characters after trimming. */
  predicate HasValidFormat(input: string) {
    '#' in input && |Trim(input, JsWhitespace)| > 2
  }

  /** The submit button is disabled while loading or submitting, or without a valid
      format. */
  predicate ButtonDisabled(loading: bool, submitting: bool, input: string) {
    loading || submitting || !HasValidFormat(input)
  }

  /** The button check and the schema differ: "#ab" enables the button but fails the
      schema, since nothing precedes the "#". */
  lemma EnabledButInvalid(input: string)
    requires input == "#ab"
    ensures !ButtonDisabled(false, false, input)
    ensures !IsValidForm(FormValues(input, "EUW"))
  {
    assert input[0] == '#' && input[1] == 'a' && input[2] == 'b';
    TrimUnchanged(input, JsWhitespace);
    assert !HasNameTagShape(input) by {
      forall i | 1 <= i < |input| - 1 ensures input[i] != '#' {
        assert i == 1;
      }
    }
  }

  /** ... and a blank, "#" and one letter (such as " #b") pass the schema but leave the
      button disabled, since trimming leaves only two characters. */
  lemma ValidButDisabled(blank: char, letter: char)
    requires blank == ' ' && IsAsciiLetter(letter)
    ensures ButtonDisabled(false, false, [blank, '#', letter])
    ensures IsValidForm(FormValues([blank, '#', letter], "EUW"))
  {
    var input := [blank, '#', letter];
    assert input[1] == '#';
    assert input == [blank] + ['#', letter];
    TrimAfterBlank(blank, ['#', letter]);
  }

  lemma TrimAfterBlank(blank: char, rest: string)
    requires blank in JsWhitespace && rest != []
    requires rest[0] !in JsWhitespace && rest[|rest| - 1] !in JsWhitespace
    ensures |Trim([blank] + rest, JsWhitespace)| == |rest|
  {
    TrimLeadingBlank(blank, rest, JsWhitespace);
    TrimUnchanged(rest, JsWhitespace);
  }

  /** The form is cleared only after the search callback returns without throwing. */
  function AfterSubmit(v: FormValues, searchThrew: bool): (next: FormValues)
    ensures searchThrew ==> next == v
    ensures !searchThrew ==> next == DefaultValues
  {
    if searchThrew then v else DefaultValues
  }
}
