/** Character classes and the string operations the source borrows from
    JavaScript (`trim`, `split`, `lastIndexOf`, `includes`, template literals,
    `toLowerCase`) and from Python (`strip`, `upper`, `startswith`, `str(int)`). */
module Strings {

  // ---------------------------------------------------------------------------
  // Character classes

  predicate IsAsciiLetter(c: char) { 'a' <= c <= 'z' || 'A' <= c <= 'Z' }
  predicate IsAsciiDigit(c: char) { '0' <= c <= '9' }
  predicate IsAsciiAlnum(c: char) { IsAsciiLetter(c) || IsAsciiDigit(c) }

  predicate AllAsciiAlnum(s: string) { forall i | 0 <= i < |s| :: IsAsciiAlnum(s[i]) }
  predicate AllAsciiDigits(s: string) { forall i | 0 <= i < |s| :: IsAsciiDigit(s[i]) }

  /** The characters matched by JavaScript's `\s` and removed by `String.prototype.trim`:
      white space and line terminators. */
  const JsWhitespace: set<char> :=
    {'\t', '\n', '\U{0B}', '\U{0C}', '\r', ' ', '\U{A0}', '\U{1680}',
     '\U{2000}', '\U{2001}', '\U{2002}', '\U{2003}', '\U{2004}', '\U{2005}',
     '\U{2006}', '\U{2007}', '\U{2008}', '\U{2009}', '\U{200A}',
     '\U{2028}', '\U{2029}', '\U{202F}', '\U{205F}', '\U{3000}', '\U{FEFF}'}

  /** The line terminators: the characters a regular-expression `.` does not match. */
  const JsLineTerminators: set<char> := {'\n', '\r', '\U{2028}', '\U{2029}'}

  /** The characters Python's `str.strip()` removes (those for which `str.isspace()` holds). */
  const PyWhitespace: set<char> :=
    {'\t', '\n', '\U{0B}', '\U{0C}', '\r', '\U{1C}', '\U{1D}', '\U{1E}', '\U{1F}',
     ' ', '\U{85}', '\U{A0}', '\U{1680}',
     '\U{2000}', '\U{2001}', '\U{2002}', '\U{2003}', '\U{2004}', '\U{2005}',
     '\U{2006}', '\U{2007}', '\U{2008}', '\U{2009}', '\U{200A}',
     '\U{2028}', '\U{2029}', '\U{202F}', '\U{205F}', '\U{3000}'}

  // ---------------------------------------------------------------------------
  // Case mapping (ASCII letters; every other character is left as it is)

  function LowerChar(c: char): char {
    if 'A' <= c <= 'Z' then (c as int + 32) as char else c
  }

  function UpperChar(c: char): char {
    if 'a' <= c <= 'z' then (c as int - 32) as char else c
  }

  function ToLower(s: string): (r: string)
    ensures |r| == |s|
    ensures forall i | 0 <= i < |s| :: r[i] == LowerChar(s[i])
  {
    seq(|s|, i requires 0 <= i < |s| => LowerChar(s[i]))
  }

  function ToUpper(s: string): (r: string)
    ensures |r| == |s|
    ensures forall i | 0 <= i < |s| :: r[i] == UpperChar(s[i])
  {
    seq(|s|, i requires 0 <= i < |s| => UpperChar(s[i]))
  }

  /** Upper-casing never produces a lower-case ASCII letter, so doing it twice changes nothing. */
  lemma ToUpperIdempotent(s: string)
    ensures ToUpper(ToUpper(s)) == ToUpper(s)
  {
  }

  // ---------------------------------------------------------------------------
  // Searching

  predicate OccursAt(s: string, t: string, i: int) {
    0 <= i && i + |t| <= |s| && s[i..i + |t|] == t
  }

  /** JavaScript `s.includes(t)`. */
  predicate Contains(s: string, t: string) {
    exists i | 0 <= i <= |s| - |t| :: OccursAt(s, t, i)
  }

  /** Every character of an occurring string occurs; used to show that a name does NOT
      contain a word by pointing at one of the word's letters the name lacks. */
  lemma OccurrenceChars(s: string, t: string, k: nat)
    requires k < |t|
    ensures Contains(s, t) ==> t[k] in s
  {
    if Contains(s, t) {
      var i :| 0 <= i <= |s| - |t| && OccursAt(s, t, i);
      assert s[i..i + |t|][k] == t[k];
    }
  }

  predicate StartsWith(s: string, p: string) {
    |p| <= |s| && s[..|p|] == p
  }

  /** JavaScript `s.indexOf(c)` for a one-character needle. */
  function IndexOf(s: string, c: char): (r: int)
    ensures -1 <= r < |s|
    ensures r == -1 <==> c !in s
    ensures r >= 0 ==> s[r] == c && c !in s[..r]
  {
    if s == [] then -1
    else if s[0] == c then 0
    else
      var k := IndexOf(s[1..], c);
      assert s[1..][..if k < 0 then 0 else k] == s[1..if k < 0 then 1 else k + 1];
      if k < 0 then -1 else k + 1
  }

  /** JavaScript `s.lastIndexOf(c)` for a one-character needle. */
  function LastIndexOf(s: string, c: char): (r: int)
    ensures -1 <= r < |s|
    ensures r == -1 <==> c !in s
    ensures r >= 0 ==> s[r] == c && c !in s[r + 1..]
  {
    if s == [] then -1
    else if s[|s| - 1] == c then |s| - 1
    else
      var init := s[..|s| - 1];
      var k := LastIndexOf(init, c);
      assert s == init + [s[|s| - 1]];
      if k < 0 then k
      else
        assert s[k + 1..] == init[k + 1..] + [s[|s| - 1]];
        k
  }

  /** The last separator of `a + [sep] + b` is the one between them when `b` holds none. */
  lemma LastIndexOfJoin(a: string, b: string, sep: char)
    requires sep !in b
    ensures LastIndexOf(a + [sep] + b, sep) == |a|
  {
    var s := a + [sep] + b;
    var r := LastIndexOf(s, sep);
    assert s[|a|] == sep;
    assert s[|a| + 1..] == b;
  }

  // ---------------------------------------------------------------------------
  // Splitting on a one-character separator (JavaScript `split(c)`, Python `split(c)`)

  /** The inverse of `Split`: the parts glued back together with the separator. */
  function Join(parts: seq<string>, sep: char): string
    requires |parts| >= 1
  {
    if |parts| == 1 then parts[0] else parts[0] + [sep] + Join(parts[1..], sep)
  }

  function Split(s: string, sep: char): (parts: seq<string>)
    ensures |parts| >= 1
    ensures forall k | 0 <= k < |parts| :: sep !in parts[k]
    ensures Join(parts, sep) == s
    decreases |s|
  {
    var i := IndexOf(s, sep);
    if i < 0 then [s]
    else
      var rest := Split(s[i + 1..], sep);
      assert s == s[..i] + [sep] + s[i + 1..];
      [s[..i]] + rest
  }

  /** The first part of a split is everything before the first separator. */
  lemma SplitFirst(s: string, sep: char)
    ensures Split(s, sep)[0] == if sep in s then s[..IndexOf(s, sep)] else s
  {
  }

  /** A string without the separator splits into itself alone. */
  lemma SplitWithoutSeparator(s: string, sep: char)
    requires sep !in s
    ensures Split(s, sep) == [s]
  {
    assert Join([s], sep) == s;
    SplitJoin([s], sep);
  }

  /** Splitting undoes joining, when no part holds the separator. */
  lemma {:induction false} SplitJoin(parts: seq<string>, sep: char)
    requires |parts| >= 1
    requires forall k | 0 <= k < |parts| :: sep !in parts[k]
    ensures Split(Join(parts, sep), sep) == parts
  {
    if |parts| == 1 {
    } else {
      var s := Join(parts, sep);
      var tail := Join(parts[1..], sep);
      assert s == parts[0] + [sep] + tail;
      assert s[|parts[0]|] == sep;
      assert s[..|parts[0]|] == parts[0];
      assert IndexOf(s, sep) == |parts[0]|;
      assert s[|parts[0]| + 1..] == tail;
      SplitJoin(parts[1..], sep);
      assert parts == [parts[0]] + parts[1..];
    }
  }

  // ---------------------------------------------------------------------------
  // Trimming: removing characters of a white-space set from both ends

  function TrimStart(s: string, ws: set<char>): (r: string)
    ensures |r| <= |s| && r == s[|s| - |r|..]
    ensures forall i | 0 <= i < |s| - |r| :: s[i] in ws
    ensures r == [] || r[0] !in ws
  {
    if s != [] && s[0] in ws then TrimStart(s[1..], ws) else s
  }

  function TrimEnd(s: string, ws: set<char>): (r: string)
    ensures |r| <= |s| && r == s[..|r|]
    ensures forall i | |r| <= i < |s| :: s[i] in ws
    ensures r == [] || r[|r| - 1] !in ws
  {
    if s != [] && s[|s| - 1] in ws then TrimEnd(s[..|s| - 1], ws) else s
  }

  /** JavaScript `trim()` with `ws == JsWhitespace`; Python `strip()` with `ws == PyWhitespace`.
      The result is a contiguous part of the input that neither starts nor ends with white
      space, and it is empty exactly when the input is all white space. */
  function Trim(s: string, ws: set<char>): (r: string)
    ensures |r| <= |s|
    ensures Contains(s, r)
    ensures r != [] ==> r[0] !in ws && r[|r| - 1] !in ws
    ensures r == [] <==> forall i | 0 <= i < |s| :: s[i] in ws
  {
    var t := TrimStart(s, ws);
    var r := TrimEnd(t, ws);
    assert OccursAt(s, r, |s| - |t|);
    TrimBlank(s, t, r, ws);
    r
  }

  lemma TrimBlank(s: string, t: string, r: string, ws: set<char>)
    requires t == TrimStart(s, ws) && r == TrimEnd(t, ws)
    ensures r == [] <==> forall i | 0 <= i < |s| :: s[i] in ws
  {
    if r != [] {
      assert s[|s| - |t|] == r[0];
    }
  }

  /** A leading white-space character does not change the trim. */
  lemma TrimLeadingBlank(c: char, s: string, ws: set<char>)
    requires c in ws
    ensures Trim([c] + s, ws) == Trim(s, ws)
  {
    assert ([c] + s)[1..] == s;
  }

  /** A string with no white space at either end is its own trim. */
  lemma TrimUnchanged(s: string, ws: set<char>)
    requires s == [] || (s[0] !in ws && s[|s| - 1] !in ws)
    ensures Trim(s, ws) == s
  {
  }

  // ---------------------------------------------------------------------------
  // Decimal rendering of integers (JavaScript template literals, Python f-strings)

  function DigitChar(d: int): char
    requires 0 <= d < 10
  {
    ('0' as int + d) as char
  }

  function DigitValue(c: char): int
    requires IsAsciiDigit(c)
  {
    c as int - '0' as int
  }

  /** The decimal digits of `n`, most significant first, without leading zeros. */
  function NatToString(n: nat): (r: string)
    ensures |r| >= 1 && AllAsciiDigits(r)
    ensures r[0] == '0' ==> n == 0
    decreases n
  {
    if n < 10 then [DigitChar(n)] else NatToString(n / 10) + [DigitChar(n % 10)]
  }

  /** The value of a string of decimal digits. */
  function ParseDigits(s: string): nat
    requires AllAsciiDigits(s)
  {
    if s == [] then 0 else ParseDigits(s[..|s| - 1]) * 10 + DigitValue(s[|s| - 1])
  }

  /** Reading back the rendered digits gives the number: rendering loses nothing. */
  lemma {:induction false} ParseNatToString(n: nat)
    ensures ParseDigits(NatToString(n)) == n
    decreases n
  {
    if n >= 10 {
      var s := NatToString(n);
      assert s[..|s| - 1] == NatToString(n / 10);
      ParseNatToString(n / 10);
    }
  }

  lemma NatToStringInjective(a: nat, b: nat)
    requires NatToString(a) == NatToString(b)
    ensures a == b
  {
    ParseNatToString(a);
    ParseNatToString(b);
  }

  /** JavaScript `${i}` / Python `str(i)` for an integer. */
  function IntToString(i: int): (r: string)
    ensures |r| >= 1
    ensures r[0] == '-' <==> i < 0
    ensures i >= 0 ==> AllAsciiDigits(r)
  {
    if i < 0 then "-" + NatToString(-i) else NatToString(i)
  }

  lemma IntToStringInjective(a: int, b: int)
    requires IntToString(a) == IntToString(b)
    ensures a == b
  {
    if a < 0 && b < 0 {
      assert IntToString(a)[1..] == NatToString(-a);
      assert IntToString(b)[1..] == NatToString(-b);
      NatToStringInjective(-a, -b);
    } else if a >= 0 && b >= 0 {
      NatToStringInjective(a, b);
    }
  }

  /** A string made of a separator-free part, the separator and a rest determines both. */
  lemma FirstSeparatorDetermined(a: string, b: string, a2: string, b2: string, sep: char)
    requires sep !in a && sep !in a2
    requires a + [sep] + b == a2 + [sep] + b2
    ensures a == a2 && b == b2
  {
    var s := a + [sep] + b;
    assert s[|a|] == sep && s[..|a|] == a;
    assert s[|a2|] == sep && s[..|a2|] == a2;
    assert s[|a| + 1..] == b;
  }
}
