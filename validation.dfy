/** The react-hook-form rules the sign-in, sign-up and profile forms share: the email
  * and avatar patterns, and the length rules, which measure UTF-16 code units and, like
  * a pattern, are not applied to an empty value. */
module Validation {
  import opened JsText

  /** `[^\s@]+` without the `+`: no white space and no `@` anywhere. */
  predicate NoSpaceOrAt(s: string) {
    forall i :: 0 <= i < |s| ==> !IsWhitespace(s[i]) && s[i] != '@'
  }

  /** `/^[^\s@]+@[^\s@]+\.[^\s@]+$/` read as a shape: a non-empty local part, `@`, a
    * non-empty run, a dot, and a non-empty run, none of them holding white space or `@`. */
  ghost predicate MatchesEmailPattern(s: string) {
    exists a: nat, b: nat :: EmailSplit(s, a, b)
  }

  /** The pattern matched with its `@` at `a` and the dot it needs at `b`. */
  predicate EmailSplit(s: string, a: nat, b: nat) {
    0 < a && a + 1 < b && b + 1 < |s| && s[a] == '@' && s[b] == '.' &&
    NoSpaceOrAt(s[..a]) && NoSpaceOrAt(s[a + 1..b]) && NoSpaceOrAt(s[b + 1..])
  }

  /** The index of the first `c` in `s`. */
  function IndexOf(s: string, c: char): (r: int)
    ensures -1 <= r < |s|
    ensures r >= 0 ==> s[r] == c && c !in s[..r]
    ensures r < 0 ==> c !in s
  {
    if s == [] then -1
    else if s[0] == c then 0
    else
      var k := IndexOf(s[1..], c);
      assert s == [s[0]] + s[1..];
      if k < 0 then -1 else
        assert s[..k + 1] == [s[0]] + s[1..][..k];
        k + 1
  }

  /** The check the email pattern performs, one step at a time: exactly one `@`, not first,
    * no white space, and a dot in what follows that is neither right after the `@` nor
    * last. */
  function IsEmail(s: string): (r: bool) {
    var at := IndexOf(s, '@');
    0 < at && at + 3 < |s| + 1 && NoSpaceOrAt(s[..at]) && NoSpaceOrAt(s[at + 1..])
      && at + 2 <= |s| - 1 && '.' in s[at + 2..|s| - 1]
  }

  /** A slice of text without white space or `@` has none either. */
  lemma NoSpaceOrAtSlice(s: string, i: nat, j: nat)
    requires NoSpaceOrAt(s) && i <= j <= |s|
    ensures NoSpaceOrAt(s[i..j])
  {
    assert forall k :: 0 <= k < j - i ==> s[i..j][k] == s[i + k];
  }

  /** Two runs without white space or `@`, joined by a character that is neither. */
  lemma NoSpaceOrAtJoin(x: string, c: char, y: string)
    requires NoSpaceOrAt(x) && NoSpaceOrAt(y) && !IsWhitespace(c) && c != '@'
    ensures NoSpaceOrAt(x + [c] + y)
  {
    var z := x + [c] + y;
    forall k | 0 <= k < |z|
      ensures !IsWhitespace(z[k]) && z[k] != '@'
    {
      if k < |x| {
        assert z[k] == x[k];
      } else if k > |x| {
        assert z[k] == y[k - |x| - 1];
      }
    }
  }

  /** What the step-by-step check accepts, the pattern matches. */
  lemma EmailCheckSound(s: string)
    requires IsEmail(s)
    ensures MatchesEmailPattern(s)
  {
    var at := IndexOf(s, '@');
    var mid := s[at + 2..|s| - 1];
    var j :| 0 <= j < |mid| && mid[j] == '.';
    var b := at + 2 + j;
    assert s[b] == '.';
    var rest := s[at + 1..];
    assert s[at + 1..b] == rest[..b - at - 1];
    assert s[b + 1..] == rest[b - at..];
    NoSpaceOrAtSlice(rest, 0, b - at - 1);
    NoSpaceOrAtSlice(rest, b - at, |rest|);
    assert EmailSplit(s, at, b);
  }

  /** What the pattern matches, the step-by-step check accepts: the pattern's `@` is
    * the first one, and no other follows it. */
  lemma EmailCheckComplete(s: string)
    requires MatchesEmailPattern(s)
    ensures IsEmail(s)
  {
    var a: nat, b: nat :| EmailSplit(s, a, b);
    FirstAt(s, a);
    assert s[a + 1..] == s[a + 1..b] + [s[b]] + s[b + 1..];
    NoSpaceOrAtJoin(s[a + 1..b], s[b], s[b + 1..]);
    var mid := s[a + 2..|s| - 1];
    assert mid[b - a - 2] == '.';
  }

  /** An `@` with none before it is the first one. */
  lemma FirstAt(s: string, a: nat)
    requires a < |s| && s[a] == '@' && NoSpaceOrAt(s[..a])
    ensures IndexOf(s, '@') == a
  {
    var at := IndexOf(s, '@');
    assert at >= 0 by { assert s[a] in s; }
  }

  /** The step-by-step check accepts exactly what the pattern matches. */
  lemma EmailCheckMatchesPattern(s: string)
    ensures IsEmail(s) <==> MatchesEmailPattern(s)
  {
    if IsEmail(s) {
      EmailCheckSound(s);
    }
    if MatchesEmailPattern(s) {
      EmailCheckComplete(s);
    }
  }

  /** Every address the pattern accepts has exactly one `@`, and not in first place. */
  lemma EmailHasOneAt(s: string, i: nat)
    requires IsEmail(s) && i < |s| && s[i] == '@'
    ensures i == IndexOf(s, '@') && i > 0
  {
  }

  /** The characters the avatar pattern refuses right after `://`. */
  predicate IsUrlStartExcluded(c: char) {
    IsWhitespace(c) || c == '$' || c == '.' || c == '?' || c == '#'
  }

  /** Whether a character takes two UTF-16 code units. */
  predicate IsAstral(c: char) {
    c as int > 0xFFFF
  }

  /** `/^https?:\/\/[^\s$.?#].[^\s]*$/` on what follows the scheme. The regular
    * expression runs over UTF-16 code units: an astral first character fills both
    * `[^\s$.?#]` and `.` by itself, and `.` accepts any unit but a line terminator
    * (a space included). */
  predicate UrlRestOk(r: string) {
    |r| >= 1 && !IsUrlStartExcluded(r[0]) &&
    if IsAstral(r[0]) then
      forall i :: 1 <= i < |r| ==> !IsWhitespace(r[i])
    else
      |r| >= 2 && !IsLineTerminator(r[1]) && forall i :: 2 <= i < |r| ==> !IsWhitespace(r[i])
  }

  predicate IsUrl(s: string) {
    (|s| >= 7 && s[..7] == "http://" && UrlRestOk(s[7..]))
    || (|s| >= 8 && s[..8] == "https://" && UrlRestOk(s[8..]))
  }

  /** What follows the scheme is at least two UTF-16 units long. */
  lemma UrlRestAtLeastTwoUnits(r: string)
    requires UrlRestOk(r)
    ensures Utf16Length(r) >= 2
  {
    assert r == [r[0]] + r[1..];
    Utf16LengthOfConcat([r[0]], r[1..]);
    if !IsAstral(r[0]) {
      assert r[1..] == [r[1]] + r[2..];
      Utf16LengthOfConcat([r[1]], r[2..]);
    }
  }

  /** The avatar pattern needs more than a scheme: at least two UTF-16 units follow it. */
  lemma UrlLongerThanScheme(s: string)
    requires IsUrl(s)
    ensures Utf16Length(s) >= 9
  {
    var k := if |s| >= 8 && s[..8] == "https://" && UrlRestOk(s[8..]) then 8 else 7;
    assert s == s[..k] + s[k..];
    Utf16LengthOfConcat(s[..k], s[k..]);
    UrlRestAtLeastTwoUnits(s[k..]);
  }

  /** A space is accepted as the second unit after the scheme; a lone character or a dot
    * right after the scheme is refused. */
  lemma UrlExamples()
    ensures IsUrl("https://a b")
    ensures !IsUrl("https://a")
    ensures !IsUrl("http://.ab")
  {
    assert "https://a b"[..8] == "https://";
    assert "https://a b"[8..] == "a b";
    assert "https://a"[8..] == "a";
    assert "https://a"[..7] != "http://" by { assert "https://a"[4] == 's'; }
    assert "http://.ab"[..7] == "http://";
    assert "http://.ab"[..8] != "https://" by { assert "http://.ab"[4] == ':'; }
  }

  /** `minLength`/`maxLength` together: an empty value is not measured (that is the
    * `required` rule's business). */
  predicate LengthBetween(v: string, lo: nat, hi: nat) {
    v == "" || lo <= Utf16Length(v) <= hi
  }

  /** `minLength` alone. */
  predicate LengthAtLeast(v: string, lo: nat) {
    v == "" || lo <= Utf16Length(v)
  }

  /** A `pattern` rule is not applied to an empty value either. */
  predicate EmailRule(v: string) {
    v == "" || IsEmail(v)
  }

  predicate UrlRule(v: string) {
    v == "" || IsUrl(v)
  }
}
