/** The few JavaScript string operations the pages rely on: white space as `\s` and
  * `trim` see it, `length` in UTF-16 code units, number-to-string and `parseInt`. */
module JsText {
  import opened Wrappers

  /** ECMAScript WhiteSpace and LineTerminator: the class `\s` and what `trim` removes. */
  predicate IsWhitespace(c: char) {
    || c == '\t' || c == '\n' || c == '\U{B}' || c == '\U{C}' || c == '\r' || c == ' '
    || c == '\U{A0}' || c == '\U{1680}' || ('\U{2000}' <= c <= '\U{200A}')
    || c == '\U{2028}' || c == '\U{2029}' || c == '\U{202F}' || c == '\U{205F}'
    || c == '\U{3000}' || c == '\U{FEFF}'
  }

  /** The characters a regular-expression `.` does not match. */
  predicate IsLineTerminator(c: char) {
    c == '\n' || c == '\r' || c == '\U{2028}' || c == '\U{2029}'
  }

  /** Every character of `s` is white space (vacuously true of ""). */
  predicate IsBlank(s: string) {
    forall i :: 0 <= i < |s| ==> IsWhitespace(s[i])
  }

  function TrimStart(s: string): (r: string)
    ensures |r| <= |s| && r == s[|s| - |r|..]
    ensures r == [] || !IsWhitespace(r[0])
    ensures IsBlank(s[..|s| - |r|])
  {
    if |s| > 0 && IsWhitespace(s[0]) then
      var r := TrimStart(s[1..]);
      assert s[..|s| - |r|] == [s[0]] + s[1..][..|s| - 1 - |r|];
      r
    else s
  }

  function TrimEnd(s: string): (r: string)
    ensures |r| <= |s| && r == s[..|r|]
    ensures r == [] || !IsWhitespace(r[|r| - 1])
    ensures IsBlank(s[|r|..])
  {
    if |s| > 0 && IsWhitespace(s[|s| - 1]) then
      var r := TrimEnd(s[..|s| - 1]);
      assert s[|r|..] == s[..|s| - 1][|r|..] + [s[|s| - 1]];
      r
    else s
  }

  /** `String.prototype.trim`. */
  function Trim(s: string): string {
    TrimEnd(TrimStart(s))
  }

  /** `s.trim() !== ''` holds exactly when `s` has a character that is not white space. */
  lemma TrimEmptyIffBlank(s: string)
    ensures Trim(s) == "" <==> IsBlank(s)
  {
    var t := TrimStart(s);
    if Trim(s) == "" {
      assert s == s[..|s| - |t|] + t;
      assert IsBlank(t) by { assert t[|TrimEnd(t)|..] == t; }
    } else {
      var r := Trim(s);
      var k := |s| - |t|;
      assert s[k + |r| - 1] == r[|r| - 1];
    }
  }

  /** A string with a non-white-space character at position `k` survives `trim`. */
  lemma NotBlankAt(s: string, k: nat)
    requires k < |s| && !IsWhitespace(s[k])
    ensures Trim(s) != ""
  {
    TrimEmptyIffBlank(s);
  }

  /** `value.length`: UTF-16 code units, two for a character outside the BMP. */
  function Utf16Length(s: string): (n: nat)
    ensures |s| <= n <= 2 * |s|
  {
    if s == [] then 0
    else (if s[0] as int > 0xFFFF then 2 else 1) + Utf16Length(s[1..])
  }

  /** For text within the Basic Multilingual Plane the two lengths agree. */
  lemma {:induction false} Utf16LengthOfBmp(s: string)
    requires forall i :: 0 <= i < |s| ==> s[i] as int <= 0xFFFF
    ensures Utf16Length(s) == |s|
  {
    if s != [] {
      Utf16LengthOfBmp(s[1..]);
    }
  }

  /** Lengths add up over concatenation. */
  lemma {:induction false} Utf16LengthOfConcat(a: string, b: string)
    ensures Utf16Length(a + b) == Utf16Length(a) + Utf16Length(b)
  {
    if a == [] {
      assert a + b == b;
    } else {
      assert (a + b)[0] == a[0] && (a + b)[1..] == a[1..] + b;
      Utf16LengthOfConcat(a[1..], b);
    }
  }

  // ----- Decimal digits -----

  predicate IsDigit(c: char) { '0' <= c <= '9' }

  predicate AllDigits(s: string) {
    forall i :: 0 <= i < |s| ==> IsDigit(s[i])
  }

  function DigitChar(d: nat): (c: char)
    requires d < 10
    ensures IsDigit(c) && c as int - '0' as int == d
  {
    ('0' as int + d) as char
  }

  /** The decimal numeral of `n`, as `String(n)` writes it. */
  function Decimal(n: nat): (s: string)
    ensures |s| >= 1 && AllDigits(s)
    ensures n > 0 ==> s[0] != '0'
    decreases n
  {
    if n < 10 then [DigitChar(n)] else Decimal(n / 10) + [DigitChar(n % 10)]
  }

  /** The value of a string of decimal digits. */
  function DigitsValue(s: string): nat
    requires AllDigits(s)
  {
    if s == [] then 0 else DigitsValue(s[..|s| - 1]) * 10 + (s[|s| - 1] as int - '0' as int)
  }

  lemma {:induction false} DecimalRoundTrip(n: nat)
    ensures DigitsValue(Decimal(n)) == n
    decreases n
  {
    if n >= 10 {
      var s := Decimal(n);
      assert s[..|s| - 1] == Decimal(n / 10);
      DecimalRoundTrip(n / 10);
    }
  }

  // ----- parseInt -----

  predicate IsHexDigit(c: char) {
    IsDigit(c) || 'a' <= c <= 'f' || 'A' <= c <= 'F'
  }

  function HexDigitValue(c: char): nat
    requires IsHexDigit(c)
  {
    if IsDigit(c) then c as int - '0' as int
    else if 'a' <= c <= 'f' then c as int - 'a' as int + 10
    else c as int - 'A' as int + 10
  }

  function HexValue(s: string): nat
    requires forall i :: 0 <= i < |s| ==> IsHexDigit(s[i])
  {
    if s == [] then 0 else HexValue(s[..|s| - 1]) * 16 + HexDigitValue(s[|s| - 1])
  }

  /** The longest prefix of `s` whose characters satisfy the digit test (`hex` picks base 16). */
  function DigitRun(s: string, hex: bool): (p: string)
    ensures |p| <= |s| && p == s[..|p|]
    ensures forall i :: 0 <= i < |p| ==> if hex then IsHexDigit(p[i]) else IsDigit(p[i])
    ensures |p| < |s| ==> !(if hex then IsHexDigit(s[|p|]) else IsDigit(s[|p|]))
  {
    if s != [] && (if hex then IsHexDigit(s[0]) else IsDigit(s[0])) then
      [s[0]] + DigitRun(s[1..], hex)
    else []
  }

  /** The digits after an optional sign: `0x`/`0X` selects base 16, otherwise base 10;
    * the longest run of digits is read, and no digits at all is `NaN`, played by `None`. */
  function ParseUnsigned(u: string): Option<nat> {
    if |u| >= 2 && u[0] == '0' && (u[1] == 'x' || u[1] == 'X') then
      var h := DigitRun(u[2..], true);
      if h == [] then None else Some(HexValue(h))
    else
      var d := DigitRun(u, false);
      if d == [] then None else Some(DigitsValue(d))
  }

  predicate HasSign(t: string) {
    |t| > 0 && (t[0] == '-' || t[0] == '+')
  }

  /** `parseInt(s)` without a radix: leading white space is skipped and one sign is read
    * before the digits. */
  function ParseInt(s: string): Option<int> {
    var t := TrimStart(s);
    var u := if HasSign(t) then t[1..] else t;
    match ParseUnsigned(u)
    case None => None
    case Some(v) => var n: int := if HasSign(t) && t[0] == '-' then -(v as int) else v; Some(n)
  }

  lemma {:induction false} DigitRunOfDigits(s: string)
    requires AllDigits(s)
    ensures DigitRun(s, false) == s
  {
    if s != [] {
      DigitRunOfDigits(s[1..]);
    }
  }

  /** What `String(n)` writes, `parseInt` reads back. */
  lemma ParseIntOfDecimal(n: nat)
    ensures ParseInt(Decimal(n)) == Some(n)
  {
    var s := Decimal(n);
    assert !IsWhitespace(s[0]) && !HasSign(s) by { assert IsDigit(s[0]); }
    assert TrimStart(s) == s;
    if |s| >= 2 {
      assert IsDigit(s[1]);
    }
    DigitRunOfDigits(s);
    DecimalRoundTrip(n);
    assert ParseUnsigned(s) == Some(n);
  }
  /** `Array.prototype.join(sep)` over strings. */
  function Join(sep: string, parts: seq<string>): (r: string)
    ensures parts == [] ==> r == ""
    ensures |parts| == 1 ==> r == parts[0]
    ensures (exists i :: 0 <= i < |parts| && parts[i] != "") ==> r != ""
    ensures |parts| >= 2 && sep != "" ==> r != ""
  {
    if parts == [] then ""
    else if |parts| == 1 then parts[0]
    else
      var rest := Join(sep, parts[1..]);
      assert forall i :: 1 <= i < |parts| ==> parts[i] == parts[1..][i - 1];
      parts[0] + sep + rest
  }

  /** Joining one more part appends the separator and that part: with `Join` of one
    * part being the part itself, this fixes the value of every join. */
  lemma {:induction false} JoinSnoc(sep: string, parts: seq<string>, p: string)
    requires parts != []
    ensures Join(sep, parts + [p]) == Join(sep, parts) + sep + p
    decreases |parts|
  {
    var ps := parts + [p];
    assert ps[0] == parts[0];
    if |parts| == 1 {
      assert ps[1..] == [p];
    } else {
      assert ps[1..] == parts[1..] + [p];
      JoinSnoc(sep, parts[1..], p);
    }
  }
}
