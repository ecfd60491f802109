/** The JavaScript string and number primitives the screens rely on:
    `String.prototype.trim`, `toLowerCase`, `includes`, `Array.prototype.join`
    with `split` as its inverse, `Number(s)` for decimal literals, and the
    URL check of a schema validator. */
module Text {
  import opened Wrappers

  /** ECMAScript WhiteSpace and LineTerminator code points: the characters
      `trim` removes. */
  predicate IsWhitespace(c: char) {
    c == '\t' || c == '\n' || c == '\U{000B}' || c == '\U{000C}' || c == '\r' ||
    c == ' ' || c == '\U{00A0}' || c == '\U{1680}' || (0x2000 <= c as int <= 0x200A) ||
    c == '\U{2028}' || c == '\U{2029}' || c == '\U{202F}' || c == '\U{205F}' ||
    c == '\U{3000}' || c == '\U{FEFF}'
  }

  function TrimStart(s: string): (r: string)
    ensures |r| <= |s| && r == s[|s| - |r|..]
    ensures r == [] || !IsWhitespace(r[0])
    ensures forall i :: 0 <= i < |s| - |r| ==> IsWhitespace(s[i])
  {
    if s != [] && IsWhitespace(s[0]) then TrimStart(s[1..]) else s
  }

  function TrimEnd(s: string): (r: string)
    ensures |r| <= |s| && r == s[..|r|]
    ensures r == [] || !IsWhitespace(r[|r| - 1])
    ensures forall i :: |r| <= i < |s| ==> IsWhitespace(s[i])
  {
    if s != [] && IsWhitespace(s[|s| - 1]) then TrimEnd(s[..|s| - 1]) else s
  }

  /** `s.trim()` */
  function Trim(s: string): string {
    TrimEnd(TrimStart(s))
  }

  /** `!s.trim()`: the string is empty once trimmed. */
  predicate IsBlank(s: string) {
    Trim(s) == []
  }

  /** A string is blank exactly when every character of it is whitespace. */
  lemma BlankIffAllWhitespace(s: string)
    ensures IsBlank(s) <==> forall i :: 0 <= i < |s| ==> IsWhitespace(s[i])
  {
    var t := TrimStart(s);
    if t != [] {
      assert t[0] == s[|s| - |t|];
      assert TrimEnd(t) != [];
    }
  }

  /** `toLowerCase` on the ASCII letters; every other character is kept. */
  function ToLowerChar(c: char): (r: char)
    ensures 'A' <= c <= 'Z' ==> r as int == c as int + 32 && 'a' <= r <= 'z'
    ensures !('A' <= c <= 'Z') ==> r == c
    ensures !('A' <= r <= 'Z')
  {
    if 'A' <= c <= 'Z' then (c as int - 'A' as int + 'a' as int) as char else c
  }

  function ToLower(s: string): (r: string)
    ensures |r| == |s|
    ensures forall i :: 0 <= i < |s| ==> r[i] == ToLowerChar(s[i])
  {
    seq(|s|, i requires 0 <= i < |s| => ToLowerChar(s[i]))
  }

  /** Lower-casing twice is lower-casing once. */
  lemma ToLowerIdempotent(s: string)
    ensures ToLower(ToLower(s)) == ToLower(s)
  {
    forall i | 0 <= i < |s|
      ensures ToLower(ToLower(s))[i] == ToLower(s)[i]
    {
      assert !('A' <= ToLower(s)[i] <= 'Z');
    }
  }

  /** `s.includes(sub)` */
  predicate Contains(s: string, sub: string) {
    exists i :: 0 <= i <= |s| && OccursAt(s, sub, i)
  }

  /** `sub` occurs in `s` starting at position `i`. */
  predicate OccursAt(s: string, sub: string, i: nat) {
    i + |sub| <= |s| && s[i..i + |sub|] == sub
  }

  lemma ContainsEmpty(s: string)
    ensures Contains(s, "")
  {
    assert OccursAt(s, "", 0);
  }

  /** `parts.join(sep)` with a one-character separator. */
  function Join(parts: seq<string>, sep: char): string {
    if |parts| == 0 then ""
    else if |parts| == 1 then parts[0]
    else parts[0] + [sep] + Join(parts[1..], sep)
  }

  /** `s.split(sep)` with a one-character separator; `"".split(sep)` is `[""]`. */
  function Split(s: string, sep: char): (r: seq<string>)
    ensures |r| >= 1
  {
    if s == [] then [""]
    else
      var rest := Split(s[1..], sep);
      if s[0] == sep then [""] + rest else [[s[0]] + rest[0]] + rest[1..]
  }

  lemma {:induction false} SplitWithoutSeparator(a: string, sep: char)
    requires sep !in a
    ensures Split(a, sep) == [a]
  {
    if a != [] {
      SplitWithoutSeparator(a[1..], sep);
      assert a[0] != sep;
      assert [a[0]] + a[1..] == a;
    }
  }

  lemma {:induction false} SplitAfterPart(a: string, b: string, sep: char)
    requires sep !in a
    ensures Split(a + [sep] + b, sep) == [a] + Split(b, sep)
  {
    if a == [] {
      assert a + [sep] + b == [sep] + b;
    } else {
      SplitAfterPart(a[1..], b, sep);
      assert (a + [sep] + b)[1..] == a[1..] + [sep] + b;
      assert a[0] != sep;
      assert [a[0]] + a[1..] == a;
    }
  }

  /** Splitting a joined list on the separator gives the parts back, as long
      as no part contains the separator. */
  lemma {:induction false} SplitJoin(parts: seq<string>, sep: char)
    requires |parts| >= 1
    requires forall k :: 0 <= k < |parts| ==> sep !in parts[k]
    ensures Split(Join(parts, sep), sep) == parts
  {
    if |parts| == 1 {
      SplitWithoutSeparator(parts[0], sep);
    } else {
      SplitJoin(parts[1..], sep);
      SplitAfterPart(parts[0], Join(parts[1..], sep), sep);
    }
  }

  /** The joined text starts with the first part. */
  lemma {:induction false} JoinStartsWithFirst(parts: seq<string>, sep: char)
    requires |parts| >= 1
    ensures |parts[0]| <= |Join(parts, sep)|
    ensures Join(parts, sep)[..|parts[0]|] == parts[0]
  {
    if |parts| > 1 {
      assert Join(parts, sep) == parts[0] + ([sep] + Join(parts[1..], sep));
    }
  }

  predicate IsDigit(c: char) {
    '0' as int <= c as int <= '9' as int
  }

  /** Length of the run of ASCII digits at the start of `s`. */
  function DigitSpan(s: string): (n: nat)
    ensures n <= |s|
    ensures forall i :: 0 <= i < n ==> IsDigit(s[i])
    ensures n == |s| || !IsDigit(s[n])
  {
    if s != [] && IsDigit(s[0]) then 1 + DigitSpan(s[1..]) else 0
  }

  function Pow10(n: nat): (r: nat)
    ensures r >= 1
  {
    if n == 0 then 1 else 10 * Pow10(n - 1)
  }

  /** The value of a run of decimal digits. */
  function DigitsValue(ds: string): nat
    requires forall i :: 0 <= i < |ds| ==> IsDigit(ds[i])
  {
    if ds == [] then 0
    else
      assert IsDigit(ds[|ds| - 1]);
      10 * DigitsValue(ds[..|ds| - 1]) + (ds[|ds| - 1] as int - '0' as int)
  }

  /** An exponent part after the `e`: an optional sign and at least one digit,
      nothing after them. */
  function ParseExponent(s: string): Option<int> {
    var neg := s != [] && s[0] == '-';
    var digits := if s != [] && (s[0] == '-' || s[0] == '+') then s[1..] else s;
    if digits == [] || DigitSpan(digits) != |digits| then None
    else
      var magnitude: int := DigitsValue(digits);
      Some(if neg then -magnitude else magnitude)
  }

  /** Splits a mantissa off `b`: its integer digits, its fraction digits
      (after an optional `.`) and whatever follows. */
  function ScanMantissa(b: string): (r: (string, string, string))
    ensures forall i :: 0 <= i < |r.0| ==> IsDigit(r.0[i])
    ensures forall i :: 0 <= i < |r.1| ==> IsDigit(r.1[i])
  {
    var i := DigitSpan(b);
    var afterInt := b[i..];
    if afterInt != [] && afterInt[0] == '.' then
      var afterDot := afterInt[1..];
      var k := DigitSpan(afterDot);
      (b[..i], afterDot[..k], afterDot[k..])
    else (b[..i], "", afterInt)
  }

  function MantissaValue(intDigits: string, fracDigits: string): real
    requires forall i :: 0 <= i < |intDigits| ==> IsDigit(intDigits[i])
    requires forall i :: 0 <= i < |fracDigits| ==> IsDigit(fracDigits[i])
  {
    DigitsValue(intDigits) as real + DigitsValue(fracDigits) as real / Pow10(|fracDigits|) as real
  }

  function Scale(m: real, e: int): real {
    if e >= 0 then m * Pow10(e) as real else m / Pow10(-e) as real
  }

  /** An unsigned StrDecimalLiteral: digits, an optional fraction and an
      optional exponent, with at least one digit in the mantissa. */
  function ParseUnsignedDecimal(b: string): Option<real> {
    var (intDigits, fracDigits, rest) := ScanMantissa(b);
    if |intDigits| + |fracDigits| == 0 then None
    else if rest == [] then Some(MantissaValue(intDigits, fracDigits))
    else if rest[0] != 'e' && rest[0] != 'E' then None
    else match ParseExponent(rest[1..])
      case None => None
      case Some(e) => Some(Scale(MantissaValue(intDigits, fracDigits), e))
  }

  /** `Number(s)`, with `None` for NaN: surrounding whitespace is ignored, a
      blank string is 0, and the rest must be a signed decimal literal. */
  function ParseNumber(s: string): (r: Option<real>)
    ensures IsBlank(s) ==> r == Some(0.0)
  {
    var t := Trim(s);
    if t == [] then Some(0.0)
    else
      var neg := t[0] == '-';
      var body := if t[0] == '-' || t[0] == '+' then t[1..] else t;
      match ParseUnsignedDecimal(body)
      case None => None
      case Some(v) => Some(if neg then -v else v)
  }

  /** `isNaN(Number(s))` */
  predicate IsNaN(s: string) {
    ParseNumber(s).None?
  }

  lemma DigitIsNotWhitespace(c: char)
    requires IsDigit(c)
    ensures !IsWhitespace(c)
  {
  }

  /** A string made only of digits reads as the number those digits spell. */
  lemma DigitStringIsNumber(ds: string)
    requires ds != [] && forall i :: 0 <= i < |ds| ==> IsDigit(ds[i])
    ensures ParseNumber(ds) == Some(DigitsValue(ds) as real)
  {
    DigitStringIsTrimmed(ds);
    assert IsDigit(ds[0]);
    UnsignedDigitString(ds);
  }

  lemma UnsignedDigitString(ds: string)
    requires ds != [] && forall i :: 0 <= i < |ds| ==> IsDigit(ds[i])
    ensures ParseUnsignedDecimal(ds) == Some(DigitsValue(ds) as real)
  {
    DigitStringIsMantissa(ds);
    assert MantissaValue(ds, "") == DigitsValue(ds) as real by {
      assert DigitsValue("") == 0 && Pow10(0) == 1;
    }
  }

  lemma DigitStringIsTrimmed(ds: string)
    requires ds != [] && forall i :: 0 <= i < |ds| ==> IsDigit(ds[i])
    ensures Trim(ds) == ds
  {
    DigitIsNotWhitespace(ds[0]);
    DigitIsNotWhitespace(ds[|ds| - 1]);
    assert TrimStart(ds) == ds;
  }

  lemma DigitStringIsMantissa(ds: string)
    requires forall i :: 0 <= i < |ds| ==> IsDigit(ds[i])
    ensures ScanMantissa(ds) == (ds, "", "")
  {
    var n := DigitSpan(ds);
    assert n == |ds|;
    assert ds[n..] == [] && ds[..n] == ds;
  }

  predicate IsAsciiLetter(c: char) {
    'a' <= c <= 'z' || 'A' <= c <= 'Z'
  }

  /** A URL scheme: a letter, then letters, digits, `+`, `-` or `.`. */
  predicate IsScheme(s: string) {
    s != [] && IsAsciiLetter(s[0]) &&
    forall i :: 1 <= i < |s| ==> IsAsciiLetter(s[i]) || IsDigit(s[i]) || s[i] in "+-."
  }

  /** Schemes whose URLs must name a host. */
  predicate NeedsHost(scheme: string) {
    SameIgnoringCase(scheme, "http") || SameIgnoringCase(scheme, "https") ||
    SameIgnoringCase(scheme, "ws") || SameIgnoringCase(scheme, "wss") ||
    SameIgnoringCase(scheme, "ftp")
  }

  /** `s.toLowerCase() === lower` for a lower-case ASCII `lower`. */
  predicate SameIgnoringCase(s: string, lower: string) {
    if s == [] then lower == []
    else lower != [] && ToLowerChar(s[0]) == lower[0] && SameIgnoringCase(s[1..], lower[1..])
  }

  function DropSlashes(s: string): (r: string)
    ensures r == [] || (r[0] != '/' && r[0] != '\\')
  {
    if s != [] && (s[0] == '/' || s[0] == '\\') then DropSlashes(s[1..]) else s
  }

  /** `s.length`: the number of UTF-16 code units, two for a character
      beyond the Basic Multilingual Plane. */
  function Utf16Length(s: string): (n: nat)
    ensures |s| <= n <= 2 * |s|
    ensures n == 0 <==> s == []
  {
    if s == [] then 0
    else (if s[0] as int < 0x10000 then 1 else 2) + Utf16Length(s[1..])
  }

  /** Index of the first `:` in `s`, if any. */
  function ColonIndex(s: string): (r: Option<nat>)
    ensures r.Some? ==> r.value < |s| && s[r.value] == ':' && ':' !in s[..r.value]
    ensures r.None? ==> ':' !in s
  {
    if s == [] then None
    else if s[0] == ':' then Some(0)
    else match ColonIndex(s[1..])
      case None => None
      case Some(i) => assert s[..i + 1] == [s[0]] + s[1..][..i]; Some(i + 1)
  }

  /** A C0 control or a space: what `new URL` strips from both ends. */
  predicate IsC0OrSpace(c: char) {
    c as int <= 0x20
  }

  function StripLeadingC0(s: string): (r: string)
    ensures |r| <= |s| && r == s[|s| - |r|..]
    ensures r == [] || !IsC0OrSpace(r[0])
    ensures forall i :: 0 <= i < |s| - |r| ==> IsC0OrSpace(s[i])
  {
    if s != [] && IsC0OrSpace(s[0]) then StripLeadingC0(s[1..]) else s
  }

  function StripTrailingC0(s: string): (r: string)
    ensures |r| <= |s| && r == s[..|r|]
    ensures r == [] || !IsC0OrSpace(r[|r| - 1])
    ensures forall i :: |r| <= i < |s| ==> IsC0OrSpace(s[i])
  {
    if s != [] && IsC0OrSpace(s[|s| - 1]) then StripTrailingC0(s[..|s| - 1]) else s
  }

  /** A URL that `new URL(s)` accepts: once leading and trailing controls
      and spaces are stripped, a scheme, a colon and, for the web schemes,
      a non-empty host after the slashes. */
  predicate IsUrl(s: string) {
    IsStrippedUrl(StripTrailingC0(StripLeadingC0(s)))
  }

  lemma EmptyIsNotUrl()
    ensures !IsUrl("")
  {
    assert StripTrailingC0(StripLeadingC0("")) == "";
  }

  /** A leading control or space does not change whether a string is a URL. */
  lemma UrlIgnoresLeadingC0(c: char, s: string)
    requires IsC0OrSpace(c)
    ensures IsUrl([c] + s) <==> IsUrl(s)
  {
    assert ([c] + s)[1..] == s;
  }

  predicate IsStrippedUrl(s: string) {
    match ColonIndex(s)
    case None => false
    case Some(i) =>
      var scheme := s[..i];
      var rest := DropSlashes(s[i + 1..]);
      IsScheme(scheme) && (NeedsHost(scheme) ==> rest != [] && rest[0] !in "?#")
  }
}
