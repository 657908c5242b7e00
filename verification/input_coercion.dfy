/** The coercions the settings form applies to raw input text before it reaches the
    draft: `value || null` for the optional text fields and `parseInt(value) || 0`
    for the padding length (src/pages/Settings.tsx:344, 367, 411). */
module InputCoercion {
  import opened Basics

  /** `value || null`: the empty string becomes `null`. */
  function OptionalText(value: string): (r: Option<string>)
    ensures r.None? <==> value == ""
    ensures r.Some? ==> r.value == value
  {
    if value == "" then None else Some(value)
  }

  /** `field || ''`: what an optional text input shows. */
  function ShowOptional(field: Option<string>): (r: string)
    ensures field.None? ==> r == ""
    ensures field.Some? ==> r == field.value
  {
    match field
    case None => ""
    case Some(s) => s
  }

  /** Typing into an optional text input and showing the result gives back the text. */
  lemma ShowAfterCoerce(value: string)
    ensures ShowOptional(OptionalText(value)) == value
  {
  }

  /** Re-coercing what an optional input shows gives back the field, except that a
      stored empty string reads back as `null`. */
  lemma CoerceAfterShow(field: Option<string>)
    ensures OptionalText(ShowOptional(field)) == field <==> field != Some("")
  {
  }

  // ---------------------------------------------------------------------------
  // parseInt

  /** ECMAScript's StrWhiteSpaceChar: white space and line terminators. */
  predicate IsJsWhiteSpace(c: char) {
    || c == '\t' || c == '\n' || c == '\U{000B}' || c == '\U{000C}' || c == '\r' || c == ' '
    || c == '\U{00A0}' || c == '\U{1680}' || ('\U{2000}' <= c <= '\U{200A}')
    || c == '\U{2028}' || c == '\U{2029}' || c == '\U{202F}' || c == '\U{205F}'
    || c == '\U{3000}' || c == '\U{FEFF}'
  }

  /** Text made of white space only, which `trim()` turns into the empty string. */
  predicate AllWhiteSpace(text: string) {
    forall i :: 0 <= i < |text| ==> IsJsWhiteSpace(text[i])
  }

  predicate IsDecimalDigit(c: char) {
    '0' <= c <= '9'
  }

  /** The value of `c` as a digit in radix 36, if it is one. */
  function DigitValue(c: char): (r: Option<nat>)
    ensures r.Some? ==> r.value < 36
    ensures IsDecimalDigit(c) <==> r.Some? && r.value < 10
  {
    if '0' <= c <= '9' then Some(c as int - '0' as int)
    else if 'a' <= c <= 'z' then Some(c as int - 'a' as int + 10)
    else if 'A' <= c <= 'Z' then Some(c as int - 'A' as int + 10)
    else None
  }

  /** The two radixes `parseInt` picks from when none is given. */
  datatype Radix = Decimal | Hexadecimal {
    function Base(): nat {
      match this
      case Decimal => 10
      case Hexadecimal => 16
    }

    /** `x * Base()`, written per radix so that it stays linear. */
    function Shift(x: int): int {
      match this
      case Decimal => x * 10
      case Hexadecimal => x * 16
    }
  }

  predicate IsDigitIn(c: char, radix: Radix) {
    DigitValue(c).Some? && DigitValue(c).value < radix.Base()
  }

  /** The input with its leading white space removed. */
  function TrimStart(s: string): (r: string)
    ensures |r| <= |s| && r == s[|s| - |r|..]
    ensures AllWhiteSpace(s[..|s| - |r|])
    ensures |r| > 0 ==> !IsJsWhiteSpace(r[0])
    decreases |s|
  {
    if |s| > 0 && IsJsWhiteSpace(s[0]) then TrimStart(s[1..]) else s
  }

  /** The length of the longest prefix of `s` made of digits of `radix`. */
  function DigitRun(s: string, radix: Radix): (n: nat)
    ensures n <= |s|
    decreases |s|
  {
    if |s| > 0 && IsDigitIn(s[0], radix) then 1 + DigitRun(s[1..], radix) else 0
  }

  /** The digit run is the longest prefix of digits: all of it are digits, and the
      character after it is not one. */
  lemma {:induction false} DigitRunIsLongest(s: string, radix: Radix)
    ensures forall i :: 0 <= i < DigitRun(s, radix) ==> IsDigitIn(s[i], radix)
    ensures DigitRun(s, radix) < |s| ==> !IsDigitIn(s[DigitRun(s, radix)], radix)
    decreases |s|
  {
    if |s| > 0 && IsDigitIn(s[0], radix) {
      DigitRunIsLongest(s[1..], radix);
    }
  }

  /** The number a run of digits denotes, most significant first (only applied to
      runs of digits of `radix`). */
  function DigitsValue(ds: string, radix: Radix): int
    decreases |ds|
  {
    if |ds| == 0 then 0
    else radix.Shift(DigitsValue(ds[..|ds| - 1], radix)) + DigitValue(ds[|ds| - 1]).GetOr(0)
  }

  predicate HasHexPrefix(u: string) {
    |u| >= 2 && u[0] == '0' && (u[1] == 'x' || u[1] == 'X')
  }

  /** The unsigned part of `parseInt`: a `0x`/`0X` prefix selects radix 16, otherwise
      radix 10, and parsing stops at the first character that is not a digit of the
      radix; `None` when no digit follows. */
  function ParseMagnitude(u: string): Option<int> {
    var hex := HasHexPrefix(u);
    var radix := if hex then Hexadecimal else Decimal;
    var v := if hex then u[2..] else u;
    var n := DigitRun(v, radix);
    if n == 0 then None else Some(DigitsValue(v[..n], radix))
  }

  /** `-x` on a parse result; `NaN` stays `NaN`. */
  function Negate(o: Option<int>): Option<int> {
    match o
    case None => None
    case Some(m) => Some(-m)
  }

  /** `parseInt(s)` with no radix argument; `None` is `NaN`. Leading white space is
      skipped and one sign is accepted before the digits. */
  function ParseInt(s: string): Option<int> {
    var t := TrimStart(s);
    if |t| > 0 && t[0] == '-' then Negate(ParseMagnitude(t[1..]))
    else if |t| > 0 && t[0] == '+' then ParseMagnitude(t[1..])
    else ParseMagnitude(t)
  }

  /** `parseInt(value) || 0`: `NaN` (and `-0`) become `0`. */
  function PadLength(value: string): int {
    match ParseInt(value)
    case None => 0
    case Some(n) => n
  }

  /** The text `parseInt` reads its digits from: what follows the leading white space
      and at most one sign. */
  function NumberBody(s: string): string {
    var t := TrimStart(s);
    if |t| > 0 && (t[0] == '-' || t[0] == '+') then t[1..] else t
  }

  /** The body starts a number: with a `0x` prefix the character after it is a
      hexadecimal digit, otherwise the first character is a decimal digit. */
  predicate StartsWithDigit(u: string) {
    if HasHexPrefix(u) then |u| > 2 && IsDigitIn(u[2], Hexadecimal)
    else |u| > 0 && IsDecimalDigit(u[0])
  }

  /** There is a magnitude exactly when the body starts with a digit of its radix. */
  lemma MagnitudeIffDigit(u: string)
    ensures ParseMagnitude(u).None? <==> !StartsWithDigit(u)
  {
    if HasHexPrefix(u) {
      assert |u| > 2 ==> u[2..][0] == u[2];
    } else if |u| > 0 {
      assert IsDigitIn(u[0], Decimal) <==> IsDecimalDigit(u[0]);
    }
  }

  /** `parseInt` is `NaN` exactly when no digit starts the number body (so for `.5`,
      `-.5`, `abc5`, `0xg` and the empty text), and then the padding coerces to 0. */
  lemma NonNumericIsZero(value: string)
    ensures ParseInt(value).None? <==> !StartsWithDigit(NumberBody(value))
    ensures !StartsWithDigit(NumberBody(value)) ==> PadLength(value) == 0
  {
    assert ParseInt(value).None? <==> ParseMagnitude(NumberBody(value)).None?;
    MagnitudeIffDigit(NumberBody(value));
  }

  /** A bare fraction such as `.5` or `-.5`, as a number input hands it over, is
      `NaN` and stores 0. */
  lemma BareFractionIsNaN(sign: string, digits: string)
    requires sign == "" || sign == "-" || sign == "+"
    ensures ParseInt(sign + "." + digits).None? && PadLength(sign + "." + digits) == 0
  {
    var s := sign + "." + digits;
    assert TrimStart(s) == s by {
      assert !IsJsWhiteSpace(s[0]);
    }
    assert NumberBody(s)[0] == '.';
    NonNumericIsZero(s);
  }

  /** The number body is a suffix of the text. */
  lemma NumberBodyIsSuffix(value: string)
    ensures |NumberBody(value)| <= |value|
    ensures NumberBody(value) == value[|value| - |NumberBody(value)|..]
  {
    var t := TrimStart(value);
    if |t| > 0 && (t[0] == '-' || t[0] == '+') {
      assert t[1..] == value[|value| - |t| + 1..];
    }
  }

  /** In particular, text without a single decimal digit coerces to 0. */
  lemma DigitFreeIsZero(value: string)
    requires forall i :: 0 <= i < |value| ==> !IsDecimalDigit(value[i])
    ensures ParseInt(value).None? && PadLength(value) == 0
  {
    var u := NumberBody(value);
    NumberBodyIsSuffix(value);
    if |u| > 0 {
      assert u[0] == value[|value| - |u|];
    }
    NonNumericIsZero(value);
  }

  // ---------------------------------------------------------------------------
  // Decimal rendering, the partner of parseInt

  function DigitChar(d: nat): (c: char)
    requires d < 10
    ensures IsDecimalDigit(c) && DigitValue(c) == Some(d)
  {
    ('0' as int + d) as char
  }

  /** The decimal digits of `n`, without leading zeros. */
  function ShowNat(n: nat): (r: string)
    ensures |r| > 0
    ensures forall i :: 0 <= i < |r| ==> IsDecimalDigit(r[i])
    decreases n
  {
    if n < 10 then [DigitChar(n)] else ShowNat(n / 10) + [DigitChar(n % 10)]
  }

  /** How an integer is written in decimal: an optional minus sign, then its digits. */
  function ShowInt(n: int): string {
    if n < 0 then "-" + ShowNat(-n) else ShowNat(n)
  }

  /** The digits of `n` denote `n`. */
  lemma {:induction false} ShowNatValue(n: nat)
    ensures DigitsValue(ShowNat(n), Decimal) == n
    decreases n
  {
    if n >= 10 {
      ShowNatValue(n / 10);
      var s := ShowNat(n);
      assert s[..|s| - 1] == ShowNat(n / 10);
    }
  }

  /** A positive number's rendering does not start with `0`, so it never reads as a
      hexadecimal prefix. */
  lemma {:induction false} ShowNatLeadingDigit(n: nat)
    requires n > 0
    ensures ShowNat(n)[0] != '0'
    decreases n
  {
    if n >= 10 {
      ShowNatLeadingDigit(n / 10);
    }
  }

  /** The digit run of a rendered number followed by a non-digit is the whole rendering. */
  lemma {:induction false} DigitRunOfShow(digits: string, rest: string)
    requires forall i :: 0 <= i < |digits| ==> IsDecimalDigit(digits[i])
    requires |rest| == 0 || !IsDecimalDigit(rest[0])
    ensures DigitRun(digits + rest, Decimal) == |digits|
    decreases |digits|
  {
    if |digits| > 0 {
      assert (digits + rest)[1..] == digits[1..] + rest;
      DigitRunOfShow(digits[1..], rest);
    } else {
      assert digits + rest == rest;
    }
  }

  /** The digits of a number followed by something that cannot continue them read back
      as that number. */
  lemma MagnitudeOfShow(m: nat, rest: string)
    requires |rest| == 0 || !(IsDecimalDigit(rest[0]) || rest[0] == 'x' || rest[0] == 'X')
    ensures ParseMagnitude(ShowNat(m) + rest) == Some(m)
  {
    var digits := ShowNat(m);
    var u := digits + rest;
    if m > 0 {
      ShowNatLeadingDigit(m);
    }
    if |digits| >= 2 {
      assert m >= 10;
      assert u[0] == digits[0];
    }
    assert !(|u| >= 2 && u[0] == '0' && (u[1] == 'x' || u[1] == 'X'));
    DigitRunOfShow(digits, rest);
    assert u[..|digits|] == digits;
    ShowNatValue(m);
  }

  /** Text that starts with a digit is parsed without a sign. */
  lemma ParseUnsigned(u: string)
    requires |u| > 0 && IsDecimalDigit(u[0])
    ensures ParseInt(u) == ParseMagnitude(u)
  {
    assert TrimStart(u) == u by {
      assert !IsJsWhiteSpace(u[0]);
    }
  }

  /** Text that starts with a minus sign is parsed as the negated magnitude of the rest. */
  lemma ParseNegative(u: string)
    ensures ParseInt(['-'] + u) == Negate(ParseMagnitude(u))
  {
    var s := ['-'] + u;
    assert TrimStart(s) == s by {
      assert !IsJsWhiteSpace(s[0]);
    }
    assert s[1..] == u;
  }

  lemma ParseShowNegative(m: nat, rest: string)
    requires m > 0
    requires |rest| == 0 || !(IsDecimalDigit(rest[0]) || rest[0] == 'x' || rest[0] == 'X')
    ensures ParseInt(("-" + ShowNat(m)) + rest) == Some(-(m as int))
  {
    var digits := ShowNat(m);
    assert ("-" + digits) + rest == ['-'] + (digits + rest);
    MagnitudeOfShow(m, rest);
    ParseNegative(digits + rest);
  }

  lemma ParseShowNonNegative(m: nat, rest: string)
    requires |rest| == 0 || !(IsDecimalDigit(rest[0]) || rest[0] == 'x' || rest[0] == 'X')
    ensures ParseInt(ShowNat(m) + rest) == Some(m)
  {
    var digits := ShowNat(m);
    MagnitudeOfShow(m, rest);
    assert (digits + rest)[0] == digits[0];
    ParseUnsigned(digits + rest);
  }

  /** `parseInt` reads back a rendered integer, and stops where the number ends: what
      follows (a fraction, an exponent, anything that does not begin with a digit or
      an `x`) is ignored. */
  lemma ParseShowInt(n: int, rest: string)
    requires |rest| == 0 || !(IsDecimalDigit(rest[0]) || rest[0] == 'x' || rest[0] == 'X')
    ensures ParseInt(ShowInt(n) + rest) == Some(n)
  {
    if n < 0 {
      ParseShowNegative(-n, rest);
    } else {
      ParseShowNonNegative(n, rest);
    }
  }

  /** The padding input round-trips: the draft holds exactly the number typed, also
      when a fraction or an exponent follows it. */
  lemma PadLengthRoundTrip(n: int, rest: string)
    requires |rest| == 0 || !(IsDecimalDigit(rest[0]) || rest[0] == 'x' || rest[0] == 'X')
    ensures PadLength(ShowInt(n) + rest) == n
    ensures PadLength(ShowInt(n)) == n
  {
    ParseShowInt(n, rest);
    ParseShowInt(n, "");
    assert ShowInt(n) + "" == ShowInt(n);
  }
}
