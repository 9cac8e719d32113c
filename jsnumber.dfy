/** The JavaScript conversions between text and numbers that the application
    performs: `String(n)`, `Number(s)` (also on null) and `parseInt(s)`,
    restricted to decimal integers. A number is an integer or NaN. */
module JsNumber {
  import opened Wrappers

  /** A JavaScript number as the application obtains it from text. */
  datatype Num = Int(value: int) | NaN

  predicate IsDigit(c: char) { '0' <= c <= '9' }

  predicate IsSpace(c: char) { c == ' ' || c == '\t' || c == '\n' || c == '\r' }

  predicate AllDigits(s: string) { forall i :: 0 <= i < |s| ==> IsDigit(s[i]) }

  function DigitChar(d: nat): (c: char)
    requires d < 10
    ensures IsDigit(c)
  {
    ('0' as int + d) as char
  }

  /** Decimal digits of a natural number, most significant first. */
  function NatToString(n: nat): (s: string)
    ensures |s| > 0 && AllDigits(s)
  {
    if n < 10 then [DigitChar(n)] else NatToString(n / 10) + [DigitChar(n % 10)]
  }

  /** The value of a string of decimal digits. */
  function DigitsValue(s: string): nat
    requires AllDigits(s)
  {
    if s == [] then 0 else DigitsValue(s[..|s| - 1]) * 10 + (s[|s| - 1] as int - '0' as int)
  }

  lemma {:induction false} NatToStringRoundTrip(n: nat)
    ensures DigitsValue(NatToString(n)) == n
  {
    if n >= 10 {
      NatToStringRoundTrip(n / 10);
      var s := NatToString(n);
      assert s[..|s| - 1] == NatToString(n / 10);
    }
  }

  /** `String(i)` for an integer `i`. */
  function IntToString(i: int): (s: string)
    ensures |s| > 0
  {
    if i < 0 then "-" + NatToString(-i) else NatToString(i)
  }

  /** `trimStart` over the whitespace characters modelled here. */
  function TrimStart(s: string): (r: string)
    ensures r == [] || !IsSpace(r[0])
  {
    if s != [] && IsSpace(s[0]) then TrimStart(s[1..]) else s
  }

  /** `trimEnd` over the whitespace characters modelled here. */
  function TrimEnd(s: string): (r: string)
    ensures r <= s
    ensures r == [] || !IsSpace(r[|r| - 1])
  {
    if s != [] && IsSpace(s[|s| - 1]) then TrimEnd(s[..|s| - 1]) else s
  }

  function Signed(negative: bool, magnitude: nat): int {
    if negative then -(magnitude as int) else magnitude
  }

  /** An optional sign followed by one or more digits, and its value. */
  function SignedDigits(t: string): Option<int> {
    if |t| > 0 && (t[0] == '-' || t[0] == '+') then
      var d := t[1..];
      if |d| > 0 && AllDigits(d) then Some(Signed(t[0] == '-', DigitsValue(d)))
      else None
    else if |t| > 0 && AllDigits(t) then Some(DigitsValue(t))
    else None
  }

  /** `Number(s)`: surrounding whitespace is ignored, the empty string is 0,
      a signed decimal integer is its value, anything else is NaN. */
  function ToNumber(s: string): Num {
    var t := TrimEnd(TrimStart(s));
    if t == "" then Int(0)
    else match SignedDigits(t)
      case Some(v) => Int(v)
      case None => NaN
  }

  /** `Number(x)` where `x` may be null; `Number(null)` is 0. */
  function ToNumberOrNull(x: Option<string>): Num {
    match x
    case None => Int(0)
    case Some(s) => ToNumber(s)
  }

  /** The longest prefix of `s` made of digits. */
  function DigitPrefix(s: string): (r: string)
    ensures r <= s && AllDigits(r)
  {
    if s != [] && IsDigit(s[0]) then [s[0]] + DigitPrefix(s[1..]) else []
  }

  /** `parseInt(s)` in base 10: leading whitespace and a sign are skipped, the
      longest run of digits that follows is read and the rest ignored; with no
      digit at all the result is NaN. */
  function ParseInt(s: string): Num {
    var t := TrimStart(s);
    if |t| > 0 && t[0] == '-' then LeadingDigits(t[1..], true)
    else if |t| > 0 && t[0] == '+' then LeadingDigits(t[1..], false)
    else LeadingDigits(t, false)
  }

  /** The value of the digits at the start of `t`, NaN when there are none. */
  function LeadingDigits(t: string, negative: bool): Num {
    var d := DigitPrefix(t);
    if d == "" then NaN else Int(Signed(negative, DigitsValue(d)))
  }

  /** The comparison `a > b`, which is false whenever `a` is NaN. */
  predicate Greater(a: Num, b: int) {
    a.Int? && a.value > b
  }

  lemma {:induction false} DigitPrefixOfDigits(s: string)
    requires AllDigits(s)
    ensures DigitPrefix(s) == s
  {
    if s != [] {
      DigitPrefixOfDigits(s[1..]);
    }
  }

  /** `Number` reads back what `String` writes. */
  lemma ToNumberRoundTrip(i: int)
    ensures ToNumber(IntToString(i)) == Int(i)
  {
    var s := IntToString(i);
    var d := NatToString(if i < 0 then -i else i);
    NatToStringRoundTrip(if i < 0 then -i else i);
    assert TrimStart(s) == s;
    assert TrimEnd(s) == s;
    if i < 0 {
      assert s[1..] == d;
    } else {
      assert s == d && IsDigit(s[0]);
    }
  }

  /** `parseInt` reads back what `String` writes. */
  lemma ParseIntRoundTrip(i: int)
    ensures ParseInt(IntToString(i)) == Int(i)
  {
    var s := IntToString(i);
    if i < 0 {
      assert s == "-" + NatToString(-i);
      ParseNegative(-i);
    } else {
      assert s == NatToString(i);
      ParseNonNegative(i);
    }
  }

  lemma ParseNegative(n: nat)
    requires n > 0
    ensures ParseInt("-" + NatToString(n)) == Int(-(n as int))
  {
    var d := NatToString(n);
    var s := "-" + d;
    assert TrimStart(s) == s by { assert s[0] == '-'; }
    assert ParseInt(s) == LeadingDigits(s[1..], true);
    assert s[1..] == d;
    NatToStringRoundTrip(n);
    ReadsDigits(d, true);
  }

  lemma ParseNonNegative(n: nat)
    ensures ParseInt(NatToString(n)) == Int(n)
  {
    var d := NatToString(n);
    assert IsDigit(d[0]);
    assert TrimStart(d) == d;
    NatToStringRoundTrip(n);
    ReadsDigits(d, false);
  }

  lemma ReadsDigits(d: string, negative: bool)
    requires AllDigits(d) && d != ""
    ensures LeadingDigits(d, negative) == Int(Signed(negative, DigitsValue(d)))
  {
    DigitPrefixOfDigits(d);
  }
}
