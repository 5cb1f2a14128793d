/**
 * The two JavaScript number conversions the admin form relies on:
 * `Number.prototype.toString()` on an integer price, and the global
 * `parseInt(string)` with no radix argument (section 19.2.5 of ECMA-262).
 * Numbers are modelled as exact integers; `parseInt` yields an integer or NaN.
 */
module JsNumber {

  datatype Parsed = NaN | Int(value: int)

  predicate IsDecimalDigit(c: char) {
    '0' <= c <= '9'
  }

  predicate IsHexDigit(c: char) {
    IsDecimalDigit(c) || 'a' <= c <= 'f' || 'A' <= c <= 'F'
  }

  /** A digit of the given radix; `parseInt` only ever uses 10 or 16 here. */
  predicate IsRadixDigit(c: char, hex: bool) {
    if hex then IsHexDigit(c) else IsDecimalDigit(c)
  }

  function DigitValue(c: char): (d: nat)
    requires IsHexDigit(c)
    ensures IsDecimalDigit(c) ==> d < 10
    ensures d < 16
  {
    if IsDecimalDigit(c) then c as int - '0' as int
    else if 'a' <= c <= 'f' then c as int - 'a' as int + 10
    else c as int - 'A' as int + 10
  }

  /** The character of a decimal digit value. */
  function DigitChar(d: nat): (c: char)
    requires d < 10
    ensures IsDecimalDigit(c) && DigitValue(c) == d
  {
    ('0' as int + d) as char
  }

  /** StrWhiteSpaceChar: the WhiteSpace and LineTerminator code points of ECMA-262. */
  predicate IsJsWhitespace(c: char) {
    c == '\t' || c == '\U{B}' || c == '\U{C}' || c == ' ' || c == '\U{A0}' || c == '\U{FEFF}'
    || c == '\n' || c == '\r' || c == '\U{2028}' || c == '\U{2029}'
    || c == '\U{1680}' || ('\U{2000}' <= c <= '\U{200A}') || c == '\U{202F}'
    || c == '\U{205F}' || c == '\U{3000}'
  }

  /**
   * `s` with its leading white space removed. `TrimStartSuffix` states that
   * the result is what follows a run of white space at the start of `s`.
   */
  function TrimStart(s: string): (r: string)
    ensures |r| == 0 || !IsJsWhitespace(r[0])
  {
    if |s| > 0 && IsJsWhitespace(s[0]) then TrimStart(s[1..]) else s
  }

  /** Trimming drops exactly a prefix of white space: the rest of `s` is kept as it is. */
  lemma {:induction false} TrimStartSuffix(s: string)
    ensures |TrimStart(s)| <= |s| && TrimStart(s) == s[|s| - |TrimStart(s)|..]
    ensures forall i :: 0 <= i < |s| - |TrimStart(s)| ==> IsJsWhitespace(s[i])
  {
    if |s| > 0 && IsJsWhitespace(s[0]) {
      TrimStartSuffix(s[1..]);
      assert s[1..][|s[1..]| - |TrimStart(s[1..])|..] == s[|s| - |TrimStart(s)|..];
      forall i | 0 <= i < |s| - |TrimStart(s)|
        ensures IsJsWhitespace(s[i])
      {
        if i > 0 {
          assert s[i] == s[1..][i - 1];
        }
      }
    }
  }

  /** The length of the longest prefix of `s` made of digits of the radix. */
  function DigitPrefixLength(s: string, hex: bool): (n: nat)
    ensures n <= |s|
    ensures forall i :: 0 <= i < n ==> IsRadixDigit(s[i], hex)
    ensures n == |s| || !IsRadixDigit(s[n], hex)
  {
    if |s| > 0 && IsRadixDigit(s[0], hex) then 1 + DigitPrefixLength(s[1..], hex) else 0
  }

  /** The mathematical value of a digit string in radix 10 or 16, most significant digit first. */
  function ValueOf(digits: string, hex: bool): nat
    requires forall i :: 0 <= i < |digits| ==> IsRadixDigit(digits[i], hex)
  {
    if |digits| == 0 then 0
    else
      assert IsRadixDigit(digits[|digits| - 1], hex);
      ValueOf(digits[..|digits| - 1], hex) * (if hex then 16 else 10) + DigitValue(digits[|digits| - 1])
  }

  /**
   * The unsigned part of `parseInt`: radix 16 after a `0x`/`0X` prefix,
   * otherwise radix 10, then the value of the longest run of digits; no
   * digit at all gives NaN.
   */
  function ParseMagnitude(u: string): (r: Parsed)
    ensures r.Int? ==> r.value >= 0
    ensures |u| == 0 ==> r == NaN
    ensures |u| > 0 && !IsDecimalDigit(u[0]) ==> r == NaN
  {
    var hex := |u| >= 2 && u[0] == '0' && (u[1] == 'x' || u[1] == 'X');
    var body := if hex then u[2..] else u;
    var n := DigitPrefixLength(body, hex);
    if n == 0 then NaN else Int(ValueOf(body[..n], hex))
  }

  /**
   * `parseInt(s)`: skip leading white space, read an optional sign, then the
   * magnitude. Anything after the digits is ignored.
   */
  function ParseInt(s: string): (r: Parsed)
    ensures |TrimStart(s)| == 0 ==> r == NaN
    ensures r.Int? && r.value < 0 ==> TrimStart(s)[0] == '-'
  {
    ParseSigned(TrimStart(s))
  }

  /**
   * Text with no digit where `parseInt` looks for one is NaN: blank text,
   * and text whose first character is neither white space, a sign nor a digit.
   */
  lemma ParseIntNaN(s: string)
    ensures (forall i :: 0 <= i < |s| ==> IsJsWhitespace(s[i])) ==> ParseInt(s) == NaN
    ensures |s| > 0 && !IsJsWhitespace(s[0]) && !IsDecimalDigit(s[0]) && s[0] != '-' && s[0] != '+'
            ==> ParseInt(s) == NaN
  {
    if forall i :: 0 <= i < |s| ==> IsJsWhitespace(s[i]) {
      TrimBlank(s);
    }
  }

  /** Text made only of white space trims to nothing. */
  lemma {:induction false} TrimBlank(s: string)
    requires forall i :: 0 <= i < |s| ==> IsJsWhitespace(s[i])
    ensures TrimStart(s) == ""
  {
    if |s| > 0 {
      TrimBlank(s[1..]);
    }
  }

  /** The sign applied to a parsed magnitude; NaN stays NaN. */
  function Negate(p: Parsed): (r: Parsed)
    ensures r.NaN? <==> p.NaN?
    ensures r.Int? ==> r.value == -p.value
  {
    match p
    case NaN => NaN
    case Int(m) => Int(-m)
  }

  /** `parseInt` after white space: an optional sign, then the magnitude. */
  function ParseSigned(t: string): (r: Parsed)
    ensures |t| == 0 ==> r == NaN
    ensures r.Int? && r.value < 0 ==> t[0] == '-'
    ensures |t| > 0 && t[0] != '-' && t[0] != '+' ==> r == ParseMagnitude(t)
  {
    if |t| > 0 && t[0] == '-' then Negate(ParseMagnitude(t[1..]))
    else if |t| > 0 && t[0] == '+' then ParseMagnitude(t[1..])
    else ParseMagnitude(t)
  }

  /** The decimal digits of a natural number, without leading zeros. */
  function NatToDigits(n: nat): (r: string)
    ensures |r| >= 1
    ensures forall i :: 0 <= i < |r| ==> IsDecimalDigit(r[i])
    ensures ValueOf(r, false) == n
    ensures r[0] == '0' ==> n == 0 && |r| == 1
  {
    if n < 10 then [DigitChar(n)]
    else
      var r := NatToDigits(n / 10) + [DigitChar(n % 10)];
      assert r[..|r| - 1] == NatToDigits(n / 10);
      r
  }

  /** `Number.prototype.toString()` of an integer: a minus sign for negatives, then the decimal digits. */
  function IntToString(n: int): (r: string)
    ensures |r| >= 1
    ensures r[0] == '-' <==> n < 0
    ensures n < 0 ==> r[1..] == NatToDigits(-n)
    ensures n >= 0 ==> r == NatToDigits(n)
  {
    if n < 0 then "-" + NatToDigits(-n) else NatToDigits(n)
  }

  /**
   * Reading back a rendered integer gives the integer, also when text follows
   * that cannot continue the number: `parseInt("12.5")` is 12 and
   * `parseInt("3e3")` is 3. Only after a lone `0` does an `x` continue it,
   * as the hexadecimal prefix.
   */
  lemma ParseIntAfterToString(n: int, rest: string)
    requires |rest| == 0 || (!IsDecimalDigit(rest[0]) && (n != 0 || (rest[0] != 'x' && rest[0] != 'X')))
    ensures ParseInt(IntToString(n) + rest) == Int(n)
  {
    if n < 0 {
      var d := NatToDigits(-n);
      assert IntToString(n) == "-" + d;
      ConcatAssoc("-", d, rest);
      MagnitudeAfterDigits(-n, rest);
      ParseAfterMinus(d + rest);
      NegateInt(ParseMagnitude(d + rest), -n);
    } else {
      var d := NatToDigits(n);
      assert IntToString(n) == d;
      MagnitudeAfterDigits(n, rest);
      ParseAfterDigit(d + rest);
    }
  }

  /** `parseInt` reads only the leading integer of a decimal or exponent text. */
  lemma ParseIntStopsAtNonDigit()
    ensures ParseInt(".5") == NaN
    ensures ParseInt("12.5") == Int(12)
    ensures ParseInt("3e3") == Int(3)
  {
    ParseIntNaN(".5");
    ParseIntOfDecimal();
    ParseIntOfExponent();
  }

  lemma ParseIntOfDecimal()
    ensures ParseInt("12.5") == Int(12)
  {
    ParseIntAfterToString(12, ".5");
    assert IntToString(12) + ".5" == "12.5";
  }

  lemma ParseIntOfExponent()
    ensures ParseInt("3e3") == Int(3)
  {
    ParseIntAfterToString(3, "e3");
    assert IntToString(3) + "e3" == "3e3";
  }

  /** The price round trip of the admin form: every integer survives rendering and parsing. */
  lemma ParseIntInvertsToString(n: int)
    ensures ParseInt(IntToString(n)) == Int(n)
  {
    ParseIntAfterToString(n, "");
    AppendEmpty(IntToString(n));
  }

  lemma NegateInt(p: Parsed, m: int)
    requires p == Int(m)
    ensures Negate(p) == Int(-m)
  {
  }

  lemma ConcatAssoc(a: string, b: string, c: string)
    ensures (a + b) + c == a + (b + c)
  {
  }

  lemma AppendEmpty(a: string)
    ensures a + "" == a
  {
  }

  /** A leading minus sign negates the magnitude that follows it. */
  lemma ParseAfterMinus(u: string)
    ensures ParseInt("-" + u) == Negate(ParseMagnitude(u))
  {
    var s := "-" + u;
    assert TrimStart(s) == s by { NoTrimBeforeNonSpace(s); }
    assert s[1..] == u;
  }

  /** Text starting with a digit is read as an unsigned magnitude. */
  lemma ParseAfterDigit(u: string)
    requires |u| > 0 && IsDecimalDigit(u[0])
    ensures ParseInt(u) == ParseMagnitude(u)
  {
    NoTrimBeforeNonSpace(u);
  }

  /** Text that starts with no white space is not trimmed. */
  lemma NoTrimBeforeNonSpace(s: string)
    requires |s| > 0 && !IsJsWhitespace(s[0])
    ensures TrimStart(s) == s
  {
  }

  /** The magnitude read from a rendered natural number followed by a non-digit is that number. */
  lemma MagnitudeAfterDigits(m: nat, rest: string)
    requires |rest| == 0 || (!IsDecimalDigit(rest[0]) && (m != 0 || (rest[0] != 'x' && rest[0] != 'X')))
    ensures |NatToDigits(m) + rest| > 0 && IsDecimalDigit((NatToDigits(m) + rest)[0])
    ensures ParseMagnitude(NatToDigits(m) + rest) == Int(m)
  {
    var digits := NatToDigits(m);
    var u := digits + rest;
    assert !(|u| >= 2 && u[0] == '0' && (u[1] == 'x' || u[1] == 'X')) by {
      if |u| >= 2 && u[0] == '0' {
        assert |digits| == 1;
        assert u[1] == rest[0];
      }
    }
    DigitPrefixOfDigits(digits, rest);
    assert u[..|digits|] == digits;
  }

  /** The digit run of `digits + rest` is exactly `digits` when `rest` starts with no digit. */
  lemma {:induction false} DigitPrefixOfDigits(digits: string, rest: string)
    requires forall i :: 0 <= i < |digits| ==> IsDecimalDigit(digits[i])
    requires |rest| == 0 || !IsDecimalDigit(rest[0])
    ensures DigitPrefixLength(digits + rest, false) == |digits|
    decreases |digits|
  {
    if |digits| > 0 {
      assert (digits + rest)[1..] == digits[1..] + rest;
      DigitPrefixOfDigits(digits[1..], rest);
    } else {
      assert digits + rest == rest;
    }
  }
}
