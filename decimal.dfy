/**
 * Decimal text of integers, as JavaScript's template literals print them,
 * and JavaScript's `parseInt(s)` (no radix) on the token that follows a
 * setting command.
 */
module Decimal {
  import opened Wrappers

  predicate IsDigit(c: char)
  {
    '0' <= c <= '9'
  }

  predicate AllDigits(s: string)
  {
    forall i :: 0 <= i < |s| ==> IsDigit(s[i])
  }

  function DigitChar(d: nat): (c: char)
    requires d < 10
    ensures IsDigit(c)
  {
    ('0' as int + d) as char
  }

  function DigitValue(c: char): (d: nat)
    requires IsDigit(c)
    ensures d < 10
  {
    c as int - '0' as int
  }

  /** The decimal digits of `n`, most significant first, without leading zeros. */
  function NatToString(n: nat): (s: string)
    ensures |s| >= 1 && AllDigits(s)
    ensures s[0] == '0' ==> n == 0
  {
    if n < 10 then [DigitChar(n)] else NatToString(n / 10) + [DigitChar(n % 10)]
  }

  /** `${i}` for an integer `i`. */
  function IntToString(i: int): (s: string)
    ensures |s| >= 1
    ensures s[0] == '-' <==> i < 0
    ensures ' ' !in s
  {
    if i < 0 then "-" + NatToString(-i) else NatToString(i)
  }

  /** The value of a string of decimal digits. */
  function DecValue(d: string): nat
    requires AllDigits(d)
  {
    if d == [] then 0 else DecValue(d[..|d| - 1]) * 10 + DigitValue(d[|d| - 1])
  }

  predicate IsHexDigit(c: char)
  {
    IsDigit(c) || 'a' <= c <= 'f' || 'A' <= c <= 'F'
  }

  predicate AllHexDigits(s: string)
  {
    forall i :: 0 <= i < |s| ==> IsHexDigit(s[i])
  }

  function HexDigitValue(c: char): (d: nat)
    requires IsHexDigit(c)
    ensures d < 16
  {
    if IsDigit(c) then DigitValue(c)
    else if 'a' <= c <= 'f' then c as int - 'a' as int + 10
    else c as int - 'A' as int + 10
  }

  /** The value of a string of hexadecimal digits. */
  function HexValue(h: string): nat
    requires AllHexDigits(h)
  {
    if h == [] then 0 else HexValue(h[..|h| - 1]) * 16 + HexDigitValue(h[|h| - 1])
  }

  /** The longest prefix of `s` made of decimal digits. */
  function DigitPrefix(s: string): (d: string)
    ensures d <= s && AllDigits(d)
    ensures |d| < |s| ==> !IsDigit(s[|d|])
  {
    if s != [] && IsDigit(s[0]) then [s[0]] + DigitPrefix(s[1..]) else []
  }

  /** The longest prefix of `s` made of hexadecimal digits. */
  function HexPrefix(s: string): (h: string)
    ensures h <= s && AllHexDigits(h)
    ensures |h| < |s| ==> !IsHexDigit(s[|h|])
  {
    if s != [] && IsHexDigit(s[0]) then [s[0]] + HexPrefix(s[1..]) else []
  }

  /** The characters `parseInt` skips before the number (ECMAScript's StrWhiteSpaceChar). */
  predicate IsJsWhitespace(c: char)
  {
    c in {'\U{9}', '\U{A}', '\U{B}', '\U{C}', '\U{D}', '\U{20}', '\U{A0}', '\U{1680}',
          '\U{2000}', '\U{2001}', '\U{2002}', '\U{2003}', '\U{2004}', '\U{2005}', '\U{2006}', '\U{2007}',
          '\U{2008}', '\U{2009}', '\U{200A}', '\U{2028}', '\U{2029}', '\U{202F}', '\U{205F}', '\U{3000}',
          '\U{FEFF}'}
  }

  function TrimStart(s: string): (t: string)
    ensures |t| <= |s| && t == s[|s| - |t|..]
    ensures t != [] ==> !IsJsWhitespace(t[0])
  {
    if s != [] && IsJsWhitespace(s[0]) then TrimStart(s[1..]) else s
  }

  /**
   * The unsigned number `parseInt` reads: hexadecimal digits after "0x" or
   * "0X", else decimal digits, as many as there are; `None` when there is no digit.
   */
  function Magnitude(body: string): Option<nat>
  {
    if |body| >= 2 && body[0] == '0' && (body[1] == 'x' || body[1] == 'X') then
      var h := HexPrefix(body[2..]);
      if h == [] then None else Some(HexValue(h))
    else
      var d := DigitPrefix(body);
      if d == [] then None else Some(DecValue(d))
  }

  /**
   * `parseInt(s)`: skip leading white space, read an optional sign, then the
   * magnitude; `None` stands for NaN.
   */
  function ParseInt(s: string): (r: Option<int>)
    ensures TrimStart(s) == [] ==> r == None
    ensures var t := TrimStart(s);
      t != [] && !IsDigit(t[0]) && t[0] != '-' && t[0] != '+' ==> r == None
    ensures var t := TrimStart(s);
      t != [] && IsDigit(t[0]) && !(|t| >= 2 && (t[1] == 'x' || t[1] == 'X')) ==> r.Some? && r.value >= 0
    ensures r.Some? && r.value < 0 ==> TrimStart(s)[0] == '-'
  {
    var t := TrimStart(s);
    var negative := t != [] && t[0] == '-';
    var body := if t != [] && (t[0] == '-' || t[0] == '+') then t[1..] else t;
    match Magnitude(body)
    case None => None
    case Some(v) => Some(if negative then -(v as int) else v as int)
  }

  lemma {:induction false} DecValueOfNatToString(n: nat)
    ensures DecValue(NatToString(n)) == n
  {
    if n >= 10 {
      var s := NatToString(n);
      assert s[..|s| - 1] == NatToString(n / 10);
      DecValueOfNatToString(n / 10);
    }
  }

  /** A character after which `parseInt` stops reading a decimal number. */
  predicate EndsNumber(rest: string)
  {
    rest == [] || (!IsDigit(rest[0]) && rest[0] != 'x' && rest[0] != 'X')
  }

  lemma {:induction false} DigitPrefixOfDigits(s: string, rest: string)
    requires AllDigits(s) && (rest == [] || !IsDigit(rest[0]))
    ensures DigitPrefix(s + rest) == s
  {
    if s != [] {
      DigitPrefixOfDigits(s[1..], rest);
      assert (s + rest)[1..] == s[1..] + rest;
      assert s == [s[0]] + s[1..];
    }
  }

  /** A string of decimal digits, followed by something that ends the number, reads as its decimal value. */
  lemma MagnitudeOfDigits(d: string, rest: string)
    requires |d| >= 1 && AllDigits(d) && EndsNumber(rest)
    ensures Magnitude(d + rest) == Some(DecValue(d))
  {
    DigitPrefixOfDigits(d, rest);
    if |d| == 1 && |d + rest| >= 2 {
      assert (d + rest)[1] == rest[0];
    }
  }

  /** Text starting with a digit is read without sign. */
  lemma ParseIntUnsigned(s: string, m: nat)
    requires s != [] && IsDigit(s[0]) && Magnitude(s) == Some(m)
    ensures ParseInt(s) == Some(m)
  {
    assert !IsJsWhitespace(s[0]);
    assert TrimStart(s) == s;
  }

  /** Text starting with '-' and a digit is read as a negative number. */
  lemma ParseIntNegative(s: string, m: nat)
    requires |s| >= 2 && s[0] == '-' && IsDigit(s[1]) && Magnitude(s[1..]) == Some(m)
    ensures ParseInt(s) == Some(-(m as int))
  {
    assert !IsJsWhitespace(s[0]);
    assert TrimStart(s) == s;
  }

  /**
   * `parseInt` reads back every integer that the decimal printing writes,
   * also when the text goes on with a character that ends the number.
   */
  lemma ParseIntOfIntToString(i: int, rest: string)
    requires EndsNumber(rest)
    ensures ParseInt(IntToString(i) + rest) == Some(i)
  {
    if i < 0 {
      var n: nat := -i;
      assert IntToString(i) + rest == "-" + (NatToString(n) + rest);
      ParseIntOfNegative(n, rest);
      assert -(n as int) == i;
    } else {
      ParseIntOfNatToString(i, rest);
    }
  }

  lemma ParseIntOfNatToString(n: nat, rest: string)
    requires EndsNumber(rest)
    ensures ParseInt(NatToString(n) + rest) == Some(n)
  {
    var digits := NatToString(n);
    MagnitudeOfDigits(digits, rest);
    DecValueOfNatToString(n);
    ParseIntUnsigned(digits + rest, n);
  }

  lemma ParseIntOfNegative(n: nat, rest: string)
    requires n > 0 && EndsNumber(rest)
    ensures ParseInt("-" + (NatToString(n) + rest)) == Some(-(n as int))
  {
    var digits := NatToString(n);
    var s := "-" + (digits + rest);
    MagnitudeOfDigits(digits, rest);
    DecValueOfNatToString(n);
    assert s[1..] == digits + rest;
    assert Magnitude(s[1..]) == Some(n);
    ParseIntNegative(s, n);
  }
}
