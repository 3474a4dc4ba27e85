/**
 * The pieces of Python's `str` the core relies on: `isspace`, `strip`,
 * and `int()` applied to a string, with the decimal rendering that
 * `int()` reads back.
 */
module PyStr {
  import opened Common

  /** Python's `str.isspace()` for one character. */
  predicate IsSpace(c: char) {
    || c == ' ' || '\t' <= c <= '\r' || '\U{1c}' <= c <= '\U{1f}'
    || c == '\U{85}' || c == '\U{a0}' || c == '\U{1680}' || '\U{2000}' <= c <= '\U{200a}'
    || c == '\U{2028}' || c == '\U{2029}' || c == '\U{202f}' || c == '\U{205f}' || c == '\U{3000}'
  }

  /** `str.lstrip()`: the suffix left after the leading whitespace. */
  function TrimLeft(s: string): (r: string)
    ensures |r| <= |s| && r == s[|s| - |r|..]
    ensures forall i :: 0 <= i < |s| - |r| ==> IsSpace(s[i])
    ensures r == [] || !IsSpace(r[0])
  {
    if s != [] && IsSpace(s[0]) then TrimLeft(s[1..]) else s
  }

  /** `str.rstrip()`: the prefix left before the trailing whitespace. */
  function TrimRight(s: string): (r: string)
    ensures |r| <= |s| && r == s[..|r|]
    ensures forall i :: |r| <= i < |s| ==> IsSpace(s[i])
    ensures r == [] || !IsSpace(r[|r| - 1])
  {
    if s != [] && IsSpace(s[|s| - 1]) then TrimRight(s[..|s| - 1]) else s
  }

  /** `str.strip()`. */
  function Strip(s: string): string {
    TrimRight(TrimLeft(s))
  }

  /** An ASCII decimal digit. */
  predicate IsDigit(c: char) {
    '0' <= c <= '9'
  }

  /** The value of a digit character. */
  function DigitValue(c: char): (d: nat)
    requires IsDigit(c)
    ensures d < 10
  {
    c as int - '0' as int
  }

  /** The digit character of a value below 10. */
  function DigitChar(d: nat): (c: char)
    requires d < 10
    ensures IsDigit(c) && DigitValue(c) == d
  {
    ('0' as int + d) as char
  }

  /**
   * The body of a decimal literal `int()` accepts: digits, with single
   * underscores allowed between two digits.
   */
  predicate WellFormedDigits(s: string) {
    && |s| > 0 && IsDigit(s[0]) && IsDigit(s[|s| - 1])
    && (forall i :: 0 <= i < |s| ==> IsDigit(s[i]) || s[i] == '_')
    && (forall i :: 0 <= i < |s| - 1 ==> DigitNear(s, i))
  }

  /** Of the characters at `i` and `i + 1`, one is a digit: no two underscores in a row. */
  predicate DigitNear(s: string, i: nat)
    requires i < |s| - 1
  {
    IsDigit(s[i]) || IsDigit(s[i + 1])
  }

  /** The number the digits spell, underscores skipped. */
  function DigitsValue(s: string): nat
    requires forall i :: 0 <= i < |s| ==> IsDigit(s[i]) || s[i] == '_'
  {
    if s == [] then 0
    else if s[|s| - 1] == '_' then DigitsValue(s[..|s| - 1])
    else DigitsValue(s[..|s| - 1]) * 10 + DigitValue(s[|s| - 1])
  }

  /**
   * `int(s)` for a string: surrounding whitespace, an optional sign, then
   * a well-formed digit string; `None` where Python raises `ValueError`.
   */
  function ParseInt(s: string): Option<int> {
    ParseSigned(Strip(s))
  }

  /** `int()` on an already stripped string: an optional sign, then the digits. */
  function ParseSigned(t: string): (r: Option<int>)
    ensures t == [] ==> r.None?
    ensures r.Some? && t[0] != '-' ==> r.value >= 0
  {
    if t == [] then None
    else if t[0] == '-' then
      match ParseDigits(t[1..])
      case Some(v) => Some(-(v as int))
      case None => None
    else
      ParseDigits(if t[0] == '+' then t[1..] else t)
  }

  /** An unsigned decimal literal, or `None` when it is malformed. */
  function ParseDigits(body: string): (r: Option<nat>)
    ensures r.Some? <==> WellFormedDigits(body)
  {
    if WellFormedDigits(body) then Some(DigitsValue(body)) else None
  }

  /** `str(n)` for a natural number. */
  function Decimal(n: nat): (s: string)
    ensures |s| > 0 && forall i :: 0 <= i < |s| ==> IsDigit(s[i])
  {
    if n < 10 then [DigitChar(n)] else Decimal(n / 10) + [DigitChar(n % 10)]
  }

  /** `str(n)` for any integer. */
  function Show(n: int): string {
    if n < 0 then "-" + Decimal(-n) else Decimal(n)
  }

  /** The digits of `str(n)` spell `n` again. */
  lemma {:induction false} DecimalValue(n: nat)
    ensures DigitsValue(Decimal(n)) == n
  {
    var s := Decimal(n);
    if n >= 10 {
      DecimalValue(n / 10);
      assert s[..|s| - 1] == Decimal(n / 10);
    } else {
      assert s[..|s| - 1] == [];
    }
  }

  /** A string with no whitespace at either end is its own `strip()`. */
  lemma StripUntrimmed(s: string)
    requires s != [] && !IsSpace(s[0]) && !IsSpace(s[|s| - 1])
    ensures Strip(s) == s
  {
    assert TrimLeft(s) == s;
  }

  /** `str(n)` is a well-formed literal spelling `n`. */
  lemma DecimalDigits(n: nat)
    ensures ParseDigits(Decimal(n)) == Some(n)
  {
    DecimalValue(n);
  }

  /** `int()` reads a plain digit string back as its value. */
  lemma ParseDecimal(n: nat)
    ensures ParseInt(Decimal(n)) == Some(n)
  {
    var d := Decimal(n);
    StripUntrimmed(d);
    DecimalDigits(n);
  }

  /** A minus sign before a digit string survives `strip()` and negates what the digits read as. */
  lemma MinusLiteral(d: string)
    requires d != [] && IsDigit(d[|d| - 1])
    ensures Strip("-" + d) == "-" + d
    ensures ParseSigned("-" + d).Some? == ParseDigits(d).Some?
    ensures ParseDigits(d).Some? ==> ParseSigned("-" + d).value == -(ParseDigits(d).value as int)
  {
    var s := "-" + d;
    assert s[|s| - 1] == d[|d| - 1];
    StripUntrimmed(s);
    assert s[1..] == d;
  }

  /** `int()` reads a minus sign and a digit string back as the negative number. */
  lemma ParseNegative(n: int)
    requires n < 0
    ensures ParseInt("-" + Decimal(-n)) == Some(n)
  {
    MinusLiteral(Decimal(-n));
    DecimalDigits(-n);
  }

  /** `int(str(n)) == n`: the rendering and the parser are inverse. */
  lemma ParseShow(n: int)
    ensures ParseInt(Show(n)) == Some(n)
  {
    if n < 0 {
      ParseNegative(n);
    } else {
      ParseDecimal(n);
      assert ParseInt(Decimal(n)) == Some(n);
    }
  }
}
