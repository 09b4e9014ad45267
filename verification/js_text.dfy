/**
 * The two JavaScript conversions between numbers and text that the sidebar
 * relies on: the global `parseInt` called without a radix (ECMAScript
 * section 19.2.5), which turns a stored width such as "312px" back into 312,
 * and the template `${n}px`, which turns an integer width into text.
 * A `NaN` result of `parseInt` is `None`.
 */
module JsText {
  import opened Wrappers

  /** StrWhiteSpaceChar: the white space and line terminator code points `parseInt` skips. */
  predicate IsStrWhiteSpace(c: char) {
    || c == '\t' || c == '\n' || c == '\U{000B}' || c == '\U{000C}' || c == '\r'
    || c == ' ' || c == '\U{00A0}' || c == '\U{1680}'
    || ('\U{2000}' <= c <= '\U{200A}')
    || c == '\U{2028}' || c == '\U{2029}' || c == '\U{202F}' || c == '\U{205F}'
    || c == '\U{3000}' || c == '\U{FEFF}'
  }

  predicate IsDecimalDigit(c: char) {
    '0' <= c <= '9'
  }

  predicate IsHexDigit(c: char) {
    IsDecimalDigit(c) || 'a' <= c <= 'f' || 'A' <= c <= 'F'
  }

  function DigitValue(c: char): (d: nat)
    requires IsHexDigit(c)
    ensures d < 16
    ensures d < 10 <==> IsDecimalDigit(c)
  {
    if IsDecimalDigit(c) then c as int - '0' as int
    else if 'a' <= c <= 'f' then c as int - 'a' as int + 10
    else c as int - 'A' as int + 10
  }

  /** A digit of the given radix; `parseInt` only ever uses 10 or 16. */
  predicate IsDigitOf(c: char, radix: nat) {
    IsHexDigit(c) && DigitValue(c) < radix
  }

  /** The text left after `parseInt` strips leading white space. */
  function TrimStart(s: string): (r: string)
    ensures |r| <= |s| && r == s[|s| - |r|..]
    ensures forall i :: 0 <= i < |s| - |r| ==> IsStrWhiteSpace(s[i])
    ensures |r| > 0 ==> !IsStrWhiteSpace(r[0])
  {
    if |s| > 0 && IsStrWhiteSpace(s[0]) then TrimStart(s[1..]) else s
  }

  /** The length of the longest prefix of `s` made of digits of `radix`. */
  function DigitRun(s: string, radix: nat): (k: nat)
    ensures k <= |s|
    ensures forall i :: 0 <= i < k ==> IsDigitOf(s[i], radix)
    ensures k < |s| ==> !IsDigitOf(s[k], radix)
  {
    if |s| == 0 || !IsDigitOf(s[0], radix) then 0 else 1 + DigitRun(s[1..], radix)
  }

  /**
   * `v` moved one digit to the left in `radix`. It is a separate function only
   * so that the solver proves the product non-negative once, here, instead
   * of inside every unfolding of `ValueOf`.
   */
  function Shift(v: nat, radix: nat): nat {
    v * radix
  }

  /** The number a string of digits denotes in `radix`, most significant digit first. */
  function ValueOf(ds: string, radix: nat): nat
    requires forall i :: 0 <= i < |ds| ==> IsDigitOf(ds[i], radix)
  {
    if |ds| == 0 then 0
    else
      var init := ds[..|ds| - 1];
      var last := ds[|ds| - 1];
      assert IsDigitOf(last, radix);
      Shift(ValueOf(init, radix), radix) + DigitValue(last)
  }

  /**
   * The magnitude `parseInt` reads once white space and sign are gone: radix 16
   * after a "0x"/"0X" prefix, otherwise radix 10, then the longest run of
   * digits; no digits at all gives `NaN`.
   */
  function ParseMagnitude(u: string): Option<nat> {
    var hex := |u| >= 2 && u[0] == '0' && (u[1] == 'x' || u[1] == 'X');
    var radix := if hex then 16 else 10;
    var body := if hex then u[2..] else u;
    var k := DigitRun(body, radix);
    if k == 0 then None else Some(ValueOf(body[..k], radix))
  }

  /**
   * `parseInt(s)`: skip white space, take an optional sign, then read the
   * magnitude. Whatever follows the digits ("px") is ignored.
   */
  function ParseInt(s: string): (r: Option<int>)
    ensures |s| > 0 && !IsStrWhiteSpace(s[0]) && !IsDecimalDigit(s[0]) && s[0] != '-' && s[0] != '+' ==> r == None
  {
    var t := TrimStart(s);
    var negative := |t| > 0 && t[0] == '-';
    var unsigned := if |t| > 0 && (t[0] == '-' || t[0] == '+') then t[1..] else t;
    match ParseMagnitude(unsigned)
    case None => None
    case Some(m) => Some(if negative then -(m as int) else m)
  }

  function DecimalDigit(d: nat): (c: char)
    requires d < 10
    ensures IsDigitOf(c, 10) && DigitValue(c) == d
  {
    ('0' as int + d) as char
  }

  /** The decimal numeral of `n`, without leading zeros. */
  function NatToDecimal(n: nat): (r: string)
    ensures |r| > 0
    ensures forall i :: 0 <= i < |r| ==> IsDigitOf(r[i], 10)
    ensures r[0] == '0' ==> n == 0
    ensures ValueOf(r, 10) == n
  {
    if n < 10 then [DecimalDigit(n)]
    else
      var prefix := NatToDecimal(n / 10);
      var r := prefix + [DecimalDigit(n % 10)];
      assert r[..|r| - 1] == prefix;
      r
  }

  /** `String(n)` for an integer-valued number. */
  function IntToDecimal(n: int): (r: string)
    ensures |r| > 0 && (r[0] == '-' <==> n < 0)
  {
    if n < 0 then "-" + NatToDecimal(-n) else NatToDecimal(n)
  }

  /** The template `${n}px` the source uses to write a width. */
  function FormatPx(n: int): (r: string)
    ensures |r| > 2 && r[|r| - 2..] == "px"
    ensures r[0] == '-' <==> n < 0
  {
    IntToDecimal(n) + "px"
  }

  /** What may follow a numeral without changing what `parseInt` reads: nothing, or a non-digit other than 'x'. */
  predicate EndsNumeral(rest: string) {
    |rest| == 0 || (!IsDigitOf(rest[0], 10) && rest[0] != 'x' && rest[0] != 'X')
  }

  /** The digit run of a numeral followed by such text is exactly the numeral. */
  lemma DigitRunOfNumeral(d: string, rest: string)
    requires forall i :: 0 <= i < |d| ==> IsDigitOf(d[i], 10)
    requires EndsNumeral(rest)
    ensures DigitRun(d + rest, 10) == |d|
  {
    var s := d + rest;
    if |rest| > 0 {
      assert s[|d|] == rest[0];
    }
  }

  /** A numeral without leading zeros, followed by such text, has its own value as magnitude. */
  lemma ParseMagnitudeOfNumeral(n: nat, rest: string)
    requires EndsNumeral(rest)
    ensures ParseMagnitude(NatToDecimal(n) + rest) == Some(n)
  {
    var d := NatToDecimal(n);
    var u := d + rest;
    assert !(|u| >= 2 && u[0] == '0' && (u[1] == 'x' || u[1] == 'X')) by {
      if |u| >= 2 && u[0] == '0' {
        assert n == 0 && d == "0";
        assert u[1] == rest[0];
      }
    }
    DigitRunOfNumeral(d, rest);
    assert u[..|d|] == d;
  }

  /** `parseInt` on text that starts with a minus sign or a digit reads it without trimming. */
  lemma ParseIntOfSigned(u: string, negative: bool, m: nat)
    requires |u| > 0 && IsDecimalDigit(u[0])
    requires ParseMagnitude(u) == Some(m)
    ensures ParseInt(if negative then "-" + u else u) == Some(if negative then -(m as int) else m)
  {
    var s := if negative then "-" + u else u;
    assert !IsStrWhiteSpace(s[0]);
    var t := TrimStart(s);
    assert t == s;
    assert (|t| > 0 && t[0] == '-') == negative;
    assert (if |t| > 0 && (t[0] == '-' || t[0] == '+') then t[1..] else t) == u;
  }

  /** The decimal text of `n` followed by `rest` is the sign, if any, then the numeral and `rest`. */
  lemma DecimalSplit(n: int, rest: string)
    ensures IntToDecimal(n) + rest ==
      if n < 0 then "-" + (NatToDecimal(-n) + rest) else NatToDecimal(n) + rest
  {
    if n < 0 {
      assert ("-" + NatToDecimal(-n)) + rest == "-" + (NatToDecimal(-n) + rest);
    }
  }

  /** `parseInt` reads back the decimal text of any integer, whatever non-digit follows it. */
  lemma ParseDecimal(n: int, rest: string)
    requires EndsNumeral(rest)
    ensures ParseInt(IntToDecimal(n) + rest) == Some(n)
  {
    var m: nat := if n < 0 then -n else n;
    var unsigned := NatToDecimal(m) + rest;
    DecimalSplit(n, rest);
    ParseMagnitudeOfNumeral(m, rest);
    ParseIntOfSigned(unsigned, n < 0, m);
  }

  /** Reading a written width back with `parseInt` gives the integer that was written. */
  lemma ParseFormatPx(n: int)
    ensures ParseInt(FormatPx(n)) == Some(n)
  {
    ParseDecimal(n, "px");
  }

  /** Distinct widths are written as distinct texts. */
  lemma FormatPxInjective(m: int, n: int)
    ensures FormatPx(m) == FormatPx(n) <==> m == n
  {
    ParseFormatPx(m);
    ParseFormatPx(n);
  }
}
