/** The two pieces of JavaScript number handling the app relies on:
    `parseInt(text)` with no radix (the keg-total input) and the decimal
    rendering of a small integer inside a template string (the chart's
    hour labels). Numbers are unbounded integers or NaN; the rounding of
    very large values to the nearest double is not modelled. */
module JsNumber {

  /** A JavaScript number as far as the app uses it. */
  datatype Num = Int(value: int) | NaN

  /** `a - b` on numbers: NaN is absorbing. */
  function Sub(a: Num, b: Num): (r: Num)
    ensures r.NaN? <==> a.NaN? || b.NaN?
    ensures r.Int? ==> r.value == a.value - b.value
  {
    if a.Int? && b.Int? then Int(a.value - b.value) else NaN
  }

  /** The characters `parseInt` strips from the front of its argument:
      the WhiteSpace and LineTerminator code points of ECMAScript
      (tab, vertical tab, form feed, the Zs space separators, the byte
      order mark, line feed, carriage return and the line and paragraph
      separators). */
  predicate IsStrWhiteSpace(c: char)
  {
    var n := c as int;
    n == 0x09 || n == 0x0B || n == 0x0C || n == 0x20 || n == 0xA0 || n == 0xFEFF
    || n == 0x1680 || (0x2000 <= n <= 0x200A) || n == 0x202F || n == 0x205F || n == 0x3000
    || n == 0x0A || n == 0x0D || n == 0x2028 || n == 0x2029
  }

  /** Radix of the digits `parseInt` reads: 10, or 16 after a `0x` prefix. */
  type Radix = r: nat | r == 10 || r == 16 witness 10

  /** The value of `c` as a digit in any radix up to 16, or 16 when it is none. */
  function DigitValue(c: char): (d: nat)
    ensures d <= 16
  {
    if '0' <= c <= '9' then (c as int) - ('0' as int)
    else if 'a' <= c <= 'f' then (c as int) - ('a' as int) + 10
    else if 'A' <= c <= 'F' then (c as int) - ('A' as int) + 10
    else 16
  }

  predicate IsDigit(c: char, radix: Radix)
  {
    DigitValue(c) < radix
  }

  /** `text` without its leading white space. */
  function TrimStart(text: string): (s: string)
    ensures |s| <= |text|
    ensures s == [] || !IsStrWhiteSpace(s[0])
  {
    if text != [] && IsStrWhiteSpace(text[0]) then TrimStart(text[1..]) else text
  }

  /** The number of leading characters of `s` that are digits in `radix`. */
  function DigitRun(s: string, radix: Radix): (n: nat)
    ensures n <= |s|
    ensures forall i :: 0 <= i < n ==> IsDigit(s[i], radix)
    ensures n < |s| ==> !IsDigit(s[n], radix)
  {
    if s != [] && IsDigit(s[0], radix) then 1 + DigitRun(s[1..], radix) else 0
  }

  /** The value of a digit string read most significant digit first. */
  function DigitsValue(s: string, radix: Radix): nat
    requires forall i :: 0 <= i < |s| ==> IsDigit(s[i], radix)
  {
    if s == [] then 0
    else DigitsValue(s[..|s| - 1], radix) * radix + DigitValue(s[|s| - 1])
  }

  /** The unsigned part of `parseInt`: switch to radix 16 after `0x` or
      `0X`, then read the longest run of digits and ignore the rest; no
      digit gives NaN. */
  function ParseMagnitude(unsigned: string): (r: Num)
    ensures r.Int? ==> r.value >= 0
  {
    var hex := |unsigned| >= 2 && unsigned[0] == '0' && (unsigned[1] == 'x' || unsigned[1] == 'X');
    var radix: Radix := if hex then 16 else 10;
    var digits := if hex then unsigned[2..] else unsigned;
    var end := DigitRun(digits, radix);
    if end == 0 then NaN else Int(DigitsValue(digits[..end], radix))
  }

  /** Unary minus on numbers. */
  function Negate(a: Num): (r: Num)
    ensures r.NaN? <==> a.NaN?
    ensures r.Int? ==> r.value == -a.value
  {
    if a.Int? then Int(-a.value) else NaN
  }

  /** `parseInt(text)` with no radix argument: skip leading white space,
      take one optional sign, then read the magnitude. Text that is blank
      or starts with anything but a sign or a digit gives NaN; text that
      starts with a decimal number gives that number. */
  function ParseInt(text: string): (r: Num)
    ensures TrimStart(text) == [] ==> r.NaN?
    ensures var s := TrimStart(text);
      s != [] && !IsDigit(s[0], 10) && s[0] != '-' && s[0] != '+' ==> r.NaN?
    ensures var s := TrimStart(text);
      s != [] && IsDigit(s[0], 10) && !(s[0] == '0' && |s| >= 2 && (s[1] == 'x' || s[1] == 'X'))
      ==> r.Int? && r.value >= 0
  {
    var s := TrimStart(text);
    if s != [] && s[0] == '-' then Negate(ParseMagnitude(s[1..]))
    else if s != [] && s[0] == '+' then ParseMagnitude(s[1..])
    else ParseMagnitude(s)
  }

  /** The decimal digit character for `d`. */
  function DigitChar(d: nat): (c: char)
    requires d < 10
    ensures IsDigit(c, 10) && DigitValue(c) == d
  {
    (('0' as int) + d) as char
  }

  /** The decimal text of a natural number, as `${n}` renders it. */
  function NatToString(n: nat): (s: string)
    ensures s != []
    ensures forall i :: 0 <= i < |s| ==> IsDigit(s[i], 10)
    ensures s[0] == '0' ==> n == 0
  {
    if n < 10 then [DigitChar(n)] else NatToString(n / 10) + [DigitChar(n % 10)]
  }

  /** Reading back a rendered natural number gives the number. */
  lemma {:induction false} NatToStringValue(n: nat)
    ensures DigitsValue(NatToString(n), 10) == n
  {
    if n >= 10 {
      var s := NatToString(n);
      assert s[..|s| - 1] == NatToString(n / 10);
      NatToStringValue(n / 10);
    }
  }

  /** A digit run over a prefix of digits stops exactly where the first
      non-digit begins. */
  lemma {:induction false} DigitRunOfDigits(digits: string, rest: string, radix: Radix)
    requires forall i :: 0 <= i < |digits| ==> IsDigit(digits[i], radix)
    requires rest == [] || !IsDigit(rest[0], radix)
    ensures DigitRun(digits + rest, radix) == |digits|
  {
    if digits != [] {
      assert (digits + rest)[1..] == digits[1..] + rest;
      DigitRunOfDigits(digits[1..], rest, radix);
    }
  }

  /** Round trip: `parseInt` reads back a number rendered in decimal, with
      or without a leading minus, whatever non-digit text follows it
      (except an `x` right after a lone `0`, which would switch to
      hexadecimal). */
  lemma ParseIntOfNatToString(n: nat, rest: string)
    requires rest == [] || (!IsDigit(rest[0], 10) && rest[0] != 'x' && rest[0] != 'X')
    ensures ParseInt(NatToString(n) + rest) == Int(n)
    ensures ParseInt("-" + (NatToString(n) + rest)) == Int(-(n as int))
  {
    var unsigned := NatToString(n) + rest;
    ParseMagnitudeOfNatToString(n, rest);
    assert IsDigit(unsigned[0], 10) by { assert unsigned[0] == NatToString(n)[0]; }
    ParseIntOfDigitFirst(unsigned);
  }

  /** Text that starts with a digit has no white space or sign to skip. */
  lemma ParseIntOfDigitFirst(u: string)
    requires u != [] && IsDigit(u[0], 10)
    ensures ParseInt(u) == ParseMagnitude(u)
    ensures ParseInt("-" + u) == Negate(ParseMagnitude(u))
  {
    assert TrimStart(u) == u;
    assert TrimStart("-" + u) == "-" + u;
    assert ("-" + u)[1..] == u;
  }

  /** The unsigned half of the round trip. */
  lemma ParseMagnitudeOfNatToString(n: nat, rest: string)
    requires rest == [] || (!IsDigit(rest[0], 10) && rest[0] != 'x' && rest[0] != 'X')
    ensures ParseMagnitude(NatToString(n) + rest) == Int(n)
  {
    var digits := NatToString(n);
    var unsigned := digits + rest;
    assert !(|unsigned| >= 2 && unsigned[0] == '0' && (unsigned[1] == 'x' || unsigned[1] == 'X')) by {
      if |unsigned| >= 2 && unsigned[0] == '0' {
        assert n == 0 && |digits| == 1;
        assert unsigned[1] == rest[0];
      }
    }
    DigitRunOfDigits(digits, rest, 10);
    assert unsigned[..|digits|] == digits;
    NatToStringValue(n);
  }
}
