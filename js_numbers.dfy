/**
 * The two JavaScript number conversions the in-memory queue relies on:
 * `Number.prototype.toString()` on a non-negative integer id, and the global
 * `parseInt(string)` without a radix argument (ECMAScript, section 19.2.5).
 */
module JsNumbers {

  /** The integral Numbers `parseInt` can produce, or `NaN`. */
  datatype JsInt = Int(value: int) | NaN

  /** ECMAScript StrWhiteSpaceChar: WhiteSpace or LineTerminator (Zs included). */
  predicate IsStrWhiteSpace(c: char) {
    c == '\t' || c == '\n' || c == '\U{B}' || c == '\U{C}' || c == '\r' || c == ' '
    || c == '\U{A0}' || c == '\U{1680}' || ('\U{2000}' <= c <= '\U{200A}')
    || c == '\U{2028}' || c == '\U{2029}' || c == '\U{202F}' || c == '\U{205F}'
    || c == '\U{3000}' || c == '\U{FEFF}'
  }

  /** Value of a digit character in radices up to 36; 36 for a non-digit. */
  function DigitValue(c: char): (d: nat)
    ensures d <= 36
    ensures d < 10 <==> '0' <= c <= '9'
  {
    if '0' <= c <= '9' then c as int - '0' as int
    else if 'a' <= c <= 'z' then c as int - 'a' as int + 10
    else if 'A' <= c <= 'Z' then c as int - 'A' as int + 10
    else 36
  }

  predicate IsDigit(c: char, radix: nat) {
    DigitValue(c) < radix
  }

  /** Length of the longest prefix of `s` made of radix-`radix` digits. */
  function DigitPrefix(s: string, radix: nat): (n: nat)
    ensures n <= |s|
    ensures forall i :: 0 <= i < n ==> IsDigit(s[i], radix)
    ensures n < |s| ==> !IsDigit(s[n], radix)
  {
    if s == [] || !IsDigit(s[0], radix) then 0 else 1 + DigitPrefix(s[1..], radix)
  }

  /** The number a digit string denotes, most significant digit first. */
  function DigitsValue(s: string, radix: nat): nat {
    if s == [] then 0 else DigitsValue(s[..|s| - 1], radix) * radix + DigitValue(s[|s| - 1])
  }

  /** `s` without its leading white space. */
  function TrimStart(s: string): (t: string)
    ensures |t| <= |s| && t == s[|s| - |t|..]
    ensures t == [] || !IsStrWhiteSpace(t[0])
    ensures forall i :: 0 <= i < |s| - |t| ==> IsStrWhiteSpace(s[i])
  {
    if s != [] && IsStrWhiteSpace(s[0]) then TrimStart(s[1..]) else s
  }

  /**
   * `parseInt(s)`: skip leading white space, then read a signed number.
   * (-0 and +0 are the same property key, so both are `Int(0)`.) A blank
   * string has no number in it, and only a '-' after the white space gives
   * a negative result.
   */
  function ParseInt(s: string): (r: JsInt)
    ensures (forall i :: 0 <= i < |s| ==> IsStrWhiteSpace(s[i])) ==> r.NaN?
    ensures r.Int? && r.value < 0 ==> TrimStart(s) != [] && TrimStart(s)[0] == '-'
  {
    var t := TrimStart(s);
    assert t != [] ==> !IsStrWhiteSpace(s[|s| - |t|]);
    ParseSigned(t)
  }

  /** An optional '-' or '+', then an unsigned number. */
  function ParseSigned(t: string): (r: JsInt)
    ensures t == [] ==> r.NaN?
    ensures r.Int? && r.value < 0 ==> t[0] == '-'
  {
    if t != [] && t[0] == '-' then Negate(ParseUnsigned(t[1..]))
    else if t != [] && t[0] == '+' then ParseUnsigned(t[1..])
    else ParseUnsigned(t)
  }

  /** Unary minus on an integral Number; NaN stays NaN. */
  function Negate(r: JsInt): (n: JsInt)
    ensures n.NaN? <==> r.NaN?
    ensures r.Int? ==> n.value + r.value == 0
  {
    if r.Int? then Int(-r.value) else NaN
  }

  /** Radix 16 after a `0x`/`0X` prefix, radix 10 otherwise. */
  function ParseUnsigned(u: string): (r: JsInt)
    ensures u == [] ==> r.NaN?
    ensures r.Int? ==> r.value >= 0
  {
    if |u| >= 2 && u[0] == '0' && (u[1] == 'x' || u[1] == 'X') then ParseDigits(u[2..], 16)
    else ParseDigits(u, 10)
  }

  /** The longest run of digits at the start of `d`; NaN when there is none. */
  function ParseDigits(d: string, radix: nat): (r: JsInt)
    ensures r.NaN? <==> d == [] || !IsDigit(d[0], radix)
    ensures r.Int? ==> r.value >= 0
  {
    var n := DigitPrefix(d, radix);
    if n == 0 then NaN else Int(DigitsValue(d[..n], radix))
  }

  /** Leading white space is skipped the same way whatever precedes it. */
  lemma {:induction false} TrimStartSkips(w: string, s: string)
    requires forall i :: 0 <= i < |w| ==> IsStrWhiteSpace(w[i])
    ensures TrimStart(w + s) == TrimStart(s)
  {
    if w != [] {
      assert (w + s)[0] == w[0];
      assert (w + s)[1..] == w[1..] + s;
      TrimStartSkips(w[1..], s);
    } else {
      assert w + s == s;
    }
  }

  /** `parseInt(w + s) === parseInt(s)` for white space `w`. */
  lemma ParseIntSkipsWhiteSpace(w: string, s: string)
    requires forall i :: 0 <= i < |w| ==> IsStrWhiteSpace(w[i])
    ensures ParseInt(w + s) == ParseInt(s)
  {
    TrimStartSkips(w, s);
  }

  /**
   * A sign directly before the number: '-' negates what the rest parses to,
   * '+' leaves it as it is.
   */
  lemma ParseIntSign(u: string)
    requires u == [] || (!IsStrWhiteSpace(u[0]) && u[0] != '-' && u[0] != '+')
    ensures ParseInt("-" + u) == Negate(ParseInt(u))
    ensures ParseInt("+" + u) == ParseInt(u)
  {
    UnsignedUntrimmed(u);
    SignedUntrimmed('-', u);
    SignedUntrimmed('+', u);
  }

  /** A string that starts with neither white space nor a sign is read unsigned. */
  lemma UnsignedUntrimmed(u: string)
    requires u == [] || (!IsStrWhiteSpace(u[0]) && u[0] != '-' && u[0] != '+')
    ensures ParseInt(u) == ParseUnsigned(u)
  {
    assert TrimStart(u) == u;
  }

  /** A sign at the very start is read as the sign, before the unsigned rest. */
  lemma SignedUntrimmed(sign: char, u: string)
    requires sign == '-' || sign == '+'
    ensures ParseInt([sign] + u) == if sign == '-' then Negate(ParseUnsigned(u)) else ParseUnsigned(u)
  {
    var t := [sign] + u;
    assert t[0] == sign && !IsStrWhiteSpace(t[0]);
    assert TrimStart(t) == t;
    assert t[1..] == u;
  }

  /** After `0x` or `0X` the digits are read in radix 16. */
  lemma ParseIntHex(x: char, h: string)
    requires x == 'x' || x == 'X'
    ensures ParseInt(['0', x] + h) == ParseDigits(h, 16)
  {
    var u := ['0', x] + h;
    assert TrimStart(u) == u;
    assert u[2..] == h;
  }

  /** On a string of digits, `DigitPrefix` stops exactly where they end. */
  lemma {:induction false} DigitPrefixStops(d: string, rest: string, radix: nat)
    requires forall i :: 0 <= i < |d| ==> IsDigit(d[i], radix)
    requires rest == [] || !IsDigit(rest[0], radix)
    ensures DigitPrefix(d + rest, radix) == |d|
  {
    if d != [] {
      assert (d + rest)[0] == d[0];
      assert (d + rest)[1..] == d[1..] + rest;
      DigitPrefixStops(d[1..], rest, radix);
    } else {
      assert d + rest == rest;
    }
  }

  /**
   * `parseInt` reads a run of decimal digits up to the first character that is
   * not one (`parseInt('12abc') === 12`), unless the run is a single '0'
   * followed by 'x' or 'X', which starts a hexadecimal number.
   */
  lemma ParseIntStopsAtNonDigit(d: string, rest: string)
    requires d != [] && forall i :: 0 <= i < |d| ==> '0' <= d[i] <= '9'
    requires rest == [] || !('0' <= rest[0] <= '9')
    requires |d| >= 2 || d[0] != '0' || rest == [] || (rest[0] != 'x' && rest[0] != 'X')
    ensures ParseInt(d + rest) == Int(DigitsValue(d, 10))
  {
    var u := d + rest;
    assert u[0] == d[0] && !IsStrWhiteSpace(u[0]);
    assert TrimStart(u) == u;
    assert ParseSigned(u) == ParseUnsigned(u);
    assert |d| >= 2 ==> u[1] == d[1] && DigitValue(u[1]) < 10;
    assert |d| == 1 && rest != [] ==> u[1] == rest[0];
    assert ParseUnsigned(u) == ParseDigits(u, 10);
    DigitPrefixStops(d, rest, 10);
    assert u[..|d|] == d;
  }

  function DecimalDigit(d: nat): (c: char)
    requires d < 10
    ensures '0' <= c <= '9' && DigitValue(c) == d
  {
    ('0' as int + d) as char
  }

  /** `n.toString()` for a non-negative integer: its decimal digits, no leading zero. */
  function ToDecimal(n: nat): (s: string)
    ensures 1 <= |s|
    ensures forall i :: 0 <= i < |s| ==> '0' <= s[i] <= '9'
    ensures s[0] == '0' ==> n == 0
  {
    if n < 10 then [DecimalDigit(n)] else ToDecimal(n / 10) + [DecimalDigit(n % 10)]
  }

  /** The digits `ToDecimal` writes denote the number written. */
  lemma {:induction false} DecimalValue(n: nat)
    ensures DigitsValue(ToDecimal(n), 10) == n
  {
    var s := ToDecimal(n);
    if n >= 10 {
      DecimalValue(n / 10);
      assert s[..|s| - 1] == ToDecimal(n / 10);
    }
  }

  /** A non-empty run of decimal digits parses to the number it denotes. */
  lemma ParseDecimalDigits(s: string)
    requires s != [] && forall i :: 0 <= i < |s| ==> '0' <= s[i] <= '9'
    ensures ParseInt(s) == Int(DigitsValue(s, 10))
  {
    assert !IsStrWhiteSpace(s[0]);
    assert TrimStart(s) == s;
    assert ParseSigned(s) == ParseUnsigned(s);
    assert |s| >= 2 ==> DigitValue(s[1]) < 10;
    assert ParseUnsigned(s) == ParseDigits(s, 10);
    assert DigitPrefix(s, 10) == |s|;
    assert s[..|s|] == s;
  }

  /** `parseInt(String(n)) === n` for every non-negative integer `n`. */
  lemma DecimalRoundTrip(n: nat)
    ensures ParseInt(ToDecimal(n)) == Int(n)
  {
    ParseDecimalDigits(ToDecimal(n));
    DecimalValue(n);
  }

  lemma DecimalRoundTripAll()
    ensures forall n: nat :: ParseInt(ToDecimal(n)) == Int(n)
  {
    forall n: nat ensures ParseInt(ToDecimal(n)) == Int(n) {
      DecimalRoundTrip(n);
    }
  }

  /** Distinct ids get distinct ack strings. */
  lemma DecimalInjective(m: nat, n: nat)
    requires ToDecimal(m) == ToDecimal(n)
    ensures m == n
  {
    DecimalRoundTrip(m);
    DecimalRoundTrip(n);
  }
}
