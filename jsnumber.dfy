/** The JavaScript conversions from text to number that the routes use:
    `parseFloat`, `parseInt` (no radix argument) and `Number(text)`, which
    `isNaN` and the relational operators apply to a string. Numbers are
    exact reals; `None` stands for `NaN`. */
module JsNumber {
  import opened Common
  import opened JsText

  predicate IsDigit(c: char) {
    '0' <= c <= '9'
  }

  /** The value of `c` as a digit in base `radix` (2, 8, 10 or 16), if it is one. */
  function DigitIn(c: char, radix: nat): (d: Option<nat>)
    ensures d.Some? ==> d.value < radix
  {
    var v :=
      if '0' <= c <= '9' then c as int - '0' as int
      else if 'a' <= c <= 'f' then c as int - 'a' as int + 10
      else if 'A' <= c <= 'F' then c as int - 'A' as int + 10
      else 99;
    if v < radix && radix <= 16 then Some(v) else None
  }

  /** The length of the run of base-`radix` digits at the start of `s`. */
  function RunIn(s: Text, radix: nat): (n: nat)
    ensures n <= |s|
    ensures forall k :: 0 <= k < n ==> DigitIn(s[k], radix).Some?
    ensures n == |s| || DigitIn(s[n], radix).None?
  {
    if s != [] && DigitIn(s[0], radix).Some? then 1 + RunIn(s[1..], radix) else 0
  }

  /** The value of `c` as a base-`radix` digit, 0 when it is not one. */
  function DigitValue(c: char, radix: nat): (d: nat)
    ensures DigitIn(c, radix).Some? ==> d == DigitIn(c, radix).value
  {
    match DigitIn(c, radix)
    case Some(v) => v
    case None => 0
  }

  /** The value of a text of base-`radix` digits, most significant first
      (callers pass only digits). */
  function ValueIn(ds: Text, radix: nat): nat {
    if ds == [] then 0
    else
      var high: nat := ValueIn(ds[..|ds| - 1], radix);
      var shifted: nat := high * radix;
      shifted + DigitValue(ds[|ds| - 1], radix)
  }

  function Pow10(k: nat): (p: nat)
    ensures p >= 1
  {
    if k == 0 then 1 else 10 * Pow10(k - 1)
  }

  /** `x` times ten to the power `e`. */
  function Scale(x: real, e: int): real {
    if e >= 0 then x * Pow10(e) as real else x / Pow10(-e) as real
  }

  /** The value and length of a decimal literal read at the start of a text. */
  datatype Scan = Scan(value: real, length: nat)

  /** The exponent part (`e` or `E`, an optional sign, digits) at the start
      of `s`: its value and its length, which is 0 when there is none. */
  function ScanExponent(s: Text): (r: (int, nat))
    ensures r.1 <= |s|
  {
    if |s| == 0 || (s[0] != 'e' && s[0] != 'E') then (0, 0)
    else
      var signed := |s| > 1 && (s[1] == '+' || s[1] == '-');
      var run := if signed then s[2..] else s[1..];
      var n := RunIn(run, 10);
      if n == 0 then (0, 0)
      else
        var v := ValueIn(run[..n], 10) as int;
        (if signed && s[1] == '-' then -v else v, (if signed then 2 else 1) + n)
  }

  /** An unsigned decimal literal at the start of `body`: digits with an
      optional fraction (at least one digit in all), then an optional exponent. */
  function ScanUnsigned(body: Text): (r: Option<Scan>)
    ensures r.Some? ==> 0 < r.value.length <= |body|
  {
    var n1 := RunIn(body, 10);
    var dot := n1 < |body| && body[n1] == '.';
    var frac := if dot then body[n1 + 1..] else "";
    var n2 := RunIn(frac, 10);
    if n1 == 0 && n2 == 0 then None
    else
      var m := if dot then n1 + 1 + n2 else n1;
      var mantissa := ValueIn(body[..n1], 10) as real + ValueIn(frac[..n2], 10) as real / Pow10(n2) as real;
      var exponent := ScanExponent(body[m..]);
      Some(Scan(Scale(mantissa, exponent.0), m + exponent.1))
  }

  /** The longest prefix of `t` that is an ECMAScript StrDecimalLiteral
      (an optional sign, then an unsigned literal), if `t` starts with one. */
  function ScanDecimal(t: Text): (r: Option<Scan>)
    ensures r.Some? ==> 0 < r.value.length <= |t|
  {
    var signed := |t| > 0 && (t[0] == '+' || t[0] == '-');
    match ScanUnsigned(if signed then t[1..] else t)
    case None => None
    case Some(sc) =>
      if signed then Some(Scan(if t[0] == '-' then -sc.value else sc.value, sc.length + 1))
      else Some(sc)
  }

  /** `parseFloat(s)`: the longest decimal literal after the leading white space. */
  function ParseFloat(s: Text): Option<real> {
    match ScanDecimal(TrimStart(s))
    case None => None
    case Some(sc) => Some(sc.value)
  }

  /** `parseInt(s)` with no radix: optional sign, then a `0x` prefix selects
      base 16; the value is that of the digit run that follows. */
  function ParseInt(s: Text): Option<int> {
    var t := TrimStart(s);
    var signed := |t| > 0 && (t[0] == '+' || t[0] == '-');
    var body := if signed then t[1..] else t;
    var hex := |body| >= 2 && body[0] == '0' && (body[1] == 'x' || body[1] == 'X');
    var digits := if hex then body[2..] else body;
    var radix := if hex then 16 else 10;
    var n := RunIn(digits, radix);
    if n == 0 then None
    else
      var v := ValueIn(digits[..n], radix) as int;
      Some(if signed && t[0] == '-' then -v else v)
  }

  /** `Number(s)` for a string: the whole text without its surrounding white
      space must be empty (0), a `0x`/`0o`/`0b` literal, or a decimal literal. */
  function ToNumber(s: Text): Option<real> {
    var t := Trim(s);
    if t == "" then Some(0.0)
    else if |t| >= 2 && t[0] == '0' && t[1] in "xXoObB" then
      var radix := if t[1] in "xX" then 16 else if t[1] in "oO" then 8 else 2;
      var digits := t[2..];
      if digits != [] && RunIn(digits, radix) == |digits| then Some(ValueIn(digits, radix) as real) else None
    else
      match ScanDecimal(t)
      case Some(sc) => if sc.length == |t| then Some(sc.value) else None
      case None => None
  }

  function DigitChar(d: nat): char
    requires d < 10
  {
    ('0' as int + d) as char
  }

  /** The decimal digits of `n` with no leading zero (`String(n)`). */
  function NatToString(n: nat): (s: Text)
    ensures |s| >= 1
    ensures forall k :: 0 <= k < |s| ==> IsDigit(s[k])
    ensures n > 0 ==> s[0] != '0'
  {
    if n < 10 then [DigitChar(n)] else NatToString(n / 10) + [DigitChar(n % 10)]
  }

  /** `String(i)` for an integer. */
  function IntToString(i: int): (s: Text)
    ensures i >= 0 <==> (s != [] && IsDigit(s[0]))
  {
    if i < 0 then "-" + NatToString(-i) else NatToString(i)
  }

  /** Reading back the digits `String(n)` writes gives `n`. */
  lemma {:induction false} NatToStringRoundTrip(n: nat)
    ensures RunIn(NatToString(n), 10) == |NatToString(n)|
    ensures ValueIn(NatToString(n), 10) == n
  {
    var s := NatToString(n);
    if n >= 10 {
      NatToStringRoundTrip(n / 10);
      assert s[..|s| - 1] == NatToString(n / 10);
    }
    RunAllDigits(s);
  }

  lemma {:induction false} RunAllDigits(s: Text)
    requires forall k :: 0 <= k < |s| ==> IsDigit(s[k])
    ensures RunIn(s, 10) == |s|
  {
    if s != [] {
      RunAllDigits(s[1..]);
    }
  }

  /** `String` is injective on the naturals. */
  lemma NatToStringInjective(m: nat, n: nat)
    requires NatToString(m) == NatToString(n)
    ensures m == n
  {
    NatToStringRoundTrip(m);
    NatToStringRoundTrip(n);
  }

  predicate AllDigits(s: Text) {
    s != [] && forall k :: 0 <= k < |s| ==> IsDigit(s[k])
  }

  lemma DigitsAreTrimmed(s: Text)
    requires AllDigits(s)
    ensures TrimStart(s) == s && Trim(s) == s
  {
    assert IsDigit(s[0]) && IsDigit(s[|s| - 1]);
    assert Trimmed(s);
    assert [] + s + [] == s && [] + s == s;
    TrimStartPad([], s);
    TrimAround([], s, []);
  }

  lemma {:induction false} ScanDigits(s: Text)
    requires AllDigits(s)
    ensures ScanDecimal(s) == Some(Scan(ValueIn(s, 10) as real, |s|))
  {
    RunAllDigits(s);
    assert s[..|s|] == s;
    assert ScanExponent(s[|s|..]) == (0, 0);
  }

  /** Digit strings are read back exactly by the three conversions. */
  lemma {:induction false} ParsesNatToString(n: nat)
    ensures ParseInt(NatToString(n)) == Some(n)
    ensures ParseFloat(NatToString(n)) == Some(n as real)
    ensures ToNumber(NatToString(n)) == Some(n as real)
  {
    var s := NatToString(n);
    NatToStringRoundTrip(n);
    DigitsAreTrimmed(s);
    ScanDigits(s);
    assert s[..|s|] == s;
  }

  /** Dots alone are not a number: `parseFloat` of `.`, `..`, ... is `NaN`. */
  lemma ParseFloatDots(s: Text)
    requires s != [] && forall k :: 0 <= k < |s| ==> s[k] == '.'
    ensures ParseFloat(s) == None
  {
    assert !IsSpace(s[0]);
    assert TrimStart(s) == s;
    assert RunIn(s, 10) == 0;
    var frac := s[1..];
    assert RunIn(frac, 10) == 0 by {
      if frac != [] {
        assert frac[0] == '.';
      }
    }
    assert ScanUnsigned(s) == None;
  }
}
