/**
 * Text-to-number conversion as the calculator and the dashboard use it:
 * `parseFloat(x) || 0` and `parseInt(x) || 0` over the text a form field holds.
 *
 * Both JavaScript parsers skip leading white space, accept an optional sign and
 * then read the longest decimal prefix, ignoring whatever follows it.
 * `parseFloat` also reads a fractional part; `parseInt` stops at the point.
 * When no digit is read the result is NaN, which `|| 0` turns into 0.
 * Values are exact reals: IEEE rounding is not modelled.
 */
module Numeric {
  import opened Wrappers

  predicate IsDigit(c: char) { '0' <= c <= '9' }

  /** The white-space characters both parsers skip before the number. */
  predicate IsSpace(c: char) {
    c == ' ' || c == '\t' || c == '\n' || c == '\r' || c == '\U{B}' || c == '\U{C}' ||
    c == '\U{A0}' || c == '\U{FEFF}' || c == '\U{2028}' || c == '\U{2029}'
  }

  predicate AllDigits(s: string) {
    forall i :: 0 <= i < |s| ==> IsDigit(s[i])
  }

  /** Length of the longest prefix of `s` made of decimal digits. */
  function DigitRun(s: string): (n: nat)
    ensures n <= |s| && AllDigits(s[..n])
    ensures n < |s| ==> !IsDigit(s[n])
  {
    if s == [] || !IsDigit(s[0]) then 0 else 1 + DigitRun(s[1..])
  }

  /** Length of the longest prefix of `s` made of white space. */
  function SpaceRun(s: string): (n: nat)
    ensures n <= |s|
    ensures forall i :: 0 <= i < n ==> IsSpace(s[i])
    ensures n < |s| ==> !IsSpace(s[n])
  {
    if s == [] || !IsSpace(s[0]) then 0 else 1 + SpaceRun(s[1..])
  }

  function Pow10(k: nat): (p: nat)
    ensures p >= 1
  {
    if k == 0 then 1 else 10 * Pow10(k - 1)
  }

  function DigitValue(c: char): nat
    requires IsDigit(c)
  {
    (c as int) - ('0' as int)
  }

  /** The natural number a string of decimal digits denotes, most significant digit first. */
  function DigitsValue(ds: string): (v: nat)
    requires AllDigits(ds)
    ensures v < Pow10(|ds|)
  {
    if ds == [] then 0 else 10 * DigitsValue(ds[..|ds| - 1]) + DigitValue(ds[|ds| - 1])
  }

  /** The decimal prefix both parsers read: its sign, its whole digits, its fraction digits. */
  datatype Scan = Scan(negative: bool, whole: string, fraction: string)

  function ScanNumber(s: string): (sc: Scan)
    ensures AllDigits(sc.whole) && AllDigits(sc.fraction)
  {
    var t := s[SpaceRun(s)..];
    var negative := |t| > 0 && t[0] == '-';
    var u := if |t| > 0 && (t[0] == '+' || t[0] == '-') then t[1..] else t;
    var w := DigitRun(u);
    var r := u[w..];
    var fraction := if |r| > 0 && r[0] == '.' then r[1..][..DigitRun(r[1..])] else "";
    Scan(negative, u[..w], fraction)
  }

  function Signed(negative: bool, x: real): real {
    if negative then -x else x
  }

  /** The unsigned value of a scanned number: its whole part plus a fraction below one. */
  function Magnitude(sc: Scan): (m: real)
    requires AllDigits(sc.whole) && AllDigits(sc.fraction)
    ensures DigitsValue(sc.whole) as real <= m < DigitsValue(sc.whole) as real + 1.0
  {
    FractionBelowOne(sc.fraction);
    DigitsValue(sc.whole) as real + Ratio(DigitsValue(sc.fraction), Pow10(|sc.fraction|))
  }

  /** The quotient `n / p` as a real number. */
  function Ratio(n: int, p: nat): real
    requires p > 0
  {
    n as real / p as real
  }

  /** The number `parseFloat` makes of a scan: NaN when it read no digit at all. */
  function FloatOfScan(sc: Scan): Option<real>
    requires AllDigits(sc.whole) && AllDigits(sc.fraction)
  {
    if sc.whole == [] && sc.fraction == [] then None
    else Some(Signed(sc.negative, Magnitude(sc)))
  }

  /** The number `parseInt` makes of a scan: NaN when it read no whole digit. */
  function IntOfScan(sc: Scan): Option<int>
    requires AllDigits(sc.whole)
  {
    if sc.whole == [] then None
    else Some(if sc.negative then -(DigitsValue(sc.whole) as int) else DigitsValue(sc.whole))
  }

  /** `parseFloat(s)`: None stands for NaN. */
  function ParseFloat(s: string): (r: Option<real>)
    ensures r.Some? ==> exists i :: 0 <= i < |s| && IsDigit(s[i])
  {
    ScanFindsDigit(s);
    FloatOfScan(ScanNumber(s))
  }

  /** `parseInt(s)` in base 10: None stands for NaN. */
  function ParseInt(s: string): (r: Option<int>)
    ensures r.Some? ==> exists i :: 0 <= i < |s| && IsDigit(s[i])
  {
    ScanFindsDigit(s);
    IntOfScan(ScanNumber(s))
  }

  /** `parseFloat(s) || 0` */
  function FloatOrZero(s: string): (r: real)
    ensures ParseFloat(s).None? ==> r == 0.0
    ensures ParseFloat(s).Some? ==> r == ParseFloat(s).value
  {
    match ParseFloat(s)
    case Some(v) => v
    case None => 0.0
  }

  /** `parseInt(s) || 0` */
  function IntOrZero(s: string): (r: int)
    ensures ParseInt(s).None? ==> r == 0
    ensures ParseInt(s).Some? ==> r == ParseInt(s).value
  {
    match ParseInt(s)
    case Some(v) => v
    case None => 0
  }

  /** The form default `value || '0'`: an empty field reads as the text "0". */
  function OrZeroText(v: string): (r: string)
    ensures r != ""
    ensures v != "" ==> r == v
  {
    if v == "" then "0" else v
  }

  /** Decimal rendering of a natural number, without leading zeros. */
  function NatText(n: nat): (s: string)
    ensures |s| > 0 && AllDigits(s)
  {
    if n < 10 then [('0' as int + n) as char] else NatText(n / 10) + [('0' as int + n % 10) as char]
  }

  lemma {:induction false} DigitRunAll(s: string)
    requires AllDigits(s)
    ensures DigitRun(s) == |s|
  {
    if s != [] {
      DigitRunAll(s[1..]);
    }
  }

  lemma {:induction false} NatTextValue(n: nat)
    ensures DigitsValue(NatText(n)) == n
  {
    var s := NatText(n);
    if n >= 10 {
      NatTextValue(n / 10);
      assert s[..|s| - 1] == NatText(n / 10);
    }
  }

  /** A non-empty run of digits scans as an unsigned whole number with no fraction. */
  lemma ScanDigits(s: string)
    requires |s| > 0 && AllDigits(s)
    ensures ScanNumber(s) == Scan(false, s, "")
  {
    assert !IsSpace(s[0]) && s[0] != '+' && s[0] != '-';
    assert SpaceRun(s) == 0;
    assert s[0..] == s;
    DigitRunAll(s);
    assert s[..|s|] == s && s[|s|..] == "";
  }

  /** Rendering a natural number and parsing it back gives the number, with either parser. */
  lemma ParseNatText(n: nat)
    ensures ParseFloat(NatText(n)) == Some(n as real)
    ensures ParseInt(NatText(n)) == Some(n)
    ensures FloatOrZero(NatText(n)) == n as real && IntOrZero(NatText(n)) == n
  {
    ScanDigits(NatText(n));
    NatTextValue(n);
    assert Pow10(0) == 1;
  }

  /** Whatever digits the scan reads are digits of the text. */
  lemma ScanFindsDigit(s: string)
    ensures ScanNumber(s).whole != [] || ScanNumber(s).fraction != [] ==>
            exists i :: 0 <= i < |s| && IsDigit(s[i])
  {
    var t := s[SpaceRun(s)..];
    var u := if |t| > 0 && (t[0] == '+' || t[0] == '-') then t[1..] else t;
    var sc := ScanNumber(s);
    if sc.whole != [] {
      assert u[0] == sc.whole[0];
      assert u[0] in s;
    } else if sc.fraction != [] {
      assert u[1] == sc.fraction[0];
      assert u[1] in s;
    }
  }

  /** Text with no digit at all parses to NaN in both parsers, so it contributes 0. */
  lemma NoDigitsIsZero(s: string)
    requires forall i :: 0 <= i < |s| ==> !IsDigit(s[i])
    ensures ParseFloat(s) == None && ParseInt(s) == None
    ensures FloatOrZero(s) == 0.0 && IntOrZero(s) == 0
  {
    var t := s[SpaceRun(s)..];
    var u := if |t| > 0 && (t[0] == '+' || t[0] == '-') then t[1..] else t;
    assert forall i :: 0 <= i < |u| ==> u[i] in s;
    assert DigitRun(u) == 0;
    if |u| > 0 && u[0] == '.' {
      var f := u[1..];
      assert forall i :: 0 <= i < |f| ==> f[i] in s;
      assert DigitRun(f) == 0;
    }
  }

  lemma {:induction false} FractionBelowOne(ds: string)
    requires AllDigits(ds)
    ensures 0.0 <= Ratio(DigitsValue(ds), Pow10(|ds|)) < 1.0
  {
    QuotientBelowOne(DigitsValue(ds) as real, Pow10(|ds|) as real);
  }

  lemma QuotientBelowOne(x: real, p: real)
    requires 0.0 <= x < p
    ensures 0.0 <= x / p < 1.0
  {
    assert x / p * p == x;
  }

  /**
   * Where `parseInt` reads a number, `parseFloat` reads one too, and `parseInt`'s
   * is `parseFloat`'s truncated toward zero.
   */
  lemma ParseIntTruncates(s: string)
    requires ParseInt(s).Some?
    ensures ParseFloat(s).Some?
    ensures var k, v := ParseInt(s).value as real, ParseFloat(s).value;
            if v >= 0.0 then k <= v < k + 1.0 else k - 1.0 < v <= k
  {
    var sc := ScanNumber(s);
    FractionBelowOne(sc.fraction);
  }

  /** Both parsers skip a leading blank: the scan of the rest is the scan of the whole. */
  lemma ScanSkipsSpace(c: char, s: string)
    requires IsSpace(c)
    ensures ScanNumber([c] + s) == ScanNumber(s)
  {
    var cs := [c] + s;
    assert cs[1..] == s;
    assert SpaceRun(cs) == 1 + SpaceRun(s);
    assert cs[SpaceRun(cs)..] == s[SpaceRun(s)..];
  }

  /** Text starting with a digit or a point scans unsigned; a `-` in front only sets the sign. */
  lemma ScanNegated(s: string)
    requires |s| > 0 && (IsDigit(s[0]) || s[0] == '.')
    ensures !ScanNumber(s).negative
    ensures ScanNumber("-" + s) == ScanNumber(s).(negative := true)
  {
    assert SpaceRun(s) == 0 && s[0..] == s;
    var m := "-" + s;
    assert SpaceRun(m) == 0 && m[0..] == m && m[1..] == s;
  }

  /** A run of digits followed by a non-digit is read up to its end. */
  lemma {:induction false} DigitRunPrefix(a: string, t: string)
    requires AllDigits(a)
    requires t == [] || !IsDigit(t[0])
    ensures DigitRun(a + t) == |a|
  {
    if a != [] {
      assert (a + t)[1..] == a[1..] + t;
      DigitRunPrefix(a[1..], t);
    } else {
      assert a + t == t;
    }
  }

  /** Digits, a point and digits scan as that whole part and that fraction. */
  lemma ScanDecimal(a: string, b: string)
    requires AllDigits(a) && AllDigits(b)
    ensures ScanNumber(a + "." + b) == Scan(false, a, b)
  {
    var s := a + "." + b;
    assert s == a + ("." + b);
    assert !IsSpace(s[0]) && s[0] != '+' && s[0] != '-';
    assert SpaceRun(s) == 0 && s[0..] == s;
    DigitRunPrefix(a, "." + b);
    assert s[..|a|] == a && s[|a|..] == "." + b;
    assert ("." + b)[1..] == b;
    DigitRunAll(b);
    assert b[..|b|] == b;
  }

  /** The value of digits laid end to end: the first part shifted left by the second's length. */
  lemma {:induction false} DigitsValueAppend(a: string, b: string)
    requires AllDigits(a) && AllDigits(b)
    ensures DigitsValue(a + b) == DigitsValue(a) * Pow10(|b|) + DigitsValue(b)
  {
    if b == [] {
      assert a + b == a;
    } else {
      var init := b[..|b| - 1];
      assert (a + b)[..|a + b| - 1] == a + init;
      assert (a + b)[|a + b| - 1] == b[|b| - 1];
      assert b[..|b| - 1] == init;
      DigitsValueAppend(a, init);
      ShiftOneDigit(DigitsValue(a), Pow10(|init|), DigitsValue(init), DigitValue(b[|b| - 1]));
    }
  }

  lemma ShiftOneDigit(x: int, p: int, y: int, d: int)
    ensures 10 * (x * p + y) + d == x * (10 * p) + (10 * y + d)
  {
    assert 10 * (x * p) == x * (10 * p);
  }

  /**
   * `parseFloat` of digits, a point and digits is the number they write: all the
   * digits read as one whole number, scaled down by the fraction's length.
   */
  lemma ParseFloatDecimal(a: string, b: string)
    requires AllDigits(a) && AllDigits(b)
    ensures ParseFloat(a + "." + b) == if a + b == [] then None else Some(Ratio(DigitsValue(a + b), Pow10(|b|)))
  {
    ScanDecimal(a, b);
    DecimalValue(a, b);
  }

  /** All the digits scaled down by the fraction's length: the whole part plus the fraction. */
  lemma DecimalValue(a: string, b: string)
    requires AllDigits(a) && AllDigits(b)
    ensures Ratio(DigitsValue(a + b), Pow10(|b|)) == Magnitude(Scan(false, a, b))
  {
    DigitsValueAppend(a, b);
    RatioSplit(DigitsValue(a + b), DigitsValue(a), Pow10(|b|), DigitsValue(b));
  }

  /** Dividing `x * p + y` by `p` gives `x` plus the quotient of `y` by `p`. */
  lemma RatioSplit(n: int, x: nat, p: nat, y: int)
    requires p > 0 && n == x * p + y
    ensures Ratio(n, p) == x as real + Ratio(y, p)
  {
    CastSum(n, x, p, y);
    SplitQuotient(n as real, x as real, y as real, p as real);
  }

  lemma CastSum(total: int, x: nat, p: nat, y: int)
    requires total == x * p + y
    ensures total as real == x as real * p as real + y as real
  {
    RealOfProduct(x, p);
  }

  lemma {:induction false} RealOfProduct(m: nat, n: nat)
    ensures (m * n) as real == m as real * n as real
  {
    if n > 0 {
      RealOfProduct(m, n - 1);
      assert m * n == m * (n - 1) + m;
    }
  }

  lemma SplitQuotient(total: real, x: real, y: real, p: real)
    requires p > 0.0 && total == x * p + y
    ensures total / p == x + y / p
  {
    assert (x + y / p) * p == x * p + y;
  }

  /** `parseInt` of digits, a point and digits is the whole part, and NaN when there is none. */
  lemma ParseIntDecimal(a: string, b: string)
    requires AllDigits(a) && AllDigits(b)
    ensures ParseInt(a + "." + b) == if a == [] then None else Some(DigitsValue(a) as int)
  {
    ScanDecimal(a, b);
  }

  /**
   * Text that starts with a digit or a point reads as a number at least 0, and a
   * `-` in front reads as its negation, or NaN alike.
   */
  lemma ParseFloatNegated(s: string)
    requires |s| > 0 && (IsDigit(s[0]) || s[0] == '.')
    ensures ParseFloat(s).Some? ==> ParseFloat(s).value >= 0.0
    ensures ParseFloat("-" + s).Some? <==> ParseFloat(s).Some?
    ensures ParseFloat(s).Some? ==> ParseFloat("-" + s).value == -ParseFloat(s).value
  {
    ScanNegated(s);
  }

  /**
   * Text that starts with a digit or a point reads as an integer at least 0, and a
   * `-` in front reads as its negation, or NaN alike.
   */
  lemma ParseIntNegated(s: string)
    requires |s| > 0 && (IsDigit(s[0]) || s[0] == '.')
    ensures ParseInt(s).Some? ==> ParseInt(s).value >= 0
    ensures ParseInt("-" + s).Some? <==> ParseInt(s).Some?
    ensures ParseInt(s).Some? ==> ParseInt("-" + s).value == -ParseInt(s).value
  {
    ScanNegated(s);
  }

  /** `parseFloat` ignores a leading blank. */
  lemma ParseFloatSkipsSpace(c: char, s: string)
    requires IsSpace(c)
    ensures ParseFloat([c] + s) == ParseFloat(s)
  {
    ScanSkipsSpace(c, s);
  }

  /** `parseInt` ignores a leading blank. */
  lemma ParseIntSkipsSpace(c: char, s: string)
    requires IsSpace(c)
    ensures ParseInt([c] + s) == ParseInt(s)
  {
    ScanSkipsSpace(c, s);
  }

  /** The text "0" reads as 0 with both parsers. */
  lemma ZeroText()
    ensures ParseFloat("0") == Some(0.0) && ParseInt("0") == Some(0)
  {
    ParseNatText(0);
    assert NatText(0) == "0";
  }

  /** The form default `value || '0'` never changes what `parseFloat(value) || 0` gives. */
  lemma OrZeroTextInvisible(v: string)
    ensures FloatOrZero(OrZeroText(v)) == FloatOrZero(v)
    ensures IntOrZero(OrZeroText(v)) == IntOrZero(v)
  {
    if v == "" {
      ZeroText();
    }
  }
}
