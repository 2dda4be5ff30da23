/** The text side of JavaScript numbers as the estimating code uses them:
    `parseFloat(s) || 0` on user input, `String(n)` / template interpolation of amounts
    that are whole pence, and `n.toFixed(2)` for prices. */
module JsNumber {
  import opened Numeric

  import opened Wrappers

  predicate IsDigit(c: char) {
    '0' <= c <= '9'
  }

  predicate AllDigits(s: string) {
    forall i :: 0 <= i < |s| ==> IsDigit(s[i])
  }

  /** The value of a decimal digit (0 for any other character). */
  function DigitValue(c: char): (d: nat)
    ensures d < 10
  {
    if IsDigit(c) then (c as int) - ('0' as int) else 0
  }

  function DigitChar(d: nat): (c: char)
    requires d < 10
    ensures IsDigit(c) && DigitValue(c) == d
  {
    (('0' as int) + d) as char
  }

  /** The value of a run of decimal digits, most significant first. */
  function DigitsValue(s: string): nat {
    if s == [] then 0 else DigitsValue(s[..|s| - 1]) * 10 + DigitValue(s[|s| - 1])
  }

  /** Decimal digits of `n` with no leading zero; its inverse is `DigitsValue`. */
  function NatToString(n: nat): (s: string)
    ensures |s| >= 1 && AllDigits(s)
    ensures DigitsValue(s) == n
    ensures s[0] == '0' ==> n == 0
  {
    if n < 10 then [DigitChar(n)]
    else
      var s := NatToString(n / 10) + [DigitChar(n % 10)];
      assert s[..|s| - 1] == NatToString(n / 10);
      s
  }

  // ---------------------------------------------------------------------------------
  // Number to text

  /** The digits after the point of a whole number `f` of hundredths (f < 100), with
      trailing zeros dropped, as JavaScript prints the shortest form. */
  function CentsFraction(f: nat): (s: string)
    requires f < 100
    ensures AllDigits(s) && |s| <= 2
    ensures s == [] <==> f == 0
    ensures f != 0 ==> DigitsValue(s) * Pow10(2 - |s|) == f
    ensures s != [] ==> s[|s| - 1] != '0'
  {
    if f == 0 then ""
    else if f % 10 == 0 then [DigitChar(f / 10)]
    else
      var s := [DigitChar(f / 10), DigitChar(f % 10)];
      assert s[..1] == [DigitChar(f / 10)];
      assert s[..1][..0] == [];
      assert DigitsValue(s[..1]) == f / 10;
      assert DigitsValue(s) == (f / 10) * 10 + f % 10;
      assert Pow10(0) == 1;
      s
  }

  /** A whole number `m` of hundredths as JavaScript writes it: the whole part, then a
      point and the fraction digits only when the fraction is not zero. */
  function CentsText(m: nat): (s: string)
    ensures s != [] && IsDigit(s[0])
  {
    NatToString(m / 100) + FractionSuffix(m % 100)
  }

  /** The point and fraction digits of `f` hundredths, or nothing when `f` is zero. */
  function FractionSuffix(f: nat): (s: string)
    requires f < 100
    ensures f == 0 ==> s == []
    ensures f != 0 ==> s == "." + CentsFraction(f)
  {
    if f == 0 then "" else "." + CentsFraction(f)
  }

  /** `String(x)` for an amount that is whole pence (JavaScript's shortest decimal form):
      a minus sign for a negative number, then its magnitude in hundredths. Any other value
      is shown to the nearest hundredth. */
  function ShowNumber(x: real): string {
    if x < 0.0 then "-" + CentsText(HalfUp(-x * 100.0)) else CentsText(HalfUp(x * 100.0))
  }

  /** Exactly two digits for `f` hundredths. */
  function TwoDigits(f: nat): (s: string)
    requires f < 100
    ensures |s| == 2 && AllDigits(s) && DigitsValue(s) == f
  {
    var s := [DigitChar(f / 10), DigitChar(f % 10)];
    assert s[..1] == [DigitChar(f / 10)];
    assert s[..1][..0] == [];
    assert DigitsValue(s[..1]) == f / 10;
    s
  }

  /** `m` hundredths with exactly two digits after the point. */
  function FixedText(m: nat): (s: string)
    ensures s != [] && IsDigit(s[0])
  {
    NatToString(m / 100) + "." + TwoDigits(m % 100)
  }

  /** `x.toFixed(2)`: a minus sign for a negative number, then its magnitude rounded half
      up to hundredths, always with two digits after the point. */
  function ToFixed2(x: real): string {
    if x < 0.0 then "-" + FixedText(HalfUp(-x * 100.0)) else FixedText(HalfUp(x * 100.0))
  }

  // ---------------------------------------------------------------------------------
  // Text to number

  /** The white space and line terminators `parseFloat` skips before the number. */
  predicate IsJsSpace(c: char) {
    c == ' ' || c == '\t' || c == '\n' || c == '\r' || c == '\U{000B}' || c == '\U{000C}'
    || c == '\U{00A0}' || c == '\U{1680}' || ('\U{2000}' <= c <= '\U{200A}')
    || c == '\U{2028}' || c == '\U{2029}' || c == '\U{202F}' || c == '\U{205F}'
    || c == '\U{3000}' || c == '\U{FEFF}'
  }

  function SkipSpace(s: string): (r: string)
    ensures r != [] ==> !IsJsSpace(r[0])
  {
    if s != [] && IsJsSpace(s[0]) then SkipSpace(s[1..]) else s
  }

  /** Length of the run of digits at the start of `s`. */
  function LeadingDigits(s: string): (n: nat)
    ensures n <= |s|
    ensures n < |s| ==> !IsDigit(s[n])
  {
    if s != [] && IsDigit(s[0]) then 1 + LeadingDigits(s[1..]) else 0
  }

  /** The scale an optional exponent part (`e3`, `E-2`, `e+1`) contributes; an `e` with
      no digits after it is not part of the number. */
  function ExponentScale(s: string): real {
    if s != [] && (s[0] == 'e' || s[0] == 'E') then
      var v := s[1..];
      var negative := v != [] && v[0] == '-';
      var w := if v != [] && (v[0] == '-' || v[0] == '+') then v[1..] else v;
      var k := LeadingDigits(w);
      if k == 0 then 1.0
      else if negative then 1.0 / Pow10(DigitsValue(w[..k])) as real
      else Pow10(DigitsValue(w[..k])) as real
    else 1.0
  }

  /** The longest prefix of `u` that is an unsigned decimal literal: digits, an optional
      point with optional digits, at least one digit in all, then an optional exponent. */
  function UnsignedDecimal(u: string): Option<real> {
    var i := LeadingDigits(u);
    if i < |u| && u[i] == '.' then WithPoint(u[..i], u[i + 1..])
    else if i == 0 then None
    else Some(DigitsValue(u[..i]) as real * ExponentScale(u[i..]))
  }

  /** The rest of an unsigned decimal literal once its point is found: `d` are the digits
      before the point and `v` the text after it. */
  function WithPoint(d: string, v: string): Option<real> {
    var f := LeadingDigits(v);
    if d == [] && f == 0 then None
    else Some((DigitsValue(d) as real + FractionValue(v[..f])) * ExponentScale(v[f..]))
  }

  /** The value of the digits after a decimal point. */
  function FractionValue(e: string): (r: real)
    ensures r >= 0.0
  {
    DigitsValue(e) as real / Pow10(|e|) as real
  }

  /** A sign, then an unsigned decimal literal. */
  function SignedDecimal(t: string): Option<real> {
    var negative := t != [] && t[0] == '-';
    var body := if t != [] && (t[0] == '-' || t[0] == '+') then t[1..] else t;
    ApplySign(negative, UnsignedDecimal(body))
  }

  function ApplySign(negative: bool, m: Option<real>): (r: Option<real>)
    ensures r.Some? <==> m.Some?
    ensures m.Some? ==> r.value == if negative then -m.value else m.value
  {
    if negative && m.Some? then Some(-m.value) else m
  }

  /** `parseFloat(s)`: `None` stands for NaN. */
  function ParseFloat(s: string): Option<real> {
    SignedDecimal(SkipSpace(s))
  }

  /** `parseFloat(s) || 0`: text that does not start with a number counts as 0. */
  function Parse(s: string): real {
    match ParseFloat(s)
    case None => 0.0
    case Some(v) => v
  }

  // ---------------------------------------------------------------------------------
  // Round trips: what the app writes into a text field reads back as the same amount

  lemma {:induction false} LeadingDigitsOfDigits(d: string, t: string)
    requires AllDigits(d)
    requires t == [] || !IsDigit(t[0])
    ensures LeadingDigits(d + t) == |d|
  {
    if d != [] {
      assert (d + t)[1..] == d[1..] + t;
      LeadingDigitsOfDigits(d[1..], t);
    } else {
      assert d + t == t;
    }
  }

  /** `parseFloat` drops exactly the leading white space: what remains is a suffix of the
      text, everything before it is white space, and it does not start with white space. */
  lemma {:induction false} SkipSpaceDropsLeadingSpace(s: string)
    ensures |SkipSpace(s)| <= |s| && SkipSpace(s) == s[|s| - |SkipSpace(s)|..]
    ensures forall i :: 0 <= i < |s| - |SkipSpace(s)| ==> IsJsSpace(s[i])
  {
    if s != [] && IsJsSpace(s[0]) {
      SkipSpaceDropsLeadingSpace(s[1..]);
      assert s[1..][|s[1..]| - |SkipSpace(s[1..])|..] == s[|s| - |SkipSpace(s)|..];
      forall i | 0 <= i < |s| - |SkipSpace(s)|
        ensures IsJsSpace(s[i])
      {
        if i > 0 { assert s[i] == s[1..][i - 1]; }
      }
    }
  }

  lemma SkipSpaceNoSpace(s: string)
    requires s != [] && !IsJsSpace(s[0])
    ensures SkipSpace(s) == s
  {
  }

  /** An integer part alone, or an integer part, a point and fraction digits, read back
      as the number they spell. */
  lemma UnsignedDecimalOfDigits(q: nat, e: string)
    requires AllDigits(e)
    ensures UnsignedDecimal(NatToString(q)) == Some(q as real)
    ensures e != [] ==> UnsignedDecimal(NatToString(q) + "." + e)
                        == Some(q as real + FractionValue(e))
  {
    var d := NatToString(q);
    WholeOfDigits(d);
    if e != [] {
      PointOfDigits(d, e);
    }
  }

  lemma WholeOfDigits(d: string)
    requires AllDigits(d) && d != []
    ensures UnsignedDecimal(d) == Some(DigitsValue(d) as real)
  {
    LeadingDigitsOfDigits(d, []);
    assert d + [] == d;
    assert d[..|d|] == d;
    assert d[|d|..] == [];
    assert ExponentScale([]) == 1.0;
  }

  lemma PointOfDigits(d: string, e: string)
    requires AllDigits(d) && d != [] && AllDigits(e) && e != []
    ensures UnsignedDecimal(d + "." + e)
            == Some(DigitsValue(d) as real + FractionValue(e))
  {
    var u := d + "." + e;
    assert u == d + ("." + e);
    LeadingDigitsOfDigits(d, "." + e);
    assert u[..|d|] == d;
    assert u[|d|] == '.';
    assert u[|d| + 1..] == e;
    assert UnsignedDecimal(u) == WithPoint(d, e);
    WithPointOfDigits(d, e);
  }

  lemma WithPointOfDigits(d: string, e: string)
    requires AllDigits(d) && AllDigits(e) && e != []
    ensures WithPoint(d, e)
            == Some(DigitsValue(d) as real + FractionValue(e))
  {
    LeadingDigitsOfDigits(e, []);
    assert e + [] == e;
    var f := LeadingDigits(e);
    assert f == |e|;
    assert e[..f] == e;
    assert e[f..] == [];
    assert ExponentScale([]) == 1.0;
  }

  /** Text that starts with a digit is read as an unsigned decimal literal. */
  lemma ParseFloatUnsigned(u: string)
    requires u != [] && IsDigit(u[0])
    ensures ParseFloat(u) == UnsignedDecimal(u)
  {
    SkipSpaceNoSpace(u);
  }

  /** A leading minus sign negates the literal after it. */
  lemma ParseFloatNegative(s: string, u: string, r: real)
    requires s == "-" + u
    requires u != [] && IsDigit(u[0])
    requires UnsignedDecimal(u) == Some(-r)
    ensures ParseFloat(s) == Some(r)
  {
    SkipSpaceNoSpace(s);
    assert s[1..] == u;
  }

  /** Fraction digits written by `CentsFraction` and `TwoDigits` read back as hundredths. */
  lemma FractionOfCents(f: nat)
    requires 0 < f < 100
    ensures FractionValue(CentsFraction(f)) == f as real / 100.0
    ensures FractionValue(TwoDigits(f)) == f as real / 100.0
  {
    var e := CentsFraction(f);
    if |e| == 1 {
      assert Pow10(1) == 10;
      assert DigitsValue(e) * 10 == f;
    } else {
      assert Pow10(2) == 100;
      assert Pow10(0) == 1;
      assert DigitsValue(e) == f;
    }
    assert Pow10(2) == 100;
  }

  /** `CentsText` reads back as the number of hundredths it was written from. */
  lemma ReadCentsText(m: nat)
    ensures UnsignedDecimal(CentsText(m)) == Some(m as real / 100.0)
  {
    var q, f := m / 100, m % 100;
    if f == 0 {
      assert CentsText(m) == NatToString(q) + [];
      assert NatToString(q) + [] == NatToString(q);
      WholeOfDigits(NatToString(q));
      assert m as real == 100.0 * q as real;
    } else {
      assert CentsText(m) == NatToString(q) + "." + CentsFraction(f);
      UnsignedDecimalOfDigits(q, CentsFraction(f));
      FractionOfCents(f);
      assert m as real == 100.0 * q as real + f as real;
    }
  }

  /** `FixedText` reads back as the number of hundredths it was written from. */
  lemma ReadFixedText(m: nat)
    ensures UnsignedDecimal(FixedText(m)) == Some(m as real / 100.0)
  {
    var q, f := m / 100, m % 100;
    UnsignedDecimalOfDigits(q, TwoDigits(f));
    if f == 0 {
      assert Pow10(2) == 100;
      assert FractionValue(TwoDigits(f)) == 0.0;
    } else {
      FractionOfCents(f);
    }
    assert m as real == 100.0 * q as real + f as real;
  }

  /** `parseFloat(String(x))` is `x` for every whole-pence amount. */
  lemma ParseShowNumber(x: real)
    requires HasCents(x)
    ensures ParseFloat(ShowNumber(x)) == Some(x)
    ensures Parse(ShowNumber(x)) == x
  {
    if x < 0.0 {
      ParseNegativeShowNumber(x);
    } else {
      ParseNonNegativeShowNumber(x);
    }
  }

  lemma ParseNonNegativeShowNumber(x: real)
    requires HasCents(x) && x >= 0.0
    ensures ParseFloat(ShowNumber(x)) == Some(x)
  {
    var m := HalfUp(x * 100.0);
    assert ShowNumber(x) == CentsText(m);
    HalfUpOfPence(x);
    assert m as real / 100.0 == x;
    ReadCentsText(m);
    ParseFloatUnsigned(CentsText(m));
  }

  lemma ParseNegativeShowNumber(x: real)
    requires HasCents(x) && x < 0.0
    ensures ParseFloat(ShowNumber(x)) == Some(x)
  {
    var m := HalfUp(-x * 100.0);
    HalfUpOfPence(x);
    ReadCentsText(m);
    assert m as real / 100.0 == -x;
    ParseFloatNegative(ShowNumber(x), CentsText(m), x);
  }

  /** Reading `x.toFixed(2)` back gives `Number(x.toFixed(2))`, the rounding `Round2`
      stands for. */
  lemma ParseToFixed2(x: real)
    ensures ParseFloat(ToFixed2(x)) == Some(Round2(x))
  {
    if x < 0.0 {
      ParseNegativeToFixed2(x);
    } else {
      ParseNonNegativeToFixed2(x);
    }
  }

  lemma ParseNonNegativeToFixed2(x: real)
    requires x >= 0.0
    ensures ParseFloat(ToFixed2(x)) == Some(Round2(x))
  {
    var m := HalfUp(x * 100.0);
    assert ToFixed2(x) == FixedText(m);
    assert FixedUnits(x * 100.0) == m;
    assert Round2(x) == m as real / 100.0;
    ReadFixedText(m);
    ParseFloatUnsigned(FixedText(m));
  }

  lemma ParseNegativeToFixed2(x: real)
    requires x < 0.0
    ensures ParseFloat(ToFixed2(x)) == Some(Round2(x))
  {
    var m := HalfUp(-x * 100.0);
    assert ToFixed2(x) == "-" + FixedText(m);
    assert FixedUnits(x * 100.0) == -m;
    ReadFixedText(m);
    assert m as real / 100.0 == -Round2(x);
    ParseFloatNegative(ToFixed2(x), FixedText(m), Round2(x));
  }

  /** Concrete readings of the defaults the estimator starts from. */
  lemma ParseDefaults()
    ensures Parse("250") == 250.0 && Parse("1") == 1.0 && Parse("0") == 0.0 && Parse("") == 0.0
  {
    assert AllDigits("250") && AllDigits("1") && AllDigits("0");
    assert DigitsValue("250") == 250 by {
      assert "250"[..2] == "25";
      assert "25"[..1] == "2";
      assert "2"[..0] == "";
    }
    assert DigitsValue("1") == 1 by { assert "1"[..0] == ""; }
    assert DigitsValue("0") == 0 by { assert "0"[..0] == ""; }
    WholeOfDigits("250");
    WholeOfDigits("1");
    WholeOfDigits("0");
    ParseFloatUnsigned("250");
    ParseFloatUnsigned("1");
    ParseFloatUnsigned("0");
  }

  /** Text made only of digits, points and minus signs. */
  predicate Numeral(s: string) {
    forall i :: 0 <= i < |s| ==> IsDigit(s[i]) || s[i] == '.' || s[i] == '-'
  }

  lemma NumeralConcat(a: string, b: string)
    requires Numeral(a) && Numeral(b)
    ensures Numeral(a + b)
  {
  }

  /** `String(x)` is written with digits, a point and a sign only. */
  lemma ShowNumberNumeral(x: real)
    ensures Numeral(ShowNumber(x))
  {
    var m := HalfUp(if x < 0.0 then -x * 100.0 else x * 100.0);
    NumeralConcat(NatToString(m / 100), FractionSuffix(m % 100));
    if x < 0.0 {
      NumeralConcat("-", CentsText(m));
    }
  }

  /** `x.toFixed(2)` is written with digits, a point and a sign only. */
  lemma ToFixed2Numeral(x: real)
    ensures Numeral(ToFixed2(x))
  {
    var m := HalfUp(if x < 0.0 then -x * 100.0 else x * 100.0);
    NumeralConcat(NatToString(m / 100), ".");
    NumeralConcat(NatToString(m / 100) + ".", TwoDigits(m % 100));
    if x < 0.0 {
      NumeralConcat("-", FixedText(m));
    }
  }
}
