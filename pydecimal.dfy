/** Python's `decimal.Decimal` for finite values: the coefficient and exponent
    it keeps, the number they denote, `str(d)` (the to-scientific-string
    rendering) and the `Decimal(str)` constructor. */
module PyDecimal {
  import opened PyText

  /** `coef * 10^exp`; the sign of the number is the sign of `coef`. */
  datatype Decimal = Decimal(coef: int, exp: int)

  const Zero := Decimal(0, 0)

  function Pow10(n: nat): (r: nat)
    ensures r >= 1
  {
    if n == 0 then 1 else 10 * Pow10(n - 1)
  }

  function Abs(i: int): nat {
    if i < 0 then -i else i
  }

  /** The exact number a decimal denotes. */
  function ToReal(d: Decimal): real {
    if d.exp >= 0 then (d.coef * Pow10(d.exp)) as real
    else d.coef as real / Pow10(-d.exp) as real
  }

  /** The decimal `Decimal(str(i))` builds from an integer. */
  function FromInt(i: int): (d: Decimal)
    ensures ToReal(d) == i as real
  {
    Decimal(i, 0)
  }

  function Zeros(n: nat): (r: string)
    ensures |r| == n && AllDigits(r)
    ensures forall k :: 0 <= k < n ==> r[k] == '0'
  {
    if n == 0 then [] else Zeros(n - 1) + "0"
  }

  /** Where `str(d)` puts the decimal point, counted from the first digit:
      plain notation when the exponent is not positive and the number is not
      too small, one digit before the point (scientific notation) otherwise. */
  function DotPlace(d: Decimal): int {
    var left := d.exp + |NatToString(Abs(d.coef))|;
    if d.exp <= 0 && left > -6 then left else 1
  }

  /** The digits with the point placed `dot` digits from the left: a `0.`
      and leading zeros when `dot` is not positive, trailing zeros when it
      is past the last digit. */
  function MantissaText(digits: string, dot: int): string {
    var intpart :=
      if dot <= 0 then "0"
      else if dot >= |digits| then digits + Zeros(dot - |digits|)
      else digits[..dot];
    var fracpart :=
      if dot <= 0 then "." + Zeros(-dot) + digits
      else if dot >= |digits| then ""
      else "." + digits[dot..];
    intpart + fracpart
  }

  /** `'%+d' % n`. */
  function SignedText(n: int): string {
    (if n >= 0 then "+" else "") + IntToString(n)
  }

  /** The exponent suffix: nothing when the adjusted exponent is 0. */
  function ExponentSuffix(n: int): string {
    if n == 0 then "" else "E" + SignedText(n)
  }

  /** `str(d)`. */
  function DecimalToString(d: Decimal): (r: string)
    ensures r != []
  {
    var digits := NatToString(Abs(d.coef));
    var sign := if d.coef < 0 then "-" else "";
    var left := d.exp + |digits|;
    var dot := DotPlace(d);
    sign + MantissaText(digits, dot) + ExponentSuffix(left - dot)
  }

  predicate IsExpChar(c: char) {
    c == 'e' || c == 'E'
  }

  /** Index of the first exponent indicator, or `|s|`. */
  function IndexOfExp(s: string): (i: nat)
    ensures i <= |s|
    ensures i < |s| ==> IsExpChar(s[i])
    ensures forall k :: 0 <= k < i ==> !IsExpChar(s[k])
  {
    if s == [] then 0
    else if IsExpChar(s[0]) then 0
    else 1 + IndexOfExp(s[1..])
  }

  /** The digits of a mantissa read as one integer, and how many of them
      came after the point. */
  datatype Mantissa = Mantissa(value: nat, scale: nat)

  /** `digits '.' [digits] | ['.'] digits`: the coefficient's digits and the
      number of digits after the point. */
  function ParseMantissa(m: string): Option<Mantissa> {
    var dot := IndexOf(m, '.');
    var ip := m[..dot];
    var fp := if dot < |m| then m[dot + 1..] else [];
    if AllDigits(ip) && AllDigits(fp) && |ip| + |fp| > 0 then
      Some(Mantissa(DigitsValue(ip + fp), |fp|))
    else None
  }

  /** `mantissa [('e' | 'E') [sign] digits]`: the coefficient's magnitude
      and the exponent. */
  function ParseUnsigned(body: string): Option<(nat, int)> {
    var e := IndexOfExp(body);
    var m := ParseMantissa(body[..e]);
    var x := if e < |body| then ParseSigned(body[e + 1..]) else Some(0);
    if m.None? || x.None? then None
    else Some((m.value.value, x.value - m.value.scale))
  }

  /** `[sign] mantissa [exponent]` with nothing around it. */
  function ParseNumeric(t: string): Option<Decimal> {
    var neg := t != [] && t[0] == '-';
    var body := if t != [] && (t[0] == '-' || t[0] == '+') then t[1..] else t;
    match ParseUnsigned(body)
    case None => None
    case Some((c, e)) =>
      var v: int := c;
      Some(Decimal(if neg then -v else v, e))
  }

  /** `Decimal(s)` for a string: surrounding whitespace is stripped, then
      every underscore is dropped, then the rest must match the numeric syntax. */
  function ParseDecimal(s: string): Option<Decimal> {
    ParseNumeric(RemoveChar(Strip(s), '_'))
  }

  /** Appending one digit to `va` shifted by `p` followed by `vb`. */
  lemma {:induction false} ShiftDigit(va: int, p: int, vb: int, d: int, m: int)
    requires m == va * p + vb
    ensures m * 10 + d == va * (p * 10) + (vb * 10 + d)
  {
  }

  lemma {:induction false} DigitsValueAppend(a: string, b: string)
    requires AllDigits(a) && AllDigits(b)
    ensures AllDigits(a + b)
    ensures DigitsValue(a + b) == DigitsValue(a) * Pow10(|b|) + DigitsValue(b)
    decreases |b|
  {
    var ab := a + b;
    if b != [] {
      var b' := b[..|b| - 1];
      assert ab[..|ab| - 1] == a + b';
      DigitsValueAppend(a, b');
      var va, p, vb, d := DigitsValue(a), Pow10(|b'|), DigitsValue(b'), DigitValue(b[|b| - 1]);
      var m := DigitsValue(a + b');
      assert DigitsValue(ab) == m * 10 + d;
      assert DigitsValue(b) == vb * 10 + d;
      assert Pow10(|b|) == p * 10;
      ShiftDigit(va, p, vb, d, m);
    } else {
      assert ab == a;
    }
  }

  lemma {:induction false} ZerosValue(n: nat)
    ensures DigitsValue(Zeros(n)) == 0
  {
    if n > 0 {
      ZerosValue(n - 1);
      assert Zeros(n)[..n - 1] == Zeros(n - 1);
    }
  }

  /** Leading zeros do not change the number a digit string denotes. */
  lemma {:induction false} LeadingZeros(n: nat, b: string)
    requires AllDigits(b)
    ensures AllDigits(Zeros(n) + b) && DigitsValue(Zeros(n) + b) == DigitsValue(b)
  {
    DigitsValueAppend(Zeros(n), b);
    ZerosValue(n);
  }

  lemma {:induction false} ParsePlusDigits(d: string)
    requires d != [] && AllDigits(d)
    ensures ParseSigned("+" + d) == Some(DigitsValue(d) as int)
  {
    var s := "+" + d;
    assert s != [] && s[0] == '+';
    assert s[1..] == d;
    ParseDigits(d);
  }

  /** The exponent `str` writes parses back to the exponent. */
  lemma {:induction false} SignedTextParses(n: int)
    ensures ParseSigned(SignedText(n)) == Some(n)
  {
    var a: nat := if n < 0 then -n else n;
    var d := NatToString(a);
    NatToStringValue(a);
    if n < 0 {
      assert SignedText(n) == "-" + d;
      ParseDigits(d);
      ParseSignedMinus(d, a);
    } else {
      assert SignedText(n) == "+" + d;
      ParsePlusDigits(d);
    }
  }

  lemma {:induction false} IndexOfAt(s: string, c: char, i: nat)
    requires i <= |s| && (i < |s| ==> s[i] == c)
    requires forall k :: 0 <= k < i ==> s[k] != c
    ensures IndexOf(s, c) == i
  {
  }

  /** The point lands inside or at the end of the digits, never past them. */
  lemma {:induction false} DotPlaceBound(d: Decimal)
    ensures DotPlace(d) <= |NatToString(Abs(d.coef))|
  {
  }

  lemma {:induction false} ParsePointed(ip: string, fp: string, all: string)
    requires AllDigits(ip) && AllDigits(fp) && |ip| + |fp| > 0 && ip + fp == all
    ensures ParseMantissa(ip + "." + fp) == Some(Mantissa(DigitsValue(all), |fp|))
  {
    var m := ip + "." + fp;
    IndexOfAt(m, '.', |ip|);
    assert m[..|ip|] == ip && m[|ip| + 1..] == fp;
  }

  lemma {:induction false} ParseWhole(ip: string)
    requires AllDigits(ip) && ip != []
    ensures ParseMantissa(ip) == Some(Mantissa(DigitsValue(ip), 0))
  {
    IndexOfAt(ip, '.', |ip|);
    assert ip[..|ip|] == ip;
    assert ip + [] == ip;
  }

  lemma {:induction false} MantissaTextSmall(digits: string, dot: int)
    requires dot <= 0
    ensures MantissaText(digits, dot) == "0" + "." + (Zeros(-dot) + digits)
  {
  }

  lemma {:induction false} LeadingZero(b: string)
    requires AllDigits(b)
    ensures AllDigits("0" + b) && DigitsValue("0" + b) == DigitsValue(b)
  {
    DigitsValueAppend("0", b);
    assert DigitsValue("0") == DigitsValue("0"[..0]) * 10 + 0;
  }

  lemma {:induction false} ParseSmall(digits: string, dot: int, k: nat)
    requires AllDigits(digits) && dot <= 0 && k == |digits| - dot
    ensures ParseMantissa("0" + "." + (Zeros(-dot) + digits)) == Some(Mantissa(DigitsValue(digits), k))
  {
    var fp := Zeros(-dot) + digits;
    LeadingZeros(-dot, digits);
    LeadingZero(fp);
    ParsePointed("0", fp, "0" + fp);
    var r := ParseMantissa("0" + "." + fp);
    assert r.value.value == DigitsValue(digits) && r.value.scale == k;
    assert r.value == Mantissa(DigitsValue(digits), k);
  }

  lemma {:induction false} MantissaTextInside(digits: string, dot: int)
    requires 0 < dot < |digits|
    ensures MantissaText(digits, dot) == digits[..dot] + "." + digits[dot..]
  {
  }

  lemma {:induction false} ParseInside(digits: string, dot: int, k: nat)
    requires AllDigits(digits) && 0 < dot < |digits| && k == |digits| - dot
    ensures ParseMantissa(digits[..dot] + "." + digits[dot..]) == Some(Mantissa(DigitsValue(digits), k))
  {
    var ip, fp := digits[..dot], digits[dot..];
    assert ip + fp == digits;
    ParsePointed(ip, fp, digits);
  }

  lemma {:induction false} MantissaTextWhole(digits: string)
    requires digits != []
    ensures MantissaText(digits, |digits|) == digits
  {
    assert digits + Zeros(0) + "" == digits;
  }

  lemma {:induction false} MantissaParses(digits: string, dot: int, k: nat)
    requires digits != [] && AllDigits(digits) && dot <= |digits| && k == |digits| - dot
    ensures ParseMantissa(MantissaText(digits, dot)) == Some(Mantissa(DigitsValue(digits), k))
  {
    if dot <= 0 {
      MantissaTextSmall(digits, dot);
      ParseSmall(digits, dot, k);
    } else if dot == |digits| {
      MantissaTextWhole(digits);
      ParseWhole(digits);
    } else {
      MantissaTextInside(digits, dot);
      ParseInside(digits, dot, k);
    }
  }

  lemma {:induction false} MantissaChars(digits: string, dot: int)
    requires digits != [] && AllDigits(digits) && dot <= |digits|
    ensures forall k :: 0 <= k < |MantissaText(digits, dot)| ==> !IsExpChar(MantissaText(digits, dot)[k])
    ensures IsDigit(MantissaText(digits, dot)[0])
    ensures forall k :: 0 <= k < |MantissaText(digits, dot)| ==> IsDigit(MantissaText(digits, dot)[k]) || MantissaText(digits, dot)[k] == '.'
  {
    var m := MantissaText(digits, dot);
    forall k | 0 <= k < |m| ensures IsDigit(m[k]) || m[k] == '.' {
      if dot <= 0 {
        assert m == "0." + Zeros(-dot) + digits;
      } else if dot >= |digits| {
        assert m == digits;
      } else {
        assert m == digits[..dot] + "." + digits[dot..];
      }
    }
  }

  lemma {:induction false} ExpIndex(m: string, n: int)
    requires forall k :: 0 <= k < |m| ==> !IsExpChar(m[k])
    ensures IndexOfExp(m + ExponentSuffix(n)) == |m|
  {
    var s := m + ExponentSuffix(n);
    assert n != 0 ==> s[|m|] == 'E';
  }

  lemma {:induction false} ExponentSuffixTail(n: int)
    requires n != 0
    ensures ExponentSuffix(n)[0] == 'E' && ExponentSuffix(n)[1..] == SignedText(n)
  {
  }

  lemma {:induction false} UnsignedFields(body: string, m: string, mant: Mantissa, n: int)
    requires |m| <= |body| && body[..|m|] == m && IndexOfExp(body) == |m|
    requires ParseMantissa(m) == Some(mant)
    requires (if |m| < |body| then ParseSigned(body[|m| + 1..]) else Some(0)) == Some(n)
    ensures ParseUnsigned(body).Some?
    ensures ParseUnsigned(body).value.0 == mant.value && ParseUnsigned(body).value.1 == n - mant.scale
  {
  }

  /** `ParseUnsigned` from its three parts: where the exponent starts, what
      the mantissa before it reads as, and what the exponent reads as. */
  lemma {:induction false} UnsignedFromParts(body: string, m: string, mant: Mantissa, n: int)
    requires |m| <= |body| && body[..|m|] == m && IndexOfExp(body) == |m|
    requires ParseMantissa(m) == Some(mant)
    requires (if |m| < |body| then ParseSigned(body[|m| + 1..]) else Some(0)) == Some(n)
    ensures ParseUnsigned(body) == Some((mant.value, n - mant.scale))
  {
    UnsignedFields(body, m, mant, n);
    var r := ParseUnsigned(body);
    var t: (nat, int) := (mant.value, n - mant.scale);
    assert r.value.0 == t.0 && r.value.1 == t.1;
    assert r.value == t;
  }

  lemma {:induction false} ExponentPart(m: string, n: int)
    ensures var body := m + ExponentSuffix(n);
      (if |m| < |body| then ParseSigned(body[|m| + 1..]) else Some(0)) == Some(n)
  {
    var body := m + ExponentSuffix(n);
    if n != 0 {
      ExponentSuffixTail(n);
      assert body[|m| + 1..] == ExponentSuffix(n)[1..];
      SignedTextParses(n);
    } else {
      assert |body| == |m|;
    }
  }

  lemma {:induction false} UnsignedParsesAt(m: string, mant: Mantissa, n: int)
    requires ParseMantissa(m) == Some(mant)
    requires forall k :: 0 <= k < |m| ==> !IsExpChar(m[k])
    ensures ParseUnsigned(m + ExponentSuffix(n)) == Some((mant.value, n - mant.scale))
  {
    var body := m + ExponentSuffix(n);
    ExpIndex(m, n);
    assert body[..|m|] == m;
    ExponentPart(m, n);
    UnsignedFromParts(body, m, mant, n);
  }

  lemma {:induction false} UnsignedParses(digits: string, dot: int, n: int)
    requires digits != [] && AllDigits(digits) && dot <= |digits|
    ensures ParseUnsigned(MantissaText(digits, dot) + ExponentSuffix(n)) == Some((DigitsValue(digits), n - (|digits| - dot)))
  {
    var k: nat := |digits| - dot;
    var m := MantissaText(digits, dot);
    var mant := Mantissa(DigitsValue(digits), k);
    MantissaParses(digits, dot, k);
    MantissaChars(digits, dot);
    UnsignedParsesAt(m, mant, n);
    assert (mant.value, n - mant.scale) == (DigitsValue(digits), n - (|digits| - dot));
  }

  lemma {:induction false} ParseSignedBody(core: string, c: nat, e: int, neg: bool)
    requires core != [] && IsDigit(core[0])
    requires ParseUnsigned(core).Some? && ParseUnsigned(core).value.0 == c && ParseUnsigned(core).value.1 == e
    ensures ParseNumeric((if neg then "-" else "") + core).Some?
    ensures ParseNumeric((if neg then "-" else "") + core).value.coef == (if neg then -(c as int) else c)
    ensures ParseNumeric((if neg then "-" else "") + core).value.exp == e
  {
    if neg {
      ParseNegativeBody(core, c, e);
    } else {
      assert "" + core == core;
      ParsePositiveBody(core, c, e);
    }
  }

  lemma {:induction false} ParseNegativeBody(core: string, c: nat, e: int)
    requires core != [] && IsDigit(core[0])
    requires ParseUnsigned(core) == Some((c, e))
    ensures ParseNumeric("-" + core) == Some(Decimal(-(c as int), e))
  {
    var s := "-" + core;
    assert s != [] && s[0] == '-' && s[1..] == core;
  }

  lemma {:induction false} ParsePositiveBody(core: string, c: nat, e: int)
    requires core != [] && IsDigit(core[0])
    requires ParseUnsigned(core) == Some((c, e))
    ensures ParseNumeric(core) == Some(Decimal(c, e))
  {
    assert core[0] != '-' && core[0] != '+';
  }

  lemma {:induction false} DecimalToStringParts(d: Decimal)
    ensures var digits := NatToString(Abs(d.coef));
      DecimalToString(d) == (if d.coef < 0 then "-" else "")
        + (MantissaText(digits, DotPlace(d)) + ExponentSuffix(d.exp + |digits| - DotPlace(d)))
  {
  }

  /** Rendering a decimal and reading it back gives the same coefficient and
      exponent (trailing zeros included): `Decimal(str(d)) == d`. */
  lemma {:induction false} ParseNumericString(d: Decimal)
    ensures ParseNumeric(DecimalToString(d)) == Some(d)
  {
    var digits := NatToString(Abs(d.coef));
    var left := d.exp + |digits|;
    var dot := DotPlace(d);
    var core := MantissaText(digits, dot) + ExponentSuffix(left - dot);
    DotPlaceBound(d);
    MantissaChars(digits, dot);
    UnsignedParses(digits, dot, left - dot);
    NatToStringValue(Abs(d.coef));
    assert core[0] == MantissaText(digits, dot)[0];
    var u := ParseUnsigned(core);
    assert u.value.0 == Abs(d.coef) && u.value.1 == d.exp;
    ParseSignedBody(core, Abs(d.coef), d.exp, d.coef < 0);
    DecimalToStringParts(d);
    var r := ParseNumeric(DecimalToString(d));
    assert r.value.coef == d.coef && r.value.exp == d.exp;
    assert r.value == d;
  }

  /** The characters `str(d)` can produce. */
  predicate NumChar(c: char) {
    IsDigit(c) || c == '-' || c == '+' || c == '.' || c == 'E'
  }

  predicate NumText(s: string) {
    forall k :: 0 <= k < |s| ==> NumChar(s[k])
  }

  lemma {:induction false} NumTextConcat(a: string, b: string)
    requires NumText(a) && NumText(b)
    ensures NumText(a + b)
  {
    forall k | 0 <= k < |a + b| ensures NumChar((a + b)[k]) {
      if k >= |a| {
        assert (a + b)[k] == b[k - |a|];
      }
    }
  }

  lemma {:induction false} ExponentSuffixChars(n: int)
    ensures NumText(ExponentSuffix(n))
  {
    if n != 0 {
      var a: nat := if n < 0 then -n else n;
      var d := NatToString(a);
      assert NumText(d);
      if n < 0 {
        assert SignedText(n) == "-" + d;
      } else {
        assert SignedText(n) == "+" + d;
      }
      NumTextConcat(if n >= 0 then "+" else "-", d);
      NumTextConcat("E", SignedText(n));
    }
  }

  /** `str(d)` uses only digits, the signs, the point and `E`. */
  lemma {:induction false} DecimalToStringChars(d: Decimal)
    ensures NumText(DecimalToString(d))
  {
    var digits := NatToString(Abs(d.coef));
    var dot := DotPlace(d);
    var m := MantissaText(digits, dot);
    var x := ExponentSuffix(d.exp + |digits| - dot);
    DotPlaceBound(d);
    MantissaChars(digits, dot);
    assert NumText(m);
    ExponentSuffixChars(d.exp + |digits| - dot);
    NumTextConcat(m, x);
    NumTextConcat(if d.coef < 0 then "-" else "", m + x);
    DecimalToStringParts(d);
  }

  /** `Decimal(str(d)) == d` through the string constructor. */
  lemma {:induction false} ParseDecimalString(d: Decimal)
    ensures ParseDecimal(DecimalToString(d)) == Some(d)
  {
    var r := DecimalToString(d);
    DecimalToStringChars(d);
    assert !IsSpace(r[0]) && !IsSpace(r[|r| - 1]);
    assert forall k :: 0 <= k < |r| ==> r[k] != '_';
    StripNoSpace(r);
    RemoveAbsentChar(r, '_');
    ParseNumericString(d);
  }

  /** `str(Decimal(i)) == str(i)`. */
  lemma {:induction false} IntegralDecimalString(i: int)
    ensures DecimalToString(FromInt(i)) == IntToString(i)
  {
    var digits := NatToString(Abs(i));
    DecimalToStringParts(FromInt(i));
    MantissaTextWhole(digits);
  }

  /** `Decimal(str(i))` is exactly the integer `i` with exponent 0. */
  lemma {:induction false} ParseIntString(i: int)
    ensures ParseDecimal(IntToString(i)) == Some(FromInt(i))
  {
    IntegralDecimalString(i);
    ParseDecimalString(FromInt(i));
  }
}
