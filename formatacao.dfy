/** `app/utils/formatacao.py`: Brazilian currency text.  `f"{valor:,.2f}"`
    rounds the decimal to cents (the default context rounds half to even),
    groups the integer digits in threes with `,` and writes `.` before the
    cents; the three chained `replace` calls then swap the two separators. */
module Formatacao {
  import opened PyText
  import opened Rounding
  import opened PyDecimal
  import opened PyValues
  import opened Numeros

  /** The digits with `sep` between each group of three, counted from the right. */
  function Grouped(digits: string, sep: char): (r: string)
    ensures |digits| > 0 ==> |r| == |digits| + (|digits| - 1) / 3
    decreases |digits|
  {
    if |digits| <= 3 then digits
    else Grouped(digits[..|digits| - 3], sep) + [sep] + digits[|digits| - 3..]
  }

  /** The two digits of a number of cents below 100, with a leading zero. */
  function TwoDigits(n: nat): (r: string)
    requires n < 100
    ensures |r| == 2 && AllDigits(r) && DigitsValue(r) == n
  {
    var r := [DigitChar(n / 10), DigitChar(n % 10)];
    assert r[..1] == [DigitChar(n / 10)] && r[..1][..0] == [];
    assert DigitsValue(r[..1]) == n / 10;
    r
  }

  /** `f"{x:,.2f}"` for a decimal `x`: the sign of `x`, the grouped whole
      part and two decimals of `x` rounded half to even. */
  function FormatFixed2(x: real): string {
    var m := Abs(RoundHalfEven(x * 100.0));
    (if x < 0.0 then "-" else "") + Grouped(NatToString(m / 100), ',') + "." + TwoDigits(m % 100)
  }

  /** `.replace(",", "X").replace(".", ",").replace("X", ".")`. */
  function SwapSeparators(s: string): (r: string)
    ensures |r| == |s|
    ensures forall i :: 0 <= i < |s| ==>
      r[i] == (if s[i] == ',' || s[i] == 'X' then '.' else if s[i] == '.' then ',' else s[i])
  {
    ReplaceChar(ReplaceChar(ReplaceChar(s, ',', 'X'), '.', ','), 'X', '.')
  }

  /** `formatar_brl(valor)`. */
  function FormatarBrl(v: Option<real>): (r: Option<string>)
    ensures v.None? <==> r.None?
  {
    match v
    case None => None
    case Some(x) => Some(SwapSeparators(FormatFixed2(x)))
  }

  /** Swapping twice gives the text back when it has no `X` of its own; the
      swap moves no character and changes no digit. */
  lemma {:induction false} SwapInvolution(s: string)
    requires 'X' !in s
    ensures SwapSeparators(SwapSeparators(s)) == s
  {
    var r := SwapSeparators(SwapSeparators(s));
    forall i | 0 <= i < |s| ensures r[i] == s[i] {
      assert s[i] != 'X';
    }
  }

  lemma {:induction false} SwapKeepsDigits(s: string)
    ensures forall i :: 0 <= i < |s| ==> (IsDigit(s[i]) <==> IsDigit(SwapSeparators(s)[i]))
    ensures forall i :: 0 <= i < |s| && IsDigit(s[i]) ==> SwapSeparators(s)[i] == s[i]
  {
  }

  lemma {:induction false} GroupedChars(digits: string, sep: char)
    requires AllDigits(digits)
    ensures forall i :: 0 <= i < |Grouped(digits, sep)| ==> IsDigit(Grouped(digits, sep)[i]) || Grouped(digits, sep)[i] == sep
    decreases |digits|
  {
    if |digits| > 3 {
      GroupedChars(digits[..|digits| - 3], sep);
      var a := Grouped(digits[..|digits| - 3], sep);
      var r := Grouped(digits, sep);
      forall i | 0 <= i < |r| ensures IsDigit(r[i]) || r[i] == sep {
        if i < |a| {
          assert r[i] == a[i];
        } else if i > |a| {
          assert r[i] == digits[|digits| - 3 + (i - |a| - 1)];
        }
      }
    }
  }

  /** Swapping the separators of a comma-grouped number gives the dot-grouped one. */
  lemma {:induction false} SwapGrouped(digits: string)
    requires AllDigits(digits)
    ensures SwapSeparators(Grouped(digits, ',')) == Grouped(digits, '.')
    decreases |digits|
  {
    var g := Grouped(digits, ',');
    var h := Grouped(digits, '.');
    GroupedChars(digits, ',');
    GroupedChars(digits, '.');
    if |digits| > 3 {
      SwapGrouped(digits[..|digits| - 3]);
      var a := Grouped(digits[..|digits| - 3], ',');
      var b := Grouped(digits[..|digits| - 3], '.');
      forall i | 0 <= i < |g| ensures SwapSeparators(g)[i] == h[i] {
        if i < |a| {
          assert g[i] == a[i] && h[i] == b[i];
          assert SwapSeparators(a)[i] == b[i];
        } else if i > |a| {
          assert g[i] == h[i];
        }
      }
    } else {
      forall i | 0 <= i < |g| ensures SwapSeparators(g)[i] == h[i] {
      }
    }
  }

  /** Grouping only inserts separators: removing them gives the digits back. */
  lemma {:induction false} UngroupDigits(digits: string, sep: char)
    requires AllDigits(digits) && !IsDigit(sep)
    ensures RemoveChar(Grouped(digits, sep), sep) == digits
    decreases |digits|
  {
    if |digits| <= 3 {
      assert sep !in digits;
      RemoveAbsentChar(digits, sep);
    } else {
      var head := digits[..|digits| - 3];
      var tail := digits[|digits| - 3..];
      UngroupDigits(head, sep);
      assert sep !in tail;
      UngroupStep(Grouped(head, sep), head, tail, sep);
      assert head + tail == digits;
    }
  }

  lemma {:induction false} UngroupStep(g: string, head: string, tail: string, sep: char)
    requires RemoveChar(g, sep) == head && sep !in tail
    ensures RemoveChar(g + [sep] + tail, sep) == head + tail
  {
    var rest := [sep] + tail;
    assert g + [sep] + tail == g + rest;
    RemoveCharConcat(g, rest, sep);
    assert rest[1..] == tail;
    RemoveAbsentChar(tail, sep);
    assert RemoveChar(rest, sep) == tail;
  }

  lemma {:induction false} SwapConcat(a: string, b: string)
    ensures SwapSeparators(a + b) == SwapSeparators(a) + SwapSeparators(b)
  {
    var l := SwapSeparators(a + b);
    var r := SwapSeparators(a) + SwapSeparators(b);
    forall i | 0 <= i < |l| ensures l[i] == r[i] {
      if i >= |a| {
        assert (a + b)[i] == b[i - |a|];
      }
    }
  }

  lemma {:induction false} SwapDigits(t: string)
    requires AllDigits(t)
    ensures SwapSeparators(t) == t
  {
  }

  lemma {:induction false} GroupedHead(digits: string, sep: char)
    requires |digits| > 0
    ensures Grouped(digits, sep)[0] == digits[0]
    decreases |digits|
  {
    if |digits| > 3 {
      GroupedHead(digits[..|digits| - 3], sep);
    }
  }

  /** The sign, the dot-grouped whole part, a comma and the two decimals. */
  function BrlText(negative: bool, cents: nat): string {
    (if negative then "-" else "") + Grouped(NatToString(cents / 100), '.') + "," + TwoDigits(cents % 100)
  }

  /** What `formatar_brl` writes for a number: the sign of the number, the
      whole part of its half-even rounding to cents grouped in threes by
      dots, a comma and the two decimals. */
  lemma {:induction false} FormatarBrlText(x: real)
    ensures FormatarBrl(Some(x)) == Some(BrlText(x < 0.0, Abs(RoundHalfEven(x * 100.0))))
  {
    var m := Abs(RoundHalfEven(x * 100.0));
    var sign := if x < 0.0 then "-" else "";
    var i := NatToString(m / 100);
    var g := Grouped(i, ',');
    var t := TwoDigits(m % 100);
    SwapConcat(sign + g + ".", t);
    SwapConcat(sign + g, ".");
    SwapConcat(sign, g);
    SwapGrouped(i);
    SwapDigits(t);
    assert SwapSeparators(sign) == sign;
    assert SwapSeparators(".") == ",";
  }

  /** The text has exactly one comma, with two digits after it. */
  lemma {:induction false} BrlTextComma(negative: bool, cents: nat)
    ensures var r := BrlText(negative, cents);
      |r| >= 4 && r[|r| - 3] == ',' && IsDigit(r[|r| - 2]) && IsDigit(r[|r| - 1])
      && ',' !in r[..|r| - 3]
  {
    var sign := if negative then "-" else "";
    var g := Grouped(NatToString(cents / 100), '.');
    var t := TwoDigits(cents % 100);
    var r := BrlText(negative, cents);
    GroupedChars(NatToString(cents / 100), '.');
    assert r == (sign + g) + "," + t;
    assert r[..|r| - 3] == sign + g;
    assert forall k :: 0 <= k < |sign + g| ==> (sign + g)[k] != ',';
  }

  /** The whole number 1234.56 is written "1.234,56". */
  lemma {:induction false} FormatarBrlExample()
    ensures FormatarBrl(Some(1234.56)) == Some("1.234,56")
  {
    assert 1234.56 * 100.0 == 123456.0;
    assert (123456.0).Floor == 123456;
    assert RoundHalfEven(1234.56 * 100.0) == 123456;
    FormatarBrlText(1234.56);
    assert 123456 / 100 == 1234 && 123456 % 100 == 56;
    assert NatToString(12) == "12";
    assert NatToString(123) == NatToString(12) + "3";
    assert NatToString(1234) == "1234";
    assert "1234"[..1] == "1" && "1234"[1..] == "234";
    assert Grouped("1234", '.') == "1.234";
    assert TwoDigits(56) == "56";
    assert BrlText(false, 123456) == "1.234,56";
  }

  /** The digits of `cents`, with a point before the last two. */
  function PlainText(negative: bool, cents: nat): string {
    (if negative then "-" else "") + NatToString(cents / 100) + "." + TwoDigits(cents % 100)
  }

  /** Removing the thousands dots from signed, grouped digits. */
  lemma {:induction false} RemoveGroupDots(sign: string, i: string, t: string)
    requires sign == "" || sign == "-"
    requires AllDigits(i) && AllDigits(t)
    ensures RemoveChar(sign + Grouped(i, '.') + "," + t, '.') == sign + i + "," + t
  {
    var g := Grouped(i, '.');
    assert sign + g + "," + t == (sign + g) + ("," + t);
    RemoveCharConcat(sign + g, "," + t, '.');
    RemoveCharConcat(sign, g, '.');
    UngroupDigits(i, '.');
    assert '.' !in sign;
    assert forall k :: 0 <= k < |"," + t| ==> ("," + t)[k] != '.';
    RemoveAbsentChar(sign, '.');
    RemoveAbsentChar("," + t, '.');
  }

  /** Turning the one decimal comma into a point. */
  lemma {:induction false} ReplaceDecimalComma(sign: string, i: string, t: string)
    requires sign == "" || sign == "-"
    requires AllDigits(i) && AllDigits(t)
    ensures ReplaceChar(sign + i + "," + t, ',', '.') == sign + i + "." + t
  {
    var u := sign + i + "," + t;
    var p := sign + i + "." + t;
    var r := ReplaceChar(u, ',', '.');
    forall k | 0 <= k < |r| ensures r[k] == p[k] {
      if k < |sign| {
        assert u[k] == sign[k] == p[k];
      } else if k < |sign| + |i| {
        assert u[k] == i[k - |sign|] == p[k];
      } else if k > |sign| + |i| {
        assert u[k] == t[k - |sign| - |i| - 1] == p[k];
      }
    }
  }

  lemma {:induction false} BrlTextEnds(negative: bool, cents: nat)
    ensures var f := BrlText(negative, cents);
      f != [] && !IsSpace(f[0]) && !IsSpace(f[|f| - 1])
  {
    var i := NatToString(cents / 100);
    GroupedHead(i, '.');
    var f := BrlText(negative, cents);
    var t := TwoDigits(cents % 100);
    assert f[|f| - 1] == t[1];
    if !negative {
      assert f[0] == Grouped(i, '.')[0];
    }
  }

  /** `normalizar_numero_ptbr` turns the currency text back into plain
      dot-decimal notation. */
  lemma {:induction false} BrlNormalizes(negative: bool, cents: nat)
    ensures NormalizarNumeroPtbr(PyStr(BrlText(negative, cents))) == PlainText(negative, cents)
  {
    var sign := if negative then "-" else "";
    var i := NatToString(cents / 100);
    var t := TwoDigits(cents % 100);
    BrlTextEnds(negative, cents);
    NormalizeTrimmed(BrlText(negative, cents));
    RemoveGroupDots(sign, i, t);
    ReplaceDecimalComma(sign, i, t);
  }

  /** A mantissa with no exponent after it reads with the negated scale as
      its exponent. */
  lemma {:induction false} MantissaAlone(m: string, mant: Mantissa)
    requires ParseMantissa(m) == Some(mant)
    requires forall k :: 0 <= k < |m| ==> !IsExpChar(m[k])
    ensures ParseUnsigned(m).Some?
    ensures ParseUnsigned(m).value.0 == mant.value
    ensures ParseUnsigned(m).value.1 == -(mant.scale as int)
  {
    UnsignedParsesAt(m, mant, 0);
    assert m + ExponentSuffix(0) == m;
  }

  lemma {:induction false} PointedHasNoExponent(i: string, t: string)
    requires AllDigits(i) && AllDigits(t)
    ensures forall k :: 0 <= k < |i + "." + t| ==> !IsExpChar((i + "." + t)[k])
  {
    var core := i + "." + t;
    forall k | 0 <= k < |core| ensures !IsExpChar(core[k]) {
      if k < |i| {
        assert core[k] == i[k];
      } else if k > |i| {
        assert core[k] == t[k - |i| - 1];
      }
    }
  }

  /** The unsigned body `i.t` of a plain text reads as `cents` hundredths. */
  lemma {:induction false} PlainBodyParses(i: string, t: string, cents: nat)
    requires i != [] && AllDigits(i) && |t| == 2 && AllDigits(t)
    requires DigitsValue(i) * 100 + DigitsValue(t) == cents
    ensures ParseUnsigned(i + "." + t).Some?
    ensures ParseUnsigned(i + "." + t).value.0 == cents
    ensures ParseUnsigned(i + "." + t).value.1 == -2
  {
    DigitsValueAppend(i, t);
    assert Pow10(|t|) == 100 by {
      assert Pow10(2) == 10 * Pow10(1) && Pow10(1) == 10 * Pow10(0);
    }
    assert DigitsValue(i + t) == cents;
    ParsePointed(i, t, i + t);
    var mant := Mantissa(cents, 2);
    assert ParseMantissa(i + "." + t) == Some(mant);
    PointedHasNoExponent(i, t);
    MantissaAlone(i + "." + t, mant);
  }

  /** A signed plain text needs no stripping and has no underscores. */
  lemma {:induction false} SignedPlainClean(negative: bool, i: string, t: string)
    requires i != [] && AllDigits(i) && |t| == 2 && AllDigits(t)
    ensures var p := (if negative then "-" else "") + (i + "." + t);
      ParseDecimal(p) == ParseNumeric(p)
  {
    var p := (if negative then "-" else "") + (i + "." + t);
    assert p[|p| - 1] == t[1];
    if !negative {
      assert p[0] == i[0];
    }
    StripNoSpace(p);
    forall k | 0 <= k < |p| ensures p[k] != '_' {
      if k >= |p| - |t| {
        assert p[k] == t[k - (|p| - |t|)];
      } else if negative && k > 0 && k <= |i| {
        assert p[k] == i[k - 1];
      } else if !negative && k < |i| {
        assert p[k] == i[k];
      }
    }
    RemoveAbsentChar(p, '_');
  }

  /** `Decimal` reads a signed `i.t` as `cents` hundredths. */
  lemma {:induction false} SignedPlainParses(negative: bool, i: string, t: string, cents: nat)
    requires i != [] && AllDigits(i) && |t| == 2 && AllDigits(t)
    requires DigitsValue(i) * 100 + DigitsValue(t) == cents
    ensures var p := (if negative then "-" else "") + (i + "." + t);
      ParseDecimal(p).Some? && ParseDecimal(p).value.exp == -2
      && ParseDecimal(p).value.coef == (if negative then -(cents as int) else cents)
  {
    SignedPlainClean(negative, i, t);
    PlainBodyParses(i, t, cents);
    ParseSignedBody(i + "." + t, cents, -2, negative);
  }

  /** Parsing a plain two-decimal text with `Decimal`. */
  lemma {:induction false} PlainTextParses(negative: bool, cents: nat)
    ensures ParseDecimal(PlainText(negative, cents)).Some?
    ensures ParseDecimal(PlainText(negative, cents)).value.coef == (if negative then -(cents as int) else cents)
    ensures ParseDecimal(PlainText(negative, cents)).value.exp == -2
  {
    var q := cents / 100;
    var r := cents % 100;
    assert q * 100 + r == cents;
    var i := NatToString(q);
    var t := TwoDigits(r);
    NatToStringValue(q);
    assert DigitsValue(i) == q && DigitsValue(t) == r;
    var p := PlainText(negative, cents);
    assert p == (if negative then "-" else "") + (i + "." + t);
    SignedPlainParses(negative, i, t, cents);
  }

  lemma {:induction false} HundredthsValue(d: Decimal)
    requires d.exp == -2
    ensures ToReal(d) == d.coef as real / 100.0
  {
    assert Pow10(2) == 100 by {
      assert Pow10(2) == 10 * Pow10(1) && Pow10(1) == 10 * Pow10(0);
    }
  }

  /** The currency text of a signed number of cents reads back as that
      number of hundredths. */
  lemma {:induction false} BrlTextReadsBack(negative: bool, cents: nat)
    ensures ToReal(ToDecimal(PyStr(NormalizarNumeroPtbr(PyStr(BrlText(negative, cents))))))
      == (if negative then -(cents as int) else cents) as real / 100.0
  {
    BrlNormalizes(negative, cents);
    var p := PlainText(negative, cents);
    PlainTextParses(negative, cents);
    var d := ParseDecimal(p).value;
    assert ToDecimal(PyStr(p)) == d;
    HundredthsValue(d);
  }

  /** Reading the currency text back: `to_decimal(normalizar_numero_ptbr(
      formatar_brl(x)))` is `x` rounded half to even to cents. */
  lemma {:induction false} FormatarBrlReadsBack(x: real)
    ensures ToReal(ToDecimal(PyStr(NormalizarNumeroPtbr(PyStr(FormatarBrl(Some(x)).value))))) == QEven2(x)
  {
    var c := RoundHalfEven(x * 100.0);
    FormatarBrlText(x);
    BrlTextReadsBack(x < 0.0, Abs(c));
    if x < 0.0 {
      assert c <= 0;
    } else {
      assert c >= 0;
    }
  }
}
