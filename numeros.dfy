/** `app/utils/numeros.py`: the lenient conversion to `Decimal` and the
    pt-BR to dot-decimal normalisation of typed-in numbers. */
module Numeros {
  import opened PyText
  import opened PyDecimal
  import opened PyValues

  /** A string that does not start like a number is not one. */
  lemma {:induction false} BadStartNotNumeric(t: string)
    requires t != [] && !IsDigit(t[0]) && t[0] != '.' && t[0] != '-' && t[0] != '+'
    ensures ParseNumeric(t) == None
  {
    var e := IndexOfExp(t);
    var m := t[..e];
    if e > 0 {
      assert m[0] == t[0];
      assert IndexOf(m, '.') > 0;
      assert !AllDigits(m[..IndexOf(m, '.')]);
    }
    assert ParseMantissa(m) == None;
  }

  /** `Decimal("True")` and `Decimal("False")` are not numbers. */
  lemma {:induction false} BoolTextNotDecimal(b: bool)
    ensures ParseDecimal(Str(PyBool(b))) == None
  {
    var t := Str(PyBool(b));
    assert t == if b then "True" else "False";
    assert '_' !in t;
    WordNotDecimal(t);
  }

  /** Text with no blank ends and no underscore, starting with a character
      that cannot start a number, is not a number. */
  lemma {:induction false} WordNotDecimal(t: string)
    requires t != [] && !IsSpace(t[0]) && !IsSpace(t[|t| - 1]) && '_' !in t
    requires !IsDigit(t[0]) && t[0] != '.' && t[0] != '-' && t[0] != '+'
    ensures ParseDecimal(t) == None
  {
    StripNoSpace(t);
    RemoveAbsentChar(t, '_');
    BadStartNotNumeric(t);
  }

  /** `to_decimal(value)`: `None` is 0, a decimal is returned as it is, and
      anything else goes through `Decimal(str(value))`, with 0 when that
      string is not a number. */
  function ToDecimal(v: PyValue): (d: Decimal)
    ensures v.PyNone? ==> d == Zero
    ensures v.PyDec? ==> d == v.d
    ensures v.PyInt? ==> d == FromInt(v.i) && ToReal(d) == v.i as real
    ensures v.PyBool? ==> d == Zero
    ensures v.PyStr? && ParseDecimal(v.s).None? ==> d == Zero
  {
    match v
    case PyNone => Zero
    case PyDec(x) => x
    case PyInt(i) =>
      ParseIntString(i);
      ParseDecimal(Str(v)).value
    case PyBool(b) =>
      BoolTextNotDecimal(b);
      Zero
    case PyStr(s) =>
      match ParseDecimal(s)
      case Some(x) => x
      case None => Zero
  }

  /** A decimal written out with `str` converts back to the same decimal. */
  lemma {:induction false} ToDecimalOfString(d: Decimal)
    ensures ToDecimal(PyStr(DecimalToString(d))) == d
  {
    ParseDecimalString(d);
  }

  /** The text branch of `normalizar_numero_ptbr`: drop every `.` (thousands
      separator), then turn every `,` (decimal comma) into `.`. */
  function NormalizeText(t: string): (r: string)
    ensures ',' !in r
    ensures |r| <= |t|
    ensures '.' in r <==> ',' in t
    ensures forall c :: c != '.' && c != ',' ==> (c in r <==> c in t)
  {
    var u := RemoveChar(t, '.');
    var r := ReplaceChar(u, ',', '.');
    RemoveCharMembers(t, '.');
    assert forall c :: c in r <==> exists k :: 0 <= k < |u| && r[k] == c;
    r
  }

  /** `normalizar_numero_ptbr(value)`. */
  function NormalizarNumeroPtbr(v: PyValue): (r: string)
    ensures v.PyNone? ==> r == "0"
    ensures v.PyBool? || v.PyInt? || v.PyDec? ==> r == Str(v)
    ensures v.PyStr? && IsBlank(v.s) ==> r == "0"
    ensures v.PyStr? && !IsBlank(v.s) ==> r == NormalizeText(Strip(v.s))
  {
    match v
    case PyNone => "0"
    case PyStr(s) =>
      var t := Strip(s);
      if t == [] then "0" else NormalizeText(t)
    case _ => Str(v)
  }

  /** Text never comes out of the normalisation with a comma in it. */
  lemma {:induction false} NormalizedHasNoComma(s: string)
    ensures ',' !in NormalizarNumeroPtbr(PyStr(s))
  {
  }

  lemma {:induction false} RemoveCharConcat(a: string, b: string, c: char)
    ensures RemoveChar(a + b, c) == RemoveChar(a, c) + RemoveChar(b, c)
  {
    if a != [] {
      RemoveCharConcat(a[1..], b, c);
      assert (a + b)[1..] == a[1..] + b;
    } else {
      assert a + b == b;
    }
  }

  /** Removing a character from `x + c + y` when neither part contains it. */
  lemma {:induction false} RemoveOneChar(x: string, y: string, c: char)
    requires c !in x && c !in y
    ensures RemoveChar(x + [c] + y, c) == x + y
  {
    assert x + [c] + y == x + ([c] + y);
    RemoveCharConcat(x, [c] + y, c);
    RemoveCharConcat([c], y, c);
    assert [c][1..] == [];
    assert RemoveChar([c], c) == [];
    RemoveAbsentChar(x, c);
    RemoveAbsentChar(y, c);
  }

  /** Replacing a character in `x + a + y` when neither part contains it. */
  lemma {:induction false} ReplaceOneChar(x: string, y: string, a: char, b: char)
    requires a !in x && a !in y
    ensures ReplaceChar(x + [a] + y, a, b) == x + [b] + y
  {
    var s := x + [a] + y;
    var r := ReplaceChar(s, a, b);
    forall i | 0 <= i < |r| ensures r[i] == (x + [b] + y)[i] {
      if i < |x| {
        assert s[i] == x[i];
      } else if i > |x| {
        assert s[i] == y[i - |x| - 1];
      }
    }
  }

  lemma {:induction false} NormalizeTrimmed(t: string)
    requires t != [] && !IsSpace(t[0]) && !IsSpace(t[|t| - 1])
    ensures NormalizarNumeroPtbr(PyStr(t)) == NormalizeText(t)
  {
    StripNoSpace(t);
  }

  /** The example in the docstring of `normalizar_numero_ptbr`: "1.234,56" becomes "1234.56". */
  lemma {:induction false} NormalizeExample()
    ensures NormalizarNumeroPtbr(PyStr("1.234,56")) == "1234.56"
  {
    var a := "1.234,56";
    calc {
      NormalizarNumeroPtbr(PyStr(a));
    == { assert !IsSpace(a[0]) && !IsSpace(a[|a| - 1]); NormalizeTrimmed(a); }
      NormalizeText(a);
    ==
      ReplaceChar(RemoveChar(a, '.'), ',', '.');
    == { assert a == "1" + ['.'] + "234,56"; RemoveOneChar("1", "234,56", '.'); }
      ReplaceChar("1" + "234,56", ',', '.');
    == { assert "1" + "234,56" == "1234" + [','] + "56"; }
      ReplaceChar("1234" + [','] + "56", ',', '.');
    == { ReplaceOneChar("1234", "56", ',', '.'); }
      "1234" + ['.'] + "56";
    ==
      "1234.56";
    }
  }

  /** A dot is always a thousands separator: "1.5" becomes "15". */
  lemma {:induction false} NormalizeDotExample()
    ensures NormalizeText("1.5") == "15"
  {
    assert "1.5" == "1" + ['.'] + "5";
    RemoveOneChar("1", "5", '.');
    var r := ReplaceChar("15", ',', '.');
    assert r == "15";
  }

  /** Blank text counts as zero. */
  lemma {:induction false} NormalizeBlank()
    ensures NormalizarNumeroPtbr(PyStr(" \t ")) == "0"
  {
    StripEmptyIffAllSpace(" \t ");
  }
}
