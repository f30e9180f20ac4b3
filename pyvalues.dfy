/** The dynamically typed values the helpers receive: `None`, booleans,
    integers, decimals and strings, with Python's truth test and `str()`. */
module PyValues {
  import opened PyText
  import opened PyDecimal

  datatype PyValue =
    | PyNone
    | PyBool(b: bool)
    | PyInt(i: int)
    | PyDec(d: Decimal)
    | PyStr(s: string)

  /** `bool(v)`: `None`, `False`, zero and the empty string are false. */
  predicate Truthy(v: PyValue) {
    match v
    case PyNone => false
    case PyBool(b) => b
    case PyInt(i) => i != 0
    case PyDec(d) => d.coef != 0
    case PyStr(s) => s != []
  }

  /** `str(v)`. */
  function Str(v: PyValue): string {
    match v
    case PyNone => "None"
    case PyBool(b) => if b then "True" else "False"
    case PyInt(i) => IntToString(i)
    case PyDec(d) => DecimalToString(d)
    case PyStr(s) => s
  }
}
