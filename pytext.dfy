/** The Python (and JavaScript) string operations the helpers are built from,
    written out over `seq<char>`: whitespace, `strip`, `lower`, `split`,
    `join`, `startswith`, `in`, single-character `replace`, and the decimal
    rendering and parsing of integers that `str(int)` and `int(str)` perform. */
module PyText {

  /** Python's `str.isspace` for one character. */
  predicate IsSpace(c: char) {
    var n := c as int;
    n == 0x20 || 0x09 <= n <= 0x0D || 0x1C <= n <= 0x1F || n == 0x85 || n == 0xA0
    || n == 0x1680 || 0x2000 <= n <= 0x200A || n == 0x2028 || n == 0x2029
    || n == 0x202F || n == 0x205F || n == 0x3000
  }

  predicate IsDigit(c: char) {
    '0' <= c <= '9'
  }

  predicate AllDigits(s: string) {
    forall i :: 0 <= i < |s| ==> IsDigit(s[i])
  }

  predicate NoneIn(s: string, p: char -> bool) {
    forall i :: 0 <= i < |s| ==> !p(s[i])
  }

  /** Drops the leading characters satisfying `drop`. */
  function LStripWhere(s: string, drop: char -> bool): (r: string)
    ensures |r| <= |s| && r == s[|s| - |r|..]
    ensures forall k :: 0 <= k < |s| - |r| ==> drop(s[k])
    ensures r == [] || !drop(r[0])
    decreases |s|
  {
    if s != [] && drop(s[0]) then LStripWhere(s[1..], drop) else s
  }

  /** Drops the trailing characters satisfying `drop`. */
  function RStripWhere(s: string, drop: char -> bool): (r: string)
    ensures |r| <= |s| && r == s[..|r|]
    ensures forall k :: |r| <= k < |s| ==> drop(s[k])
    ensures r == [] || !drop(r[|r| - 1])
    decreases |s|
  {
    if s != [] && drop(s[|s| - 1]) then RStripWhere(s[..|s| - 1], drop) else s
  }

  /** `s.strip(chars)`: both ends, characters chosen by `drop`. */
  function StripWhere(s: string, drop: char -> bool): (r: string)
    ensures r == [] || (!drop(r[0]) && !drop(r[|r| - 1]))
    ensures |r| <= |s|
  {
    RStripWhere(LStripWhere(s, drop), drop)
  }

  /** `s.strip()`. */
  function Strip(s: string): (r: string)
    ensures r == [] || (!IsSpace(r[0]) && !IsSpace(r[|r| - 1]))
  {
    StripWhere(s, IsSpace)
  }

  /** A string is blank when `s.strip()` is empty. */
  predicate IsBlank(s: string) {
    Strip(s) == []
  }

  lemma {:induction false} StripEmptyIffAllSpace(s: string)
    ensures Strip(s) == [] <==> forall i :: 0 <= i < |s| ==> IsSpace(s[i])
  {
    var l := LStripWhere(s, IsSpace);
    if l == [] {
    } else {
      assert !IsSpace(l[0]);
      assert |RStripWhere(l, IsSpace)| > 0;
      assert l[0] == s[|s| - |l|];
    }
  }

  /** Lower-cases one character: ASCII and the Latin-1 capitals (À-Þ except ×). */
  function LowerChar(c: char): (d: char)
    ensures IsDigit(c) <==> IsDigit(d)
    ensures IsSpace(c) <==> IsSpace(d)
  {
    if 'A' <= c <= 'Z' then (c as int + 32) as char
    else if 0xC0 <= c as int <= 0xDE && c as int != 0xD7 then (c as int + 32) as char
    else c
  }

  /** `s.lower()` (Python) and `s.toLowerCase()` (JavaScript). */
  function Lower(s: string): (r: string)
    ensures |r| == |s|
    ensures forall i :: 0 <= i < |s| ==> r[i] == LowerChar(s[i])
  {
    seq(|s|, i requires 0 <= i < |s| => LowerChar(s[i]))
  }

  /** `s.startswith(p)`. */
  predicate StartsWith(s: string, p: string) {
    |p| <= |s| && s[..|p|] == p
  }

  /** `t in s` (Python) and `s.includes(t)` (JavaScript). */
  predicate Contains(s: string, t: string)
    decreases |s|
  {
    StartsWith(s, t) || (s != [] && Contains(s[1..], t))
  }

  lemma {:induction false} ContainsAt(s: string, t: string, i: nat)
    requires i + |t| <= |s| && s[i..i + |t|] == t
    ensures Contains(s, t)
    decreases i
  {
    if i > 0 {
      assert s[1..][i - 1..i - 1 + |t|] == s[i..i + |t|];
      ContainsAt(s[1..], t, i - 1);
    }
  }

  /** Index of the first `c` in `s`, or `|s|` when there is none. */
  function IndexOf(s: string, c: char): (i: nat)
    ensures i <= |s|
    ensures i < |s| ==> s[i] == c
    ensures forall k :: 0 <= k < i ==> s[k] != c
  {
    if s == [] then 0
    else if s[0] == c then 0
    else 1 + IndexOf(s[1..], c)
  }

  /** `s.split(sep)` for a one-character separator. */
  function Split(s: string, sep: char): (r: seq<string>)
    ensures |r| >= 1
    ensures forall k :: 0 <= k < |r| ==> sep !in r[k]
    decreases |s|
  {
    var i := IndexOf(s, sep);
    if i == |s| then [s] else [s[..i]] + Split(s[i + 1..], sep)
  }

  /** `sep.join(parts)`. */
  function Join(sep: string, parts: seq<string>): string {
    if parts == [] then []
    else if |parts| == 1 then parts[0]
    else parts[0] + sep + Join(sep, parts[1..])
  }

  /** A join starts with its first part. */
  lemma {:induction false} JoinStartsWithFirst(sep: string, parts: seq<string>)
    requires parts != []
    ensures StartsWith(Join(sep, parts), parts[0])
  {
  }

  /** Splitting on a character and joining with it gives the string back. */
  lemma {:induction false} JoinSplit(s: string, sep: char)
    ensures Join([sep], Split(s, sep)) == s
    decreases |s|
  {
    var i := IndexOf(s, sep);
    if i < |s| {
      JoinSplit(s[i + 1..], sep);
      assert Split(s, sep) == [s[..i]] + Split(s[i + 1..], sep);
      assert s == s[..i] + [sep] + s[i + 1..];
    }
  }

  /** Length of the longest prefix of `s` with no whitespace. */
  function WordLength(s: string): (n: nat)
    ensures n <= |s|
    ensures forall k :: 0 <= k < n ==> !IsSpace(s[k])
    ensures n < |s| ==> IsSpace(s[n])
  {
    if s == [] || IsSpace(s[0]) then 0 else 1 + WordLength(s[1..])
  }

  /** A word of `split()`: non-empty, no whitespace. */
  predicate IsWord(w: string) {
    w != [] && NoneIn(w, IsSpace)
  }

  /** `s.split()` with no separator: the maximal runs of non-whitespace. */
  function SplitWs(s: string): (r: seq<string>)
    ensures forall k :: 0 <= k < |r| ==> IsWord(r[k])
    decreases |s|
  {
    var t := LStripWhere(s, IsSpace);
    if t == [] then []
    else
      var n := WordLength(t);
      FirstWord(t);
      var rest := SplitWs(t[n..]);
      WordsCons(t[..n], rest);
      [t[..n]] + rest
  }

  lemma {:induction false} WordsCons(w: string, rest: seq<string>)
    requires IsWord(w) && forall k :: 0 <= k < |rest| ==> IsWord(rest[k])
    ensures forall k :: 0 <= k < |[w] + rest| ==> IsWord(([w] + rest)[k])
  {
    forall k | 0 <= k < |[w] + rest| ensures IsWord(([w] + rest)[k]) {
      if k > 0 {
        assert ([w] + rest)[k] == rest[k - 1];
      }
    }
  }

  /** A text that starts with a non-space starts with a word. */
  lemma {:induction false} FirstWord(t: string)
    requires t != [] && !IsSpace(t[0])
    ensures 0 < WordLength(t) && IsWord(t[..WordLength(t)])
  {
    var n := WordLength(t);
    forall i | 0 <= i < n ensures !IsSpace(t[..n][i]) {
      assert t[..n][i] == t[i];
    }
  }

  /** A leading whitespace character does not change `split()`. */
  lemma {:induction false} SplitWsSpace(s: string)
    requires s != [] && IsSpace(s[0])
    ensures SplitWs(s) == SplitWs(s[1..])
  {
    var t := LStripWhere(s[1..], IsSpace);
    assert LStripWhere(s, IsSpace) == t;
    assert t == [] || !IsSpace(t[0]);
    if t != [] {
      assert LStripWhere(t, IsSpace) == t;
    }
  }

  /** The first word of `a + b` is that of `a` when `b` is empty or starts
      with whitespace. */
  lemma {:induction false} WordLengthAppend(a: string, b: string)
    requires b == [] || IsSpace(b[0])
    ensures WordLength(a + b) == WordLength(a)
    decreases |a|
  {
    if a != [] && !IsSpace(a[0]) {
      assert (a + b)[1..] == a[1..] + b;
      WordLengthAppend(a[1..], b);
    }
  }

  /** `split()` of a text that starts with a word: that word, then the
      split of the rest. */
  lemma {:induction false} SplitWsWord(s: string)
    requires s != [] && !IsSpace(s[0])
    ensures 0 < WordLength(s)
    ensures SplitWs(s) == [s[..WordLength(s)]] + SplitWs(s[WordLength(s)..])
  {
    assert LStripWhere(s, IsSpace) == s;
    FirstWord(s);
  }

  /** Every character of `b` is whitespace. */
  predicate AllSpace(b: string) {
    forall k :: 0 <= k < |b| ==> IsSpace(b[k])
  }

  /** Trailing whitespace does not change `split()`. */
  lemma {:induction false} SplitWsTrailing(a: string, b: string)
    requires AllSpace(b)
    ensures SplitWs(a + b) == SplitWs(a)
    decreases |a| + |b|, 1
  {
    if a == [] {
      if b != [] {
        TrailingOnly(b);
      } else {
        assert a + b == a;
      }
    } else if IsSpace(a[0]) {
      TrailingAfterSpace(a, b);
    } else {
      TrailingAfterWord(a, b);
    }
  }

  /** `SplitWsTrailing` when there is nothing before the whitespace. */
  lemma {:induction false} TrailingOnly(b: string)
    requires AllSpace(b) && b != []
    ensures SplitWs([] + b) == SplitWs([])
    decreases |b|, 0
  {
    assert AllSpace(b[1..]) by {
      forall k | 0 <= k < |b| - 1 ensures IsSpace(b[1..][k]) {
        assert b[1..][k] == b[k + 1];
      }
    }
    calc {
      SplitWs([] + b);
      { assert [] + b == b; }
      SplitWs(b);
      { SplitWsSpace(b); }
      SplitWs(b[1..]);
      { assert [] + b[1..] == b[1..]; }
      SplitWs([] + b[1..]);
      { SplitWsTrailing([], b[1..]); }
      SplitWs([]);
    }
  }

  /** `SplitWsTrailing` when the text starts with whitespace. */
  lemma {:induction false} TrailingAfterSpace(a: string, b: string)
    requires AllSpace(b) && a != [] && IsSpace(a[0])
    ensures SplitWs(a + b) == SplitWs(a)
    decreases |a| + |b|, 0
  {
    calc {
      SplitWs(a + b);
      { SplitWsSpace(a + b); }
      SplitWs((a + b)[1..]);
      { assert (a + b)[1..] == a[1..] + b; }
      SplitWs(a[1..] + b);
      { SplitWsTrailing(a[1..], b); }
      SplitWs(a[1..]);
      { SplitWsSpace(a); }
      SplitWs(a);
    }
  }

  /** `SplitWsTrailing` when the text starts with a word. */
  lemma {:induction false} TrailingAfterWord(a: string, b: string)
    requires AllSpace(b) && a != [] && !IsSpace(a[0])
    ensures SplitWs(a + b) == SplitWs(a)
    decreases |a| + |b|, 0
  {
    var n := WordLength(a);
    SplitWsWord(a);
    SplitWsWordBefore(a, b);
    SplitWsTrailing(a[n..], b);
  }

  /** The first word of `a` is the first word of `a + b` when `b` starts
      with whitespace, and the split goes on in `a[n..] + b`. */
  lemma {:induction false} SplitWsWordBefore(a: string, b: string)
    requires a != [] && !IsSpace(a[0]) && (b == [] || IsSpace(b[0]))
    ensures SplitWs(a + b) == [a[..WordLength(a)]] + SplitWs(a[WordLength(a)..] + b)
  {
    var n := WordLength(a);
    calc {
      SplitWs(a + b);
    == { SplitWsWord(a + b); }
      [(a + b)[..WordLength(a + b)]] + SplitWs((a + b)[WordLength(a + b)..]);
    == { WordLengthAppend(a, b); }
      [(a + b)[..n]] + SplitWs((a + b)[n..]);
    == { assert (a + b)[..n] == a[..n]; assert (a + b)[n..] == a[n..] + b; }
      [a[..n]] + SplitWs(a[n..] + b);
    }
  }

  /** `s.strip().split() == s.split()`. */
  lemma {:induction false} SplitWsStrip(s: string)
    ensures SplitWs(Strip(s)) == SplitWs(s)
  {
    var l := LStripWhere(s, IsSpace);
    var r := RStripWhere(l, IsSpace);
    var b := l[|r|..];
    assert l == r + b;
    assert Strip(s) == r;
    assert AllSpace(b) by {
      forall k | 0 <= k < |b| ensures IsSpace(b[k]) {
        assert b[k] == l[|r| + k];
      }
    }
    calc {
      SplitWs(Strip(s));
      SplitWs(r);
      { SplitWsTrailing(r, b); }
      SplitWs(r + b);
      SplitWs(l);
      { SplitWsLStrip(s); }
      SplitWs(s);
    }
  }

  /** Leading whitespace does not change `split()`. */
  lemma {:induction false} SplitWsLStrip(s: string)
    ensures SplitWs(LStripWhere(s, IsSpace)) == SplitWs(s)
  {
    var l := LStripWhere(s, IsSpace);
    if l != [] {
      assert LStripWhere(l, IsSpace) == l;
    }
  }

  /** `split()` undoes joining words with single spaces. */
  lemma {:induction false} SplitWsJoin(words: seq<string>)
    requires forall k :: 0 <= k < |words| ==> IsWord(words[k])
    ensures SplitWs(Join(" ", words)) == words
    decreases |words|, 1
  {
    if |words| == 1 {
      SplitWsOneWord(words[0]);
    } else if |words| > 1 {
      SplitWsJoinMore(words);
    }
  }

  /** `SplitWsJoin` for two words or more. */
  lemma {:induction false} SplitWsJoinMore(words: seq<string>)
    requires |words| > 1 && forall k :: 0 <= k < |words| ==> IsWord(words[k])
    ensures SplitWs(Join(" ", words)) == words
    decreases |words|, 0
  {
    var rest := words[1..];
    assert forall k :: 0 <= k < |rest| ==> IsWord(rest[k]) by {
      forall k | 0 <= k < |rest| ensures IsWord(rest[k]) {
        assert rest[k] == words[k + 1];
      }
    }
    calc {
      SplitWs(Join(" ", words));
    == { SplitWsJoinStep(words); }
      [words[0]] + SplitWs(Join(" ", rest));
    == { SplitWsJoin(rest); }
      [words[0]] + rest;
    == { assert [words[0]] + rest == words; }
      words;
    }
  }

  /** One step of `SplitWsJoin`: the first word comes off the front. */
  lemma {:induction false} SplitWsJoinStep(words: seq<string>)
    requires |words| > 1 && IsWord(words[0]) && IsWord(words[1])
    ensures SplitWs(Join(" ", words)) == [words[0]] + SplitWs(Join(" ", words[1..]))
  {
    var t := Join(" ", words[1..]);
    JoinStartsWithFirst(" ", words[1..]);
    assert Join(" ", words) == words[0] + (" " + t);
    SplitWsJoinCons(words[0], t);
  }

  /** A word is its own first word. */
  lemma {:induction false} WordWhole(w: string)
    requires IsWord(w)
    ensures WordLength(w) == |w|
  {
  }

  /** `split()` of a single word. */
  lemma {:induction false} SplitWsOneWord(w: string)
    requires IsWord(w)
    ensures SplitWs(w) == [w]
  {
    WordWhole(w);
    SplitWsWord(w);
    assert w[..|w|] == w && w[|w|..] == [];
  }

  /** A word, a space, then a text that starts with a word: the split is
      the word followed by the split of the text. */
  lemma {:induction false} SplitWsJoinCons(w: string, t: string)
    requires IsWord(w) && t != [] && !IsSpace(t[0])
    ensures SplitWs(w + (" " + t)) == [w] + SplitWs(t)
  {
    var u := " " + t;
    assert u[0] == ' ' && u[1..] == t;
    SplitWsWordThen(w, u);
    SplitWsSpace(u);
  }

  /** A word followed by whitespace: the word, then the split of the rest. */
  lemma {:induction false} SplitWsWordThen(w: string, u: string)
    requires IsWord(w) && u != [] && IsSpace(u[0])
    ensures SplitWs(w + u) == [w] + SplitWs(u)
  {
    WordWhole(w);
    SplitWsWordBefore(w, u);
    assert w[..|w|] == w && w[|w|..] + u == u;
  }

  /** `s.replace(a, b)` for one-character `a` and `b`. */
  function ReplaceChar(s: string, a: char, b: char): (r: string)
    ensures |r| == |s|
    ensures forall i :: 0 <= i < |s| ==> r[i] == (if s[i] == a then b else s[i])
  {
    seq(|s|, i requires 0 <= i < |s| => if s[i] == a then b else s[i])
  }

  /** `s.replace(a, "")`. */
  function RemoveChar(s: string, a: char): (r: string)
    ensures a !in r
    ensures |r| <= |s|
  {
    if s == [] then []
    else if s[0] == a then RemoveChar(s[1..], a)
    else [s[0]] + RemoveChar(s[1..], a)
  }

  /** `s.replace(a, "")` keeps every other character and only those. */
  lemma {:induction false} RemoveCharMembers(s: string, a: char)
    ensures forall c :: c in RemoveChar(s, a) <==> c in s && c != a
  {
    if s != [] {
      RemoveCharMembers(s[1..], a);
      assert s == [s[0]] + s[1..];
    }
  }

  lemma {:induction false} RemoveAbsentChar(s: string, a: char)
    requires a !in s
    ensures RemoveChar(s, a) == s
  {
    if s != [] {
      RemoveAbsentChar(s[1..], a);
    }
  }

  function DigitChar(d: nat): char
    requires d < 10
  {
    ('0' as int + d) as char
  }

  function DigitValue(c: char): nat
    requires IsDigit(c)
  {
    c as int - '0' as int
  }

  /** The number a string of decimal digits denotes. */
  function DigitsValue(s: string): nat
    requires AllDigits(s)
  {
    if s == [] then 0 else DigitsValue(s[..|s| - 1]) * 10 + DigitValue(s[|s| - 1])
  }

  /** `str(n)` for a natural number. */
  function NatToString(n: nat): (r: string)
    ensures r != [] && AllDigits(r)
  {
    if n < 10 then [DigitChar(n)] else NatToString(n / 10) + [DigitChar(n % 10)]
  }

  /** `str(i)` for an integer. */
  function IntToString(i: int): (r: string)
    ensures r != []
  {
    if i < 0 then "-" + NatToString(-i) else NatToString(i)
  }

  lemma {:induction false} NatToStringValue(n: nat)
    ensures DigitsValue(NatToString(n)) == n
  {
    if n >= 10 {
      NatToStringValue(n / 10);
      var s := NatToString(n);
      assert s[..|s| - 1] == NatToString(n / 10);
    }
  }

  /** The body of an integer literal: digits, single `_` allowed between digits. */
  predicate IsDigitGroups(s: string) {
    s != [] && IsDigit(s[0]) && IsDigit(s[|s| - 1])
    && (forall i :: 0 <= i < |s| ==> IsDigit(s[i]) || s[i] == '_')
    && (forall i :: 0 <= i < |s| - 1 ==> !(s[i] == '_' && s[i + 1] == '_'))
  }

  lemma {:induction false} RemoveUnderscoresDigits(s: string)
    requires forall i :: 0 <= i < |s| ==> IsDigit(s[i]) || s[i] == '_'
    ensures AllDigits(RemoveChar(s, '_'))
  {
    var r := RemoveChar(s, '_');
    RemoveCharMembers(s, '_');
    forall i | 0 <= i < |r| ensures IsDigit(r[i]) {
      assert r[i] in r;
      assert r[i] in s;
    }
  }

  /** `int(s)` in base 10: optional surrounding whitespace, optional sign,
      digits with single underscores between them; anything else fails. */
  function ParseInt(s: string): Option<int> {
    ParseSigned(Strip(s))
  }

  /** The sign-and-digits part of `int(s)`, on an already stripped string. */
  function ParseSigned(t: string): Option<int> {
    var neg := t != [] && t[0] == '-';
    var body := if t != [] && (t[0] == '-' || t[0] == '+') then t[1..] else t;
    if !IsDigitGroups(body) then None
    else
      RemoveUnderscoresDigits(body);
      var v: int := DigitsValue(RemoveChar(body, '_'));
      Some(if neg then -v else v)
  }

  lemma {:induction false} StripNoSpace(s: string)
    requires s != [] && !IsSpace(s[0]) && !IsSpace(s[|s| - 1])
    ensures Strip(s) == s
  {
  }

  lemma {:induction false} DigitsAreGroups(d: string)
    requires d != [] && AllDigits(d)
    ensures IsDigitGroups(d) && RemoveChar(d, '_') == d
  {
    assert forall k :: 0 <= k < |d| ==> d[k] != '_';
    RemoveAbsentChar(d, '_');
  }

  lemma {:induction false} ParseDigits(d: string)
    requires d != [] && AllDigits(d)
    ensures ParseSigned(d) == Some(DigitsValue(d) as int)
  {
    DigitsAreGroups(d);
    assert IsDigit(d[0]) && IsDigit(d[|d| - 1]);
    assert d[0] != '-' && d[0] != '+';
  }

  /** A minus sign in front of unsigned text negates what the text reads as. */
  lemma {:induction false} ParseSignedMinus(body: string, v: int)
    requires body != [] && IsDigit(body[0]) && ParseSigned(body) == Some(v)
    ensures ParseSigned("-" + body) == Some(-v)
  {
    var t := "-" + body;
    assert t[0] == '-' && t[1..] == body;
  }

  /** `int(str(i)) == i`. */
  lemma {:induction false} IntToStringParses(i: int)
    ensures ParseInt(IntToString(i)) == Some(i)
  {
    var n: nat := if i < 0 then -i else i;
    var d := NatToString(n);
    NatToStringValue(n);
    assert IsDigit(d[0]) && IsDigit(d[|d| - 1]);
    if i < 0 {
      var s := "-" + d;
      assert s[0] == '-' && s[|s| - 1] == d[|d| - 1];
      StripNoSpace(s);
      ParseDigits(d);
      ParseSignedMinus(d, n);
    } else {
      StripNoSpace(d);
      ParseDigits(d);
    }
  }

  /** Splitting off the last element of `b` on both sides of a list with
      or without `s`. */
  lemma {:induction false} SplitLast<T>(a: seq<T>, s: T, b: seq<T>)
    requires b != []
    ensures a + [s] + b == (a + [s] + b[..|b| - 1]) + [b[|b| - 1]]
    ensures a + b == (a + b[..|b| - 1]) + [b[|b| - 1]]
  {
    assert b == b[..|b| - 1] + [b[|b| - 1]];
  }

  /** `s.strip()` leaves an already stripped string alone. */
  lemma {:induction false} StripIdempotent(s: string)
    ensures Strip(Strip(s)) == Strip(s)
  {
    if Strip(s) != [] {
      StripNoSpace(Strip(s));
    }
  }

  /** Stripping only removes characters. */
  lemma {:induction false} StripKeepsOut(s: string, c: char)
    requires c !in s
    ensures c !in Strip(s)
  {
    var l := LStripWhere(s, IsSpace);
    SliceKeepsOut(s, |s| - |l|, |s|, c);
    var r := RStripWhere(l, IsSpace);
    SliceKeepsOut(l, 0, |r|, c);
  }

  lemma {:induction false} SliceKeepsOut(s: string, a: nat, b: nat, c: char)
    requires a <= b <= |s| && c !in s
    ensures c !in s[a..b]
  {
    forall i | 0 <= i < b - a ensures s[a..b][i] != c {
      assert s[a..b][i] == s[a + i];
    }
  }

  /** `[p.strip() for p in parts if p.strip()]`. */
  function StrippedNonBlank(parts: seq<string>): (r: seq<string>)
    ensures |r| <= |parts|
    ensures forall k :: 0 <= k < |r| ==> r[k] != [] && Strip(r[k]) == r[k]
  {
    if parts == [] then []
    else if IsBlank(parts[0]) then StrippedNonBlank(parts[1..])
    else
      var item := Strip(parts[0]);
      StripIdempotent(parts[0]);
      assert item != [] && Strip(item) == item;
      [item] + StrippedNonBlank(parts[1..])
  }

  /** A character absent from every part is absent from every kept item. */
  lemma {:induction false} StrippedNonBlankKeepsOut(parts: seq<string>, c: char)
    requires forall j :: 0 <= j < |parts| ==> c !in parts[j]
    ensures forall k :: 0 <= k < |StrippedNonBlank(parts)| ==> c !in StrippedNonBlank(parts)[k]
  {
    if parts != [] {
      StripKeepsOut(parts[0], c);
      StrippedNonBlankKeepsOut(parts[1..], c);
    }
  }

  /** Items that are already stripped and non-blank are all kept, unchanged. */
  lemma {:induction false} StrippedNonBlankOfClean(parts: seq<string>)
    requires forall j :: 0 <= j < |parts| ==> parts[j] != [] && Strip(parts[j]) == parts[j]
    ensures StrippedNonBlank(parts) == parts
  {
    if parts != [] {
      StrippedNonBlankOfClean(parts[1..]);
    }
  }

  /** `[x.strip() for x in s.split(",") if x.strip()]`: the comma-separated
      items of `s`, stripped, blanks dropped. */
  function CsvItems(s: string): (r: seq<string>)
    ensures forall k :: 0 <= k < |r| ==> r[k] != [] && Strip(r[k]) == r[k] && ',' !in r[k]
  {
    StrippedNonBlankKeepsOut(Split(s, ','), ',');
    StrippedNonBlank(Split(s, ','))
  }

  /** Joining separator-free parts and splitting again gives the parts back. */
  lemma {:induction false} SplitJoin(parts: seq<string>, sep: char)
    requires parts != []
    requires forall k :: 0 <= k < |parts| ==> sep !in parts[k]
    ensures Split(Join([sep], parts), sep) == parts
  {
    var a := parts[0];
    if |parts| == 1 {
      assert IndexOf(a, sep) == |a|;
    } else {
      var t := Join([sep], parts[1..]);
      assert Join([sep], parts) == a + [sep] + t;
      SplitStep(a, t, sep);
      SplitJoin(parts[1..], sep);
      assert parts == [a] + parts[1..];
    }
  }

  /** Splitting at the first separator, which follows a separator-free part. */
  lemma {:induction false} SplitStep(a: string, t: string, sep: char)
    requires sep !in a
    ensures Split(a + [sep] + t, sep) == [a] + Split(t, sep)
  {
    var s := a + [sep] + t;
    assert s[|a|] == sep;
    assert forall k :: 0 <= k < |a| ==> s[k] == a[k];
    assert IndexOf(s, sep) == |a|;
    assert s[..|a|] == a && s[|a| + 1..] == t;
  }

  /** Comma-joining clean items and reading them back as CSV is lossless. */
  lemma {:induction false} CsvItemsJoin(items: seq<string>)
    requires forall k :: 0 <= k < |items| ==> items[k] != [] && Strip(items[k]) == items[k] && ',' !in items[k]
    ensures CsvItems(Join(",", items)) == items
  {
    if items == [] {
      assert Split([], ',') == [[]];
    } else {
      SplitJoin(items, ',');
      StrippedNonBlankOfClean(items);
    }
  }

  /** Reading CSV is a normalisation: reading its own output again changes nothing. */
  lemma {:induction false} CsvItemsIdempotent(s: string)
    ensures CsvItems(Join(",", CsvItems(s))) == CsvItems(s)
  {
    CsvItemsJoin(CsvItems(s));
  }

  datatype Option<+T> = None | Some(value: T)
}
