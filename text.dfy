/** The Python string operations the gateway relies on: searching, prefix
    tests, `str.split` on one character, `str.strip`, `str(n)` for integers,
    `int(s)` for decimal text, ASCII case folding and the lexicographic order
    in which Python compares strings. */
module Text {
  import opened Values

  predicate IsDigit(c: char) { '0' <= c <= '9' }

  function DigitValue(c: char): nat
    requires IsDigit(c)
  {
    c as nat - '0' as nat
  }

  function DigitChar(d: nat): (c: char)
    requires d < 10
    ensures IsDigit(c) && DigitValue(c) == d
  {
    ('0' as nat + d) as char
  }

  predicate AllDigits(s: string)
  {
    forall i :: 0 <= i < |s| ==> IsDigit(s[i])
  }

  /** The value of a string of decimal digits, most significant digit first. */
  function DigitsValue(s: string): nat
    requires AllDigits(s)
  {
    if s == [] then 0 else DigitsValue(s[..|s| - 1]) * 10 + DigitValue(s[|s| - 1])
  }

  /** The digits of n without leading zeros, as `str(n)` writes them. */
  function Digits(n: nat): (s: string)
    ensures 0 < |s| && AllDigits(s)
    ensures n >= 10 ==> s[0] != '0'
  {
    if n < 10 then [DigitChar(n)] else Digits(n / 10) + [DigitChar(n % 10)]
  }

  lemma {:induction false} DigitsValueOfDigits(n: nat)
    ensures DigitsValue(Digits(n)) == n
  {
    if n >= 10 {
      DigitsValueOfDigits(n / 10);
      var s := Digits(n);
      assert s[..|s| - 1] == Digits(n / 10);
    }
  }

  /** `str(n)` for a Python int. */
  function Decimal(n: int): string
  {
    if n < 0 then "-" + Digits(-n) else Digits(n)
  }

  /** Python's default `sys.get_int_max_str_digits()`: `int()` refuses
      decimal text of more digits than this, and `str()` an integer of more
      digits. */
  const MaxStrDigits: nat := 4300

  /** n has few enough digits for `str(n)` to succeed. */
  predicate StrFits(n: int)
  {
    |Digits(if n < 0 then -n else n)| <= MaxStrDigits
  }

  /** `c.isspace()`: the characters Python's `str.strip()` and `int()` skip. */
  predicate IsSpace(c: char)
  {
    var n := c as int;
    n == 32 || 9 <= n <= 13 || 28 <= n <= 31 || n == 0x85 || n == 0xA0 || n == 0x1680
    || 0x2000 <= n <= 0x200A || n == 0x2028 || n == 0x2029 || n == 0x202F || n == 0x205F || n == 0x3000
  }

  function LStrip(s: string): (r: string)
    ensures |r| <= |s| && r == s[|s| - |r|..]
    ensures r != [] ==> !IsSpace(r[0])
    ensures forall i :: 0 <= i < |s| - |r| ==> IsSpace(s[i])
  {
    if s != [] && IsSpace(s[0]) then
      var r := LStrip(s[1..]);
      assert s[1..][|s| - 1 - |r|..] == s[|s| - |r|..];
      assert forall i :: 1 <= i < |s| - |r| ==> s[i] == s[1..][i - 1];
      r
    else s
  }

  function RStrip(s: string): (r: string)
    ensures |r| <= |s| && r == s[..|r|]
    ensures r != [] ==> !IsSpace(r[|r| - 1])
    ensures forall i :: |r| <= i < |s| ==> IsSpace(s[i])
  {
    if s != [] && IsSpace(s[|s| - 1]) then RStrip(s[..|s| - 1]) else s
  }

  /** `s.strip()`. */
  function Strip(s: string): string
  {
    RStrip(LStrip(s))
  }

  /** Text that does not start with a space is its own `lstrip()`. */
  lemma LStripUnpadded(s: string)
    requires s != [] && !IsSpace(s[0])
    ensures LStrip(s) == s
  {
  }

  /** Text that does not end with a space is its own `rstrip()`. */
  lemma RStripUnpadded(s: string)
    requires s != [] && !IsSpace(s[|s| - 1])
    ensures RStrip(s) == s
  {
  }

  lemma StripUnpadded(s: string)
    requires s != [] ==> !IsSpace(s[0]) && !IsSpace(s[|s| - 1])
    ensures Strip(s) == s
  {
    if s != [] {
      LStripUnpadded(s);
      RStripUnpadded(s);
    }
  }

  /** A decimal literal as `int()` reads it: digits, with single underscores
      allowed between two digits. */
  predicate DecimalLiteral(s: string)
  {
    && 0 < |s| && IsDigit(s[0]) && IsDigit(s[|s| - 1])
    && (forall i :: 0 <= i < |s| ==> IsDigit(s[i]) || s[i] == '_')
    && NoDoubleUnderscore(s)
  }

  /** No two underscores stand next to each other. */
  predicate NoDoubleUnderscore(s: string)
  {
    |s| < 2 || (!(s[0] == '_' && s[1] == '_') && NoDoubleUnderscore(s[1..]))
  }

  lemma {:induction false} DigitsHaveNoUnderscore(s: string)
    requires AllDigits(s)
    ensures NoDoubleUnderscore(s)
  {
    if |s| >= 2 {
      assert AllDigits(s[1..]) by {
        forall i | 0 <= i < |s[1..]| ensures IsDigit(s[1..][i]) {
          assert s[1..][i] == s[i + 1];
        }
      }
      DigitsHaveNoUnderscore(s[1..]);
    }
  }

  /** The literal with its underscores removed. */
  function Unseparated(s: string): (r: string)
    requires forall i :: 0 <= i < |s| ==> IsDigit(s[i]) || s[i] == '_'
    ensures AllDigits(r) && |r| <= |s|
    ensures AllDigits(s) ==> r == s
  {
    if s == [] then []
    else if s[|s| - 1] == '_' then Unseparated(s[..|s| - 1])
    else Unseparated(s[..|s| - 1]) + [s[|s| - 1]]
  }

  /** `int()` of text already stripped: an optional sign, then a decimal
      literal of at most `MaxStrDigits` digits (underscores not counted,
      leading zeros counted). */
  function SignedLiteral(t: string): Option<int>
  {
    var signed := |t| > 0 && (t[0] == '-' || t[0] == '+');
    var body := if signed then t[1..] else t;
    if !DecimalLiteral(body) || |Unseparated(body)| > MaxStrDigits then None
    else
      var magnitude: int := DigitsValue(Unseparated(body));
      Some(if signed && t[0] == '-' then -magnitude else magnitude)
  }

  /** `int(s)` for a base-10 string: surrounding whitespace, an optional sign,
      then a decimal literal of at most `MaxStrDigits` digits; None where
      Python raises ValueError. */
  function PyInt(s: string): Option<int>
  {
    SignedLiteral(Strip(s))
  }

  /** The digits of a natural number are a decimal literal denoting it. */
  lemma DigitsLiteral(m: nat)
    ensures DecimalLiteral(Digits(m)) && Unseparated(Digits(m)) == Digits(m)
    ensures DigitsValue(Unseparated(Digits(m))) == m
  {
    DigitsValueOfDigits(m);
    DigitsHaveNoUnderscore(Digits(m));
  }

  /** Unsigned stripped text reads as its literal's value. */
  lemma UnsignedLiteral(t: string)
    requires DecimalLiteral(t)
    ensures SignedLiteral(t) ==
      if |Unseparated(t)| <= MaxStrDigits then Some(DigitsValue(Unseparated(t)) as int) else None
  {
    assert IsDigit(t[0]);
  }

  /** Digits within the limit read as their value; more digits are
      refused. */
  lemma PyIntOfDigits(m: nat)
    ensures |Digits(m)| <= MaxStrDigits ==> PyInt(Digits(m)) == Some(m)
    ensures |Digits(m)| > MaxStrDigits ==> PyInt(Digits(m)) == None
  {
    var s := Digits(m);
    assert IsDigit(s[0]) && IsDigit(s[|s| - 1]);
    LStripUnpadded(s);
    RStripUnpadded(s);
    DigitsLiteral(m);
    UnsignedLiteral(s);
  }

  /** A minus sign before the digits of m reads as -m, within the limit. */
  lemma NegativeLiteral(m: nat)
    ensures SignedLiteral("-" + Digits(m)) == if |Digits(m)| <= MaxStrDigits then Some(-(m as int)) else None
  {
    var d := Digits(m);
    var s := "-" + d;
    assert s[0] == '-' && s[1..] == d;
    DigitsLiteral(m);
    if |d| <= MaxStrDigits {
      assert SignedLiteral(s) == Some(-(DigitsValue(Unseparated(d)) as int));
    }
  }

  lemma PyIntOfNegative(m: nat)
    ensures |Digits(m)| <= MaxStrDigits ==> PyInt("-" + Digits(m)) == Some(-(m as int))
    ensures |Digits(m)| > MaxStrDigits ==> PyInt("-" + Digits(m)) == None
  {
    var d := Digits(m);
    var s := "-" + d;
    assert s[|s| - 1] == d[|d| - 1];
    LStripUnpadded(s);
    RStripUnpadded(s);
    NegativeLiteral(m);
  }

  /** `int(str(n)) == n` wherever `str(n)` succeeds; the text of a longer
      integer is refused by `int()` as well. */
  lemma PyIntOfDecimal(n: int)
    ensures StrFits(n) ==> PyInt(Decimal(n)) == Some(n)
    ensures !StrFits(n) ==> PyInt(Decimal(n)) == None
  {
    if n < 0 {
      var m: nat := -n;
      assert Decimal(n) == "-" + Digits(m);
      PyIntOfNegative(m);
    } else {
      assert Decimal(n) == Digits(n);
      PyIntOfDigits(n);
    }
  }

  function IndexOf(s: string, c: char): (r: Option<nat>)
    ensures r.Some? ==> r.value < |s| && s[r.value] == c && forall k :: 0 <= k < r.value ==> s[k] != c
    ensures r.None? ==> forall k :: 0 <= k < |s| ==> s[k] != c
  {
    if s == [] then None
    else if s[0] == c then Some(0)
    else match IndexOf(s[1..], c)
      case None => None
      case Some(i) => Some(i + 1)
  }

  /** The first occurrence, identified by its position. */
  lemma IndexOfAt(s: string, c: char, i: nat)
    requires i < |s| && s[i] == c && forall k :: 0 <= k < i ==> s[k] != c
    ensures IndexOf(s, c) == Some(i)
  {
  }

  function LastIndexOf(s: string, c: char): (r: Option<nat>)
    ensures r.Some? ==> r.value < |s| && s[r.value] == c && forall k :: r.value < k < |s| ==> s[k] != c
    ensures r.None? ==> forall k :: 0 <= k < |s| ==> s[k] != c
  {
    if s == [] then None
    else if s[|s| - 1] == c then Some(|s| - 1)
    else LastIndexOf(s[..|s| - 1], c)
  }

  predicate StartsWith(s: string, prefix: string)
  {
    |prefix| <= |s| && s[..|prefix|] == prefix
  }

  /** `s.split(sep)` for a one-character separator. */
  function Split(s: string, sep: char): (parts: seq<string>)
    ensures |parts| > 0
    decreases |s|
  {
    match IndexOf(s, sep)
    case None => [s]
    case Some(i) => [s[..i]] + Split(s[i + 1..], sep)
  }

  /** `sep.join(parts)`. */
  function Join(parts: seq<string>, sep: char): string
  {
    if |parts| <= 1 then (if parts == [] then "" else parts[0])
    else parts[0] + [sep] + Join(parts[1..], sep)
  }

  function Count(s: string, c: char): nat
  {
    if s == [] then 0 else (if s[0] == c then 1 else 0) + Count(s[1..], c)
  }

  lemma {:induction false} CountSplit(s: string, c: char, i: nat)
    requires i < |s| && s[i] == c && forall k :: 0 <= k < i ==> s[k] != c
    ensures Count(s, c) == 1 + Count(s[i + 1..], c)
  {
    if i > 0 {
      CountSplit(s[1..], c, i - 1);
      assert s[1..][i..] == s[i + 1..];
    }
  }

  lemma {:induction false} CountNone(s: string, c: char)
    requires forall k :: 0 <= k < |s| ==> s[k] != c
    ensures Count(s, c) == 0
  {
    if s != [] { CountNone(s[1..], c); }
  }

  /** Splitting loses nothing, the pieces hold no separator, and there is one
      more piece than there are separators. */
  lemma {:induction false} SplitParts(s: string, sep: char)
    ensures Join(Split(s, sep), sep) == s
    ensures forall p, k :: p in Split(s, sep) && 0 <= k < |p| ==> p[k] != sep
    ensures |Split(s, sep)| == Count(s, sep) + 1
    decreases |s|
  {
    match IndexOf(s, sep)
    case None =>
      CountNone(s, sep);
    case Some(i) =>
      var rest := s[i + 1..];
      SplitParts(rest, sep);
      CountSplit(s, sep, i);
      assert s == s[..i] + [sep] + rest;
  }

  function LowerChar(c: char): char
  {
    if 'A' <= c <= 'Z' then (c as int + 32) as char else c
  }

  /** `s.lower()` on ASCII letters. */
  function Lower(s: string): (r: string)
    ensures |r| == |s| && forall i :: 0 <= i < |s| ==> r[i] == LowerChar(s[i])
  {
    if s == [] then [] else [LowerChar(s[0])] + Lower(s[1..])
  }

  /** Python's `a < b` on str: lexicographic by code point. */
  predicate LexLess(a: string, b: string)
  {
    if a == [] then b != []
    else if b == [] then false
    else if a[0] != b[0] then a[0] < b[0]
    else LexLess(a[1..], b[1..])
  }

  lemma {:induction false} LexIrreflexive(a: string)
    ensures !LexLess(a, a)
  {
    if a != [] { LexIrreflexive(a[1..]); }
  }

  lemma {:induction false} LexTransitive(a: string, b: string, c: string)
    requires LexLess(a, b) && LexLess(b, c)
    ensures LexLess(a, c)
  {
    if a != [] && b != [] && c != [] && a[0] == b[0] && b[0] == c[0] {
      LexTransitive(a[1..], b[1..], c[1..]);
    }
  }

  lemma {:induction false} LexTotal(a: string, b: string)
    ensures a == b || LexLess(a, b) || LexLess(b, a)
  {
    if a != [] && b != [] && a[0] == b[0] {
      LexTotal(a[1..], b[1..]);
      if a[1..] == b[1..] {
        assert a == [a[0]] + a[1..] && b == [b[0]] + b[1..];
      }
    }
  }
}
