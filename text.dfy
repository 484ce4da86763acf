// String helpers the application relies on: `str(n)` for integers, Python's
// `int(text)` parser, ASCII `str.lower` and `str.startswith`.
module Text {

  function DigitChar(d: int): char
    requires 0 <= d < 10
  {
    "0123456789"[d]
  }

  predicate IsDigit(c: char) { '0' <= c <= '9' }

  function DigitValue(c: char): int
    requires IsDigit(c)
  {
    (c as int) - ('0' as int)
  }

  /** Decimal digits of a natural number, most significant first, no leading zeros. */
  function NatToString(n: nat): (s: string)
    ensures |s| > 0 && forall i :: 0 <= i < |s| ==> IsDigit(s[i])
    decreases n
  {
    if n < 10 then [DigitChar(n)] else NatToString(n / 10) + [DigitChar(n % 10)]
  }

  /** `str(n)` for a Python int. */
  function IntToString(n: int): (s: string)
    ensures |s| > 0
    ensures n < 0 <==> s[0] == '-'
  {
    if n < 0 then "-" + NatToString(-n) else NatToString(n)
  }

  /** Whitespace that `int()` strips (the ASCII part of Python's set). */
  predicate IsSpace(c: char)
  {
    c == ' ' || c == '\t' || c == '\n' || c == '\r' || c == '\U{B}' || c == '\U{C}'
  }

  function TrimLeft(s: string): (r: string)
    ensures |r| <= |s|
    ensures |r| > 0 ==> !IsSpace(r[0])
  {
    if |s| > 0 && IsSpace(s[0]) then TrimLeft(s[1..]) else s
  }

  function TrimRight(s: string): (r: string)
    ensures |r| <= |s|
    ensures |r| > 0 ==> !IsSpace(r[|r| - 1])
  {
    if |s| > 0 && IsSpace(s[|s| - 1]) then TrimRight(s[..|s| - 1]) else s
  }

  /** Digits with single underscores allowed between them, as Python's `int()` accepts. */
  predicate WellFormedDigits(s: string)
  {
    |s| > 0 && IsDigit(s[0]) && IsDigit(s[|s| - 1]) &&
    (forall i :: 0 <= i < |s| ==> IsDigit(s[i]) || s[i] == '_') &&
    (forall i :: 0 <= i < |s| - 1 ==> !(s[i] == '_' && s[i + 1] == '_'))
  }

  /** The value of a digit string, underscores ignored. */
  function DigitsValue(s: string): nat
    requires forall i :: 0 <= i < |s| ==> IsDigit(s[i]) || s[i] == '_'
  {
    if |s| == 0 then 0
    else if s[|s| - 1] == '_' then DigitsValue(s[..|s| - 1])
    else DigitsValue(s[..|s| - 1]) * 10 + DigitValue(s[|s| - 1])
  }

  datatype Option<T> = None | Some(value: T)

  /** Python's `int(text)`: surrounding whitespace, an optional sign, then digits. */
  function ParseInt(text: string): Option<int>
  {
    var t := TrimRight(TrimLeft(text));
    var neg := |t| > 0 && t[0] == '-';
    var body := if |t| > 0 && (t[0] == '-' || t[0] == '+') then t[1..] else t;
    if !WellFormedDigits(body) then None
    else
      var v: int := DigitsValue(body);
      Some(if neg then -v else v)
  }

  lemma {:induction false} NatDigitsValue(n: nat)
    ensures WellFormedDigits(NatToString(n))
    ensures DigitsValue(NatToString(n)) == n
    decreases n
  {
    if n >= 10 {
      NatDigitsValue(n / 10);
      var s := NatToString(n);
      assert s[..|s| - 1] == NatToString(n / 10);
    }
  }

  lemma NoSpaceTrims(s: string)
    requires forall i :: 0 <= i < |s| ==> !IsSpace(s[i])
    ensures TrimRight(TrimLeft(s)) == s
  {
  }

  /** What `ParseInt` makes of a text that needs no trimming, given its sign and digits. */
  lemma ParseBody(t: string, body: string, neg: bool)
    requires TrimRight(TrimLeft(t)) == t && WellFormedDigits(body)
    requires neg ==> |t| > 0 && t[0] == '-' && body == t[1..]
    requires !neg ==> body == t && (|t| > 0 ==> t[0] != '-' && t[0] != '+')
    ensures ParseInt(t) == Some(if neg then -(DigitsValue(body) as int) else DigitsValue(body))
  {
  }

  /** Well-formed digits with no sign parse to their value. */
  lemma ParsePlainDigits(d: string)
    requires WellFormedDigits(d) && forall i :: 0 <= i < |d| ==> IsDigit(d[i])
    ensures ParseInt(d) == Some(DigitsValue(d) as int)
  {
    NoSpaceTrims(d);
    ParseBody(d, d, false);
  }

  /** A minus sign followed by well-formed digits parses to the negated digits' value. */
  lemma ParseMinusDigits(d: string)
    requires WellFormedDigits(d) && forall i :: 0 <= i < |d| ==> IsDigit(d[i])
    ensures ParseInt("-" + d) == Some(-(DigitsValue(d) as int))
  {
    MinusDigitsTrims(d);
    ParseBody("-" + d, d, true);
  }

  /** A minus sign followed by digits has nothing to trim. */
  lemma MinusDigitsTrims(d: string)
    requires forall i :: 0 <= i < |d| ==> IsDigit(d[i])
    ensures TrimRight(TrimLeft("-" + d)) == "-" + d && ("-" + d)[1..] == d
  {
    var s := "-" + d;
    forall i | 0 <= i < |s|
      ensures !IsSpace(s[i])
    {
      if i > 0 { assert s[i] == d[i - 1]; }
    }
    NoSpaceTrims(s);
  }

  /** `int(str(n)) == n`: Python's parser reads back what `str` prints. */
  lemma ParseIntToString(n: int)
    ensures ParseInt(IntToString(n)) == Some(n)
  {
    var d := NatToString(if n < 0 then -n else n);
    NatDigitsValue(if n < 0 then -n else n);
    if n < 0 {
      ParseMinusDigits(d);
    } else {
      ParsePlainDigits(d);
    }
  }

  /** `str` is injective on integers. */
  lemma IntToStringInjective(a: int, b: int)
    requires IntToString(a) == IntToString(b)
    ensures a == b
  {
    ParseIntToString(a);
    ParseIntToString(b);
  }

  /** ASCII `str.lower`. */
  function Lower(s: string): (r: string)
    ensures |r| == |s|
    ensures forall i :: 0 <= i < |s| ==> !('A' <= r[i] <= 'Z')
    ensures forall i :: 0 <= i < |s| ==> (if 'A' <= s[i] <= 'Z' then r[i] as int == s[i] as int + 32 else r[i] == s[i])
  {
    if |s| == 0 then []
    else [if 'A' <= s[0] <= 'Z' then (s[0] as int + 32) as char else s[0]] + Lower(s[1..])
  }

  /** `s.startswith(prefix)`. */
  predicate StartsWith(s: string, prefix: string)
  {
    |prefix| <= |s| && s[..|prefix|] == prefix
  }
}
