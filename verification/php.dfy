/** The PHP built-ins the year validation and the donor check rely on.
    Dafny strings are sequences of Unicode scalar values while PHP strings
    are byte strings, so `strlen` is the length of the UTF-8 encoding. */
module Php {

  /** `empty($v)` for a string `$v`: true exactly for "" and "0". */
  predicate IsEmpty(s: string) {
    s == "" || s == "0"
  }

  /** Number of bytes the UTF-8 encoding of `c` takes. */
  function Utf8Width(c: char): (n: nat)
    ensures 1 <= n <= 4
    ensures n == 1 <==> c as int < 0x80
  {
    if c as int < 0x80 then 1
    else if c as int < 0x800 then 2
    else if c as int < 0x1_0000 then 3
    else 4
  }

  /** `strlen($s)`: the number of bytes of `s`. */
  function StrLen(s: string): (n: nat)
    ensures |s| <= n <= 4 * |s|
    ensures n == |s| <==> forall i :: 0 <= i < |s| ==> s[i] as int < 0x80
  {
    if s == [] then 0
    else
      var n := Utf8Width(s[0]) + StrLen(s[1..]);
      assert forall i :: 1 <= i < |s| ==> s[i] == s[1..][i - 1];
      n
  }

  predicate IsDigit(c: char) {
    '0' <= c <= '9'
  }

  predicate AllDigits(s: string) {
    forall i :: 0 <= i < |s| ==> IsDigit(s[i])
  }

  /** The characters PHP skips around a numeric string: space, tab, line
      feed, carriage return, vertical tab and form feed. */
  predicate IsWhitespace(c: char) {
    c == ' ' || c == '\t' || c == '\n' || c == '\r' || c as int == 0x0B || c as int == 0x0C
  }

  /** `s` without its leading whitespace. */
  function TrimLeft(s: string): (r: string)
    ensures |r| <= |s|
    ensures r == [] || !IsWhitespace(r[0])
  {
    if s != [] && IsWhitespace(s[0]) then TrimLeft(s[1..]) else s
  }

  /** `s` without its trailing whitespace. */
  function TrimRight(s: string): (r: string)
    ensures |r| <= |s|
    ensures r == [] || !IsWhitespace(r[|r| - 1])
  {
    if s != [] && IsWhitespace(s[|s| - 1]) then TrimRight(s[..|s| - 1]) else s
  }

  /** `s` without one leading `+` or `-`. */
  function DropSign(s: string): string {
    if s != [] && (s[0] == '+' || s[0] == '-') then s[1..] else s
  }

  /** The index of the first `a` or `b` in `s`, or |s| when neither occurs. */
  function FindFirst(s: string, a: char, b: char): (k: nat)
    ensures k <= |s|
    ensures forall i :: 0 <= i < k ==> s[i] != a && s[i] != b
    ensures k < |s| ==> s[k] == a || s[k] == b
  {
    if s == [] || s[0] == a || s[0] == b then 0 else 1 + FindFirst(s[1..], a, b)
  }

  /** PHP's LNUM or DNUM: digits with at most one decimal point and at least
      one digit ("12", "1.5", ".5", "1."). */
  predicate IsMantissa(m: string) {
    var d := FindFirst(m, '.', '.');
    if d == |m| then m != [] && AllDigits(m)
    else 2 <= |m| && AllDigits(m[..d]) && AllDigits(m[d + 1..])
  }

  /** Nothing, or `e`/`E`, an optional sign and at least one digit. */
  predicate IsExponent(e: string) {
    e == [] || ((e[0] == 'e' || e[0] == 'E') && var g := DropSign(e[1..]); g != [] && AllDigits(g))
  }

  /** PHP 8's `is_numeric` on a string: optional surrounding whitespace, an
      optional sign, a decimal mantissa and an optional exponent. It accepts
      "1e10", "12.5", " 123" and "-1.0" as well as plain digit strings. */
  predicate IsNumeric(s: string) {
    var u := DropSign(TrimRight(TrimLeft(s)));
    var k := FindFirst(u, 'e', 'E');
    IsMantissa(u[..k]) && IsExponent(u[k..])
  }

  /** Every non-empty string of decimal digits is numeric. */
  lemma DigitsAreNumeric(s: string)
    requires s != [] && AllDigits(s)
    ensures IsNumeric(s)
  {
    assert TrimLeft(s) == s;
    assert TrimRight(s) == s;
    assert DropSign(s) == s;
    var k := FindFirst(s, 'e', 'E');
    assert k == |s|;
    var d := FindFirst(s, '.', '.');
    assert d == |s|;
    assert s[..k] == s;
  }

  /** A string without surrounding whitespace and without a sign is numeric
      exactly when it splits into a mantissa and an exponent at its first
      `e` or `E`. */
  lemma PlainNumeric(s: string)
    requires s != [] && !IsWhitespace(s[0]) && !IsWhitespace(s[|s| - 1])
    requires s[0] != '+' && s[0] != '-'
    ensures var k := FindFirst(s, 'e', 'E');
      IsNumeric(s) <==> IsMantissa(s[..k]) && IsExponent(s[k..])
  {
    assert TrimLeft(s) == s;
    assert TrimRight(s) == s;
  }
}
