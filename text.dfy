/**
 * The string operations the core relies on: JavaScript's `String.prototype.trim`,
 * `Array.prototype.join`, and the decimal rendering of a number inside a
 * template literal.
 */
module Text {

  /** ECMAScript WhiteSpace and LineTerminator code points: what `trim()` removes. */
  predicate IsWhitespace(c: char) {
    c == ' ' || c == '\t' || c == '\n' || c == '\r' || c == '\U{000B}' || c == '\U{000C}' ||
    c == '\U{00A0}' || c == '\U{1680}' || ('\U{2000}' <= c <= '\U{200A}') ||
    c == '\U{2028}' || c == '\U{2029}' || c == '\U{202F}' || c == '\U{205F}' ||
    c == '\U{3000}' || c == '\U{FEFF}'
  }

  function TrimStart(s: string): (r: string)
    ensures |r| <= |s| && r == s[|s| - |r|..]
    ensures r == [] || !IsWhitespace(r[0])
    ensures forall k :: 0 <= k < |s| - |r| ==> IsWhitespace(s[k])
  {
    if s != [] && IsWhitespace(s[0]) then TrimStart(s[1..]) else s
  }

  function TrimEnd(s: string): (r: string)
    ensures |r| <= |s| && r == s[..|r|]
    ensures r == [] || !IsWhitespace(r[|r| - 1])
    ensures forall k :: |r| <= k < |s| ==> IsWhitespace(s[k])
  {
    if s != [] && IsWhitespace(s[|s| - 1]) then TrimEnd(s[..|s| - 1]) else s
  }

  /** Number of leading whitespace characters of `s`. */
  function LeadingBlanks(s: string): (n: nat)
    ensures n <= |s|
  {
    |s| - |TrimStart(s)|
  }

  /**
   * `s.trim()`: the infix of `s` left after dropping whitespace at both ends;
   * it neither starts nor ends with whitespace.
   */
  function Trim(s: string): (r: string)
    ensures LeadingBlanks(s) + |r| <= |s| && r == s[LeadingBlanks(s)..LeadingBlanks(s) + |r|]
    ensures forall k :: 0 <= k < LeadingBlanks(s) ==> IsWhitespace(s[k])
    ensures forall k :: LeadingBlanks(s) + |r| <= k < |s| ==> IsWhitespace(s[k])
    ensures r == [] || (!IsWhitespace(r[0]) && !IsWhitespace(r[|r| - 1]))
  {
    var t := TrimStart(s);
    var r := TrimEnd(t);
    var i := |s| - |t|;
    assert r == s[i..i + |r|];
    r
  }

  /** A string with no whitespace at either end is unchanged by trimming. */
  lemma TrimUnchanged(s: string)
    requires s == [] || (!IsWhitespace(s[0]) && !IsWhitespace(s[|s| - 1]))
    ensures Trim(s) == s
  {}

  lemma TrimIdempotent(s: string)
    ensures Trim(Trim(s)) == Trim(s)
  {
    TrimUnchanged(Trim(s));
  }

  /** Trimming yields the empty string exactly when every character is whitespace. */
  lemma {:induction false} TrimEmptyIffBlank(s: string)
    ensures Trim(s) == [] <==> forall k :: 0 <= k < |s| ==> IsWhitespace(s[k])
  {
    if Trim(s) != [] {
      var r := Trim(s);
      assert s[LeadingBlanks(s)] == r[0];
    }
  }

  /** `parts.join(sep)`. */
  function Join(parts: seq<string>, sep: string): (r: string)
    ensures parts == [] ==> r == ""
    ensures parts != [] ==> |r| >= |parts[0]| && r[..|parts[0]|] == parts[0]
    ensures parts != [] ==> |r| >= |parts[|parts| - 1]| && r[|r| - |parts[|parts| - 1]|..] == parts[|parts| - 1]
    ensures |parts| >= 2 ==> |r| >= |parts[0]| + |sep| && r[|parts[0]|..|parts[0]| + |sep|] == sep
  {
    if |parts| == 0 then ""
    else if |parts| == 1 then parts[0]
    else
      var rest := Join(parts[1..], sep);
      assert parts[1..][|parts[1..]| - 1] == parts[|parts| - 1];
      assert (parts[0] + sep + rest)[|parts[0]| + |sep|..] == rest;
      parts[0] + sep + rest
  }

  /** Number of occurrences of `c` in `s`. */
  function Occurrences(c: char, s: string): nat {
    if s == [] then 0 else (if s[0] == c then 1 else 0) + Occurrences(c, s[1..])
  }

  lemma {:induction false} OccurrencesAppend(c: char, a: string, b: string)
    ensures Occurrences(c, a + b) == Occurrences(c, a) + Occurrences(c, b)
  {
    if a != [] {
      assert (a + b)[1..] == a[1..] + b;
      OccurrencesAppend(c, a[1..], b);
    } else {
      assert a + b == b;
    }
  }

  /** Joining parts that hold `c` once each, with a separator free of `c`, holds it once per part. */
  lemma {:induction false} OccurrencesJoin(c: char, parts: seq<string>, sep: string)
    requires forall k :: 0 <= k < |parts| ==> Occurrences(c, parts[k]) == 1
    requires Occurrences(c, sep) == 0
    ensures Occurrences(c, Join(parts, sep)) == |parts|
  {
    if |parts| > 1 {
      OccurrencesJoin(c, parts[1..], sep);
      OccurrencesAppend(c, parts[0] + sep, Join(parts[1..], sep));
      OccurrencesAppend(c, parts[0], sep);
    }
  }

  function DigitString(d: nat): string
    requires d < 10
  {
    [('0' as int + d) as char]
  }

  /** The decimal digits of `n`, as `${n}` renders a non-negative integer. */
  function NatToString(n: nat): (s: string)
    ensures |s| >= 1 && forall k :: 0 <= k < |s| ==> '0' <= s[k] <= '9'
  {
    if n < 10 then DigitString(n) else NatToString(n / 10) + DigitString(n % 10)
  }

  /** The value of a string of decimal digits. */
  function DecimalValue(s: string): nat
    requires forall k :: 0 <= k < |s| ==> '0' <= s[k] <= '9'
  {
    if s == [] then 0 else DecimalValue(s[..|s| - 1]) * 10 + (s[|s| - 1] as int - '0' as int)
  }

  /** Rendering a number and reading it back gives the number. */
  lemma {:induction false} NatToStringRoundTrip(n: nat)
    ensures DecimalValue(NatToString(n)) == n
  {
    if n >= 10 {
      NatToStringRoundTrip(n / 10);
      var s := NatToString(n);
      assert s[..|s| - 1] == NatToString(n / 10);
    }
  }
}
