/**
 * The moment a suggestion request is evaluated at, the zero-padded "HH:MM"
 * times the source stores, and the string comparison it uses on them.
 *
 * The source reads the clock with `new Date()`; here the caller passes an
 * `Instant` instead. Times of day travel as strings, exactly as in the source,
 * and `LexLt` is JavaScript's `<` on strings. `LexLtIsNumeric` shows that on
 * well-formed "HH:MM" values this order is the order of minutes since midnight,
 * which is what lets the window rules be read as arithmetic.
 */
module Clock {

  /** Index of the day of the week as `Date.getDay()` returns it: 0 is Sunday. */
  type Weekday = d: int | 0 <= d < 7

  /** Minutes since local midnight. */
  type MinuteOfDay = m: int | 0 <= m < 1440

  /** The weekday codes the source indexes with `getDay()`, Sunday first. */
  const DayCodes: seq<string> := ["Sun", "Mon", "Tue", "Wed", "Thu", "Fri", "Sat"]

  /**
   * The request's single snapshot of "now": weekday and minute in local time,
   * the millisecond timestamp (`getTime()`), and an abstract key standing for
   * the local calendar date (`toDateString()`).
   */
  datatype Instant = Instant(weekday: Weekday, minute: MinuteOfDay, epochMs: int, dateKey: int)

  function DayName(d: Weekday): string {
    DayCodes[d]
  }

  /** `getHours()` of the instant. */
  function Hour(now: Instant): (h: int)
    ensures 0 <= h < 24
    ensures h * 60 <= now.minute < h * 60 + 60
  {
    now.minute / 60
  }

  lemma DayNamesDistinct(d: Weekday, e: Weekday)
    ensures DayName(d) == DayName(e) <==> d == e
  {}

  predicate IsDigit(c: char) {
    '0' <= c <= '9'
  }

  function DigitValue(c: char): int
    requires IsDigit(c)
  {
    c as int - '0' as int
  }

  function DigitChar(n: int): (c: char)
    requires 0 <= n < 10
    ensures IsDigit(c) && DigitValue(c) == n
  {
    ('0' as int + n) as char
  }

  /** A zero-padded 24-hour "HH:MM" value, as the data-entry side guarantees. */
  predicate WellFormed(s: string) {
    |s| == 5 && IsDigit(s[0]) && IsDigit(s[1]) && s[2] == ':' && IsDigit(s[3]) && IsDigit(s[4]) &&
    DigitValue(s[0]) * 10 + DigitValue(s[1]) < 24 && DigitValue(s[3]) < 6
  }

  /** The minute of the day a well-formed "HH:MM" names. */
  function Minutes(s: string): MinuteOfDay
    requires WellFormed(s)
  {
    (DigitValue(s[0]) * 10 + DigitValue(s[1])) * 60 + DigitValue(s[3]) * 10 + DigitValue(s[4])
  }

  /** `toTimeString().substring(0, 5)`: the current time as "HH:MM". */
  function FormatHHMM(m: MinuteOfDay): (s: string)
    ensures WellFormed(s) && Minutes(s) == m
  {
    var h, mm := m / 60, m % 60;
    [DigitChar(h / 10), DigitChar(h % 10), ':', DigitChar(mm / 10), DigitChar(mm % 10)]
  }

  /** The other half of the round trip: a well-formed time is its own formatting. */
  lemma FormatMinutes(s: string)
    requires WellFormed(s)
    ensures FormatHHMM(Minutes(s)) == s
  {
    var m := Minutes(s);
    var h, mm := m / 60, m % 60;
    assert h == DigitValue(s[0]) * 10 + DigitValue(s[1]);
    assert mm == DigitValue(s[3]) * 10 + DigitValue(s[4]);
    var f := FormatHHMM(m);
    assert f[0] == s[0] && f[1] == s[1] && f[2] == s[2] && f[3] == s[3] && f[4] == s[4];
  }

  /**
   * JavaScript's `a < b` on strings: code unit by code unit, and a proper
   * prefix is smaller. `a <= b` is `!LexLt(b, a)` and `a >= b` is `!LexLt(a, b)`.
   */
  function LexLt(a: string, b: string): (r: bool)
    ensures |a| < |b| && a == b[..|a|] ==> r
    ensures |b| <= |a| && b == a[..|b|] ==> !r
  {
    if b == [] then false
    else if a == [] then true
    else if a[0] != b[0] then a[0] < b[0]
    else
      assert |a| < |b| && a == b[..|a|] ==> a[1..] == b[1..][..|a| - 1];
      assert |b| <= |a| && b == a[..|b|] ==> b[1..] == a[1..][..|b| - 1];
      LexLt(a[1..], b[1..])
  }

  /** `<` on strings is asymmetric: `a < b` and `b < a` never both hold. */
  lemma {:induction false} LexLtAsymmetric(a: string, b: string)
    ensures LexLt(a, b) ==> !LexLt(b, a)
  {
    if a != [] && b != [] && a[0] == b[0] {
      LexLtAsymmetric(a[1..], b[1..]);
    }
  }

  lemma LexLtIrreflexive(a: string)
    ensures !LexLt(a, a)
  {}

  /** On well-formed times, string order is numeric order of the minutes. */
  lemma LexLtIsNumeric(a: string, b: string)
    requires WellFormed(a) && WellFormed(b)
    ensures LexLt(a, b) <==> Minutes(a) < Minutes(b)
  {
    var a0, a1, a3, a4 := DigitValue(a[0]), DigitValue(a[1]), DigitValue(a[3]), DigitValue(a[4]);
    var b0, b1, b3, b4 := DigitValue(b[0]), DigitValue(b[1]), DigitValue(b[3]), DigitValue(b[4]);
    assert a[1..][1..][1..][1..] == a[4..] && b[1..][1..][1..][1..] == b[4..];
    assert LexLt(a[4..], b[4..]) <==> a4 < b4 by {
      assert a[4..][1..] == [] && b[4..][1..] == [];
    }
    assert LexLt(a[3..], b[3..]) <==> a3 < b3 || (a3 == b3 && a4 < b4) by {
      assert a[3..][1..] == a[4..] && b[3..][1..] == b[4..];
    }
    assert LexLt(a[2..], b[2..]) <==> LexLt(a[3..], b[3..]) by {
      assert a[2..][1..] == a[3..] && b[2..][1..] == b[3..];
    }
    assert LexLt(a[1..], b[1..]) <==> a1 < b1 || (a1 == b1 && LexLt(a[2..], b[2..])) by {
      assert a[1..][1..] == a[2..] && b[1..][1..] == b[2..];
    }
    var ha, hb := a0 * 10 + a1, b0 * 10 + b1;
    var ma, mb := a3 * 10 + a4, b3 * 10 + b4;
    assert LexLt(a, b) <==> ha < hb || (ha == hb && ma < mb);
  }

  /** The numeric reading of the time-window rule (both bounds inclusive). */
  predicate InWindow(start: MinuteOfDay, end: MinuteOfDay, t: MinuteOfDay) {
    if end < start then t >= start || t <= end else start <= t <= end
  }

  /** A window that crosses midnight contains both of its bounds and midnight itself. */
  lemma CrossingWindowBounds(start: MinuteOfDay, end: MinuteOfDay)
    requires end < start
    ensures InWindow(start, end, start) && InWindow(start, end, end) && InWindow(start, end, 0)
    ensures forall t: MinuteOfDay :: end < t < start ==> !InWindow(start, end, t)
  {}
}
