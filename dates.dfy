/** The part of `new Date(...)` the release-date sort depends on: parsing a
    date-only ISO string "YYYY-MM-DD" into a value that orders dates
    chronologically. Any other string is an invalid date. */
module Dates {
  import opened Wrappers

  predicate IsDigit(c: char)
  {
    '0' <= c <= '9'
  }

  function DigitValue(c: char): (d: nat)
    requires IsDigit(c)
    ensures d < 10
  {
    c as int - '0' as int
  }

  function DigitChar(d: nat): (c: char)
    requires d < 10
    ensures IsDigit(c) && DigitValue(c) == d
  {
    ('0' as int + d) as char
  }

  /** Value of the two-digit numeral at `s[i..i + 2]`. */
  function Num2(s: string, i: nat): (n: nat)
    requires i + 2 <= |s| && IsDigit(s[i]) && IsDigit(s[i + 1])
    ensures n < 100
  {
    10 * DigitValue(s[i]) + DigitValue(s[i + 1])
  }

  /** Value of the four-digit numeral at `s[i..i + 4]`. */
  function Num4(s: string, i: nat): (n: nat)
    requires i + 4 <= |s| && forall k :: i <= k < i + 4 ==> IsDigit(s[k])
    ensures n < 10000
  {
    100 * Num2(s, i) + Num2(s, i + 2)
  }

  /** The shape "YYYY-MM-DD" with a month in 1..12 and a day in 1..31. */
  predicate WellFormed(s: string)
  {
    |s| == 10 && s[4] == '-' && s[7] == '-' &&
    (forall k :: 0 <= k < 10 && k != 4 && k != 7 ==> IsDigit(s[k])) &&
    1 <= Num2(s, 5) <= 12 && 1 <= Num2(s, 8) <= 31
  }

  /** A calendar day as one integer; later days give larger values. */
  function Key(year: nat, month: nat, day: nat): nat
  {
    year * 10000 + month * 100 + day
  }

  /** The time value of a date-only string, or None for an invalid date. */
  function Parse(s: string): (r: Option<nat>)
    ensures r.Some? <==> WellFormed(s)
  {
    if WellFormed(s) then Some(Key(Num4(s, 0), Num2(s, 5), Num2(s, 8))) else None
  }

  /** The "YYYY-MM-DD" text of a calendar day. */
  function Format(year: nat, month: nat, day: nat): (s: string)
    requires year < 10000 && month < 100 && day < 100
    ensures |s| == 10
  {
    [DigitChar(year / 1000), DigitChar(year / 100 % 10), DigitChar(year / 10 % 10), DigitChar(year % 10),
     '-', DigitChar(month / 10), DigitChar(month % 10),
     '-', DigitChar(day / 10), DigitChar(day % 10)]
  }

  /** Parsing the text of a valid calendar day gives back that day. */
  lemma ParseFormat(year: nat, month: nat, day: nat)
    requires year < 10000 && 1 <= month <= 12 && 1 <= day <= 31
    ensures Parse(Format(year, month, day)) == Some(Key(year, month, day))
  {
    var s := Format(year, month, day);
    assert Num2(s, 0) == year / 100;
    assert Num2(s, 2) == year % 100;
    assert Num4(s, 0) == year;
    assert Num2(s, 5) == month;
    assert Num2(s, 8) == day;
  }

  /** Keys order calendar days as the calendar does: by year, then month, then day. */
  lemma KeyOrder(y1: nat, m1: nat, d1: nat, y2: nat, m2: nat, d2: nat)
    requires 1 <= m1 <= 12 && 1 <= d1 <= 31 && 1 <= m2 <= 12 && 1 <= d2 <= 31
    ensures Key(y1, m1, d1) < Key(y2, m2, d2) <==>
            y1 < y2 || (y1 == y2 && (m1 < m2 || (m1 == m2 && d1 < d2)))
  {
    if y1 < y2 {
      assert y1 * 10000 + 10000 <= y2 * 10000;
    } else if y2 < y1 {
      assert y2 * 10000 + 10000 <= y1 * 10000;
    }
  }

  /** The sort key of an optional release date: its time value, or -1
      (below every valid date) when it is missing or invalid. */
  function Rank(date: Option<string>): (k: int)
    ensures k >= -1
    ensures k >= 0 <==> date.Some? && WellFormed(date.value)
  {
    match date
    case Some(s) => (match Parse(s) case Some(v) => v case None => -1)
    case None => -1
  }
}
