/** `isWithinRange` (src/utils/date.js). */
module Dates {
  import opened Wrappers
  import Js

  /** The value of one decimal digit. */
  function Digit(c: char): int
  {
    c as int - '0' as int
  }

  /** The `YYYY-MM-DD` shape: four digits, a dash, two digits, a dash, two digits. */
  predicate IsoShaped(s: string)
  {
    |s| == 10 && s[4] == '-' && s[7] == '-'
    && (forall i :: 0 <= i < 4 ==> Js.IsDigit(s[i]))
    && Js.IsDigit(s[5]) && Js.IsDigit(s[6]) && Js.IsDigit(s[8]) && Js.IsDigit(s[9])
  }

  function YearOf(s: string): int
    requires |s| == 10
  {
    1000 * Digit(s[0]) + 100 * Digit(s[1]) + 10 * Digit(s[2]) + Digit(s[3])
  }

  function MonthOf(s: string): int
    requires |s| == 10
  {
    10 * Digit(s[5]) + Digit(s[6])
  }

  function DayOf(s: string): int
    requires |s| == 10
  {
    10 * Digit(s[8]) + Digit(s[9])
  }

  /** The day ordinal of a calendar date; months take 32 slots and years 512. */
  function Ordinal(year: int, month: int, day: int): int
  {
    year * 512 + month * 32 + day
  }

  /**
   * `new Date(s)` for the `YYYY-MM-DD` strings the date inputs produce, as a day
   * ordinal (`DateOrder` shows it is chronological); `None` is an Invalid Date.
   * Other formats JavaScript accepts, times of day and time zones are not part of this model.
   */
  function ParseDate(s: string): (r: Option<int>)
    ensures s == "" ==> r.None?
    ensures r.Some? <==> IsoShaped(s) && 1 <= MonthOf(s) <= 12 && 1 <= DayOf(s) <= 31
  {
    if IsoShaped(s) && 1 <= MonthOf(s) <= 12 && 1 <= DayOf(s) <= 31
    then Some(Ordinal(YearOf(s), MonthOf(s), DayOf(s)))
    else None
  }

  /** Year, then month, then day: the calendar order of two dates. */
  predicate Before(y1: int, m1: int, d1: int, y2: int, m2: int, d2: int)
  {
    y1 < y2 || (y1 == y2 && (m1 < m2 || (m1 == m2 && d1 < d2)))
  }

  /** For valid months and days the ordinal order is the calendar order. */
  lemma {:induction false} OrdinalOrder(y1: int, m1: int, d1: int, y2: int, m2: int, d2: int)
    requires 1 <= m1 <= 12 && 1 <= d1 <= 31 && 1 <= m2 <= 12 && 1 <= d2 <= 31
    ensures Ordinal(y1, m1, d1) < Ordinal(y2, m2, d2) <==> Before(y1, m1, d1, y2, m2, d2)
    ensures Ordinal(y1, m1, d1) == Ordinal(y2, m2, d2) <==> y1 == y2 && m1 == m2 && d1 == d2
  {
    var r1 := m1 * 32 + d1;
    var r2 := m2 * 32 + d2;
    assert 33 <= r1 < 512 && 33 <= r2 < 512;
    if y1 < y2 {
      assert y1 * 512 + 512 <= y2 * 512;
    } else if y2 < y1 {
      assert y2 * 512 + 512 <= y1 * 512;
    } else if m1 < m2 {
      assert m1 * 32 + 32 <= m2 * 32;
    } else if m2 < m1 {
      assert m2 * 32 + 32 <= m1 * 32;
    }
  }

  /**
   * Two valid date strings compare by their ordinals exactly as their year, month and day
   * compare, in that order; equal ordinals mean the same calendar date.
   */
  lemma {:induction false} DateOrder(a: string, b: string)
    requires ParseDate(a).Some? && ParseDate(b).Some?
    ensures ParseDate(a).value < ParseDate(b).value <==>
              Before(YearOf(a), MonthOf(a), DayOf(a), YearOf(b), MonthOf(b), DayOf(b))
    ensures ParseDate(a).value == ParseDate(b).value <==>
              YearOf(a) == YearOf(b) && MonthOf(a) == MonthOf(b) && DayOf(a) == DayOf(b)
  {
    OrdinalOrder(YearOf(a), MonthOf(a), DayOf(a), YearOf(b), MonthOf(b), DayOf(b));
  }

  /** `bound && new Date(bound) > date`: an unparseable bound compares false. */
  predicate StartsAfter(bound: string, date: int)
  {
    bound != "" && match ParseDate(bound) case Some(b) => b > date case None => false
  }

  /** `bound && new Date(bound) < date`. */
  predicate EndsBefore(bound: string, date: int)
  {
    bound != "" && match ParseDate(bound) case Some(b) => b < date case None => false
  }

  /**
   * `isWithinRange(dateStr, from, to)`: a missing or unparseable date is never in
   * range; a parseable bound is inclusive; a missing or unparseable bound imposes nothing.
   */
  function IsWithinRange(dateStr: string, from: string, to: string): (r: bool)
    ensures r <==> match ParseDate(dateStr)
                   case None => false
                   case Some(d) => (ParseDate(from).Some? ==> ParseDate(from).value <= d)
                                   && (ParseDate(to).Some? ==> d <= ParseDate(to).value)
    ensures dateStr == "" ==> !r
  {
    if dateStr == "" then false
    else match ParseDate(dateStr)
      case None => false
      case Some(d) => !StartsAfter(from, d) && !EndsBefore(to, d)
  }

  /** A lower bound at least as permissive as another: absent or unparseable, or no later. */
  predicate EarlierOrOpen(wider: string, narrower: string)
  {
    ParseDate(wider).None? || (ParseDate(narrower).Some? && ParseDate(wider).value <= ParseDate(narrower).value)
  }

  /** An upper bound at least as permissive as another. */
  predicate LaterOrOpen(wider: string, narrower: string)
  {
    ParseDate(wider).None? || (ParseDate(narrower).Some? && ParseDate(narrower).value <= ParseDate(wider).value)
  }

  /** Widening the window never drops a date that was in range. */
  lemma {:induction false} WideningKeepsDates(dateStr: string, from: string, to: string, from': string, to': string)
    requires EarlierOrOpen(from', from) && LaterOrOpen(to', to)
    requires IsWithinRange(dateStr, from, to)
    ensures IsWithinRange(dateStr, from', to')
  {
  }

  /** With both bounds empty, exactly the parseable dates are in range. */
  lemma {:induction false} OpenWindow(dateStr: string)
    ensures IsWithinRange(dateStr, "", "") <==> ParseDate(dateStr).Some?
  {
  }

  /** A date strictly before `from` or strictly after `to` is out of range. */
  lemma {:induction false} OutsideBounds(dateStr: string, from: string, to: string)
    requires ParseDate(dateStr).Some? && ParseDate(from).Some? && ParseDate(to).Some?
    requires ParseDate(dateStr).value < ParseDate(from).value || ParseDate(to).value < ParseDate(dateStr).value
    ensures !IsWithinRange(dateStr, from, to)
  {
  }

  /** The documented example: mid-June and both ends of June are inside June. */
  lemma {:induction false} JuneExamples()
    ensures IsWithinRange("2024-06-15", "2024-06-01", "2024-06-30")
    ensures IsWithinRange("2024-06-01", "2024-06-01", "2024-06-30")
    ensures IsWithinRange("2024-06-30", "2024-06-01", "2024-06-30")
  {
    JuneBounds();
    assert ParseDate("2024-06-15") == Some(Ordinal(2024, 6, 15));
  }

  /** The documented counter-example: the first of July, and a missing date, are not in June. */
  lemma {:induction false} JulyOutsideJune()
    ensures !IsWithinRange("2024-07-01", "2024-06-01", "2024-06-30")
    ensures !IsWithinRange("", "2024-06-01", "2024-06-30")
  {
    JuneBounds();
    assert ParseDate("2024-07-01") == Some(Ordinal(2024, 7, 1));
  }

  /** The two ends of the June period parse to their ordinals. */
  lemma {:induction false} JuneBounds()
    ensures ParseDate("2024-06-01") == Some(Ordinal(2024, 6, 1))
    ensures ParseDate("2024-06-30") == Some(Ordinal(2024, 6, 30))
  {
  }
}
