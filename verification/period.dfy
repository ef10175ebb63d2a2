/** Billing periods, the prior-period rule and the month-name tables
    (main.py:464-470, main.py:509-514, main.py:570-571). */
module Period {
  import Decimal

  /** A billing period: a calendar month of a year. */
  datatype Period = Period(month: int, year: int)

  predicate Valid(p: Period) {
    1 <= p.month <= 12
  }

  /** Months elapsed since January of year 0: consecutive periods differ by one. */
  function MonthIndex(p: Period): int {
    p.year * 12 + (p.month - 1)
  }

  /** The prior billing period, rolling back into December of the previous year in January. */
  function Previous(p: Period): (q: Period)
    requires Valid(p)
    ensures Valid(q)
    ensures MonthIndex(q) == MonthIndex(p) - 1
  {
    if p.month > 1 then Period(p.month - 1, p.year) else Period(12, p.year - 1)
  }

  /** A valid period is determined by its month index. */
  lemma MonthIndexInjective(p: Period, q: Period)
    requires Valid(p) && Valid(q)
    requires MonthIndex(p) == MonthIndex(q)
    ensures p == q
  {
  }

  /** The prior period is the unique valid period one month earlier: in
      February..December it is the preceding month of the same year, in
      January it is December of the preceding year. */
  lemma PreviousIsOneMonthEarlier(p: Period, q: Period)
    requires Valid(p) && Valid(q)
    ensures q == Previous(p) <==> MonthIndex(q) == MonthIndex(p) - 1
    ensures p.month == 1 ==> Previous(p) == Period(12, p.year - 1)
    ensures 2 <= p.month ==> Previous(p) == Period(p.month - 1, p.year)
  {
    if MonthIndex(q) == MonthIndex(p) - 1 {
      MonthIndexInjective(q, Previous(p));
    }
  }

  /** The lower-case month names used for the output folder and the file name. */
  function MonthName(m: int): (s: string)
    requires 1 <= m <= 12
    ensures 3 <= |s| <= 8
    ensures forall i :: 0 <= i < |s| ==> 'а' <= s[i] <= 'я'
  {
    if m == 1 then "январь"
    else if m == 2 then "февраль"
    else if m == 3 then "март"
    else if m == 4 then "апрель"
    else if m == 5 then "май"
    else if m == 6 then "июнь"
    else if m == 7 then "июль"
    else if m == 8 then "август"
    else if m == 9 then "сентябрь"
    else if m == 10 then "октябрь"
    else if m == 11 then "ноябрь"
    else "декабрь"
  }

  /** Distinct months have distinct names, so monthly folders never merge. */
  lemma MonthNameInjective(m1: int, m2: int)
    requires 1 <= m1 <= 12 && 1 <= m2 <= 12
    requires MonthName(m1) == MonthName(m2)
    ensures m1 == m2
  {
  }

  /** The capital of a lower-case Russian letter; every other character is unchanged. */
  function UpperCyrillic(c: char): char {
    if 'а' <= c <= 'я' then (c as int - 0x20) as char
    else if c == 'ё' then 'Ё'
    else c
  }

  /** The string with its first character made upper-case. */
  function CapitalizeFirst(s: string): (r: string)
    ensures |r| == |s|
    ensures |s| > 0 ==> r[1..] == s[1..]
  {
    if |s| == 0 then s else [UpperCyrillic(s[0])] + s[1..]
  }

  /** The month label of the subscriber panel's list of latest readings: a
      capitalised name for 1..12, "Месяц N" for anything else. */
  function FormatMonth(m: int): (s: string)
    ensures 1 <= m <= 12 ==> |s| == |MonthName(m)| && 'А' <= s[0] <= 'Я'
    ensures !(1 <= m <= 12) ==> s == "Месяц " + Decimal.IntToString(m)
  {
    if 1 <= m <= 12 then CapitalMonthNames[m - 1] else "Месяц " + Decimal.IntToString(m)
  }

  const CapitalMonthNames: seq<string> :=
    ["Январь", "Февраль", "Март", "Апрель", "Май", "Июнь",
     "Июль", "Август", "Сентябрь", "Октябрь", "Ноябрь", "Декабрь"]

  /** The label of month 1..12 is its folder name with a capital first letter. */
  lemma FormatMonthCapitalisesName(m: int)
    requires 1 <= m <= 12
    ensures FormatMonth(m) == CapitalizeFirst(MonthName(m))
  {
    var n, f := MonthName(m), FormatMonth(m);
    assert f[1..] == n[1..];
    assert f[0] == UpperCyrillic(n[0]);
  }
}
