/**
  Calendar months and calendar dates, as the app reads them from its
  "YYYY-MM" and "YYYY-MM-DD" strings. Every date is read as UTC midnight,
  which is how an ISO date-only string is parsed; local time zones are
  not modelled.
 */
module Calendar {
  /** A month of the year, January = 1. */
  type MonthOfYear = m: int | 1 <= m <= 12 witness 1

  /** A day of the month. Whether the day exists in that month is not checked. */
  type DayOfMonth = d: int | 1 <= d <= 31 witness 1

  /** A "YYYY-MM" period. */
  datatype YearMonth = YearMonth(year: int, month: MonthOfYear)

  /** A "YYYY-MM-DD" calendar date. */
  datatype Date = Date(year: int, month: MonthOfYear, day: DayOfMonth)

  /** The number of months from January of year 0 to `ym`. */
  function MonthIndex(ym: YearMonth): int
  {
    ym.year * 12 + (ym.month - 1)
  }

  /** The month count between two periods the way the densifier computes it:
      the year difference times twelve plus the month difference. */
  function MonthsBetween(from: YearMonth, to: YearMonth): (diff: int)
    ensures diff == MonthIndex(to) - MonthIndex(from)
    ensures diff == 0 <==> from == to
  {
    (to.year - from.year) * 12 + (to.month - from.month)
  }

  /** `Date.prototype.setMonth(getMonth() + k)` on the first day of `ym`:
      a month number past December carries into the year. */
  function AddMonths(ym: YearMonth, k: int): (r: YearMonth)
    ensures MonthIndex(r) == MonthIndex(ym) + k
  {
    var m := (ym.month - 1) + k;
    YearMonth(ym.year + m / 12, m % 12 + 1)
  }

  /** `new Date(ym + "-01")`: the first day of the month. */
  function FirstOfMonth(ym: YearMonth): Date
  {
    Date(ym.year, ym.month, 1)
  }

  /** A day count that orders dates the way their `getTime()` values do.
      Every month is given 31 days, which keeps the order and keeps distinct
      dates apart without the leap-year rules. */
  function Ordinal(d: Date): int
  {
    (d.year * 12 + (d.month - 1)) * 31 + (d.day - 1)
  }

  /** `a.getTime() <= b.getTime()`. */
  predicate DateLe(a: Date, b: Date)
  {
    Ordinal(a) <= Ordinal(b)
  }

  /** The ordinal order is the lexicographic order on (year, month, day),
      and equal ordinals mean equal dates. */
  lemma OrdinalIsLexicographic(a: Date, b: Date)
    ensures DateLe(a, b) <==>
      (a.year < b.year
       || (a.year == b.year && a.month < b.month)
       || (a.year == b.year && a.month == b.month && a.day <= b.day))
    ensures Ordinal(a) == Ordinal(b) <==> a == b
  {
    var ma := a.year * 12 + (a.month - 1);
    var mb := b.year * 12 + (b.month - 1);
    assert Ordinal(a) == ma * 31 + (a.day - 1);
    assert Ordinal(b) == mb * 31 + (b.day - 1);
    if ma < mb {
      assert Ordinal(a) < Ordinal(b);
    } else if ma > mb {
      assert Ordinal(a) > Ordinal(b);
    }
    if a.year < b.year {
      assert ma < mb;
    } else if a.year > b.year {
      assert ma > mb;
    }
  }

  /** Month starts are ordered as their months are. */
  lemma FirstOfMonthMonotonic(a: YearMonth, b: YearMonth)
    ensures DateLe(FirstOfMonth(a), FirstOfMonth(b)) <==> MonthIndex(a) <= MonthIndex(b)
  {
    assert Ordinal(FirstOfMonth(a)) == MonthIndex(a) * 31;
    assert Ordinal(FirstOfMonth(b)) == MonthIndex(b) * 31;
  }
}
